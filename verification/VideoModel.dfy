/** The video slots of one peer: which are free, which are bound to a track, and what is being watched. */
module VideoModel {
  import opened Basics

  /** A negotiated section and the profile its decoder was told to expect. */
  datatype Slot = Slot(mid: string, profile: nat)

  datatype Binding = Binding(track: string, slot: Slot, watching: bool, attached: bool)

  /** `bound` in the order the tracks were first bound. */
  datatype Video = Video(bound: seq<Binding>, free: seq<Slot>)

  function Initial(slots: seq<Slot>): Video {
    Video([], slots)
  }

  /** Where a track is bound; the length of `bound` if it is not. */
  function Position(bound: seq<Binding>, track: string): (at: nat)
    ensures at <= |bound| && (at < |bound| ==> bound[at].track == track)
    ensures forall i :: 0 <= i < at ==> bound[i].track != track
  {
    if bound == [] || bound[0].track == track then 0 else 1 + Position(bound[1..], track)
  }

  predicate Has(v: Video, track: string) {
    Position(v.bound, track) < |v.bound|
  }

  function At(v: Video, track: string): Binding
    requires Has(v, track)
  {
    v.bound[Position(v.bound, track)]
  }

  predicate Watching(v: Video, track: string) {
    Has(v, track) && At(v, track).watching
  }

  predicate Attached(v: Video, track: string) {
    Has(v, track) && At(v, track).attached
  }

  /** The first binding on a section; the length of `bound` if there is none. */
  function OnMid(bound: seq<Binding>, mid: string): (at: nat)
    ensures at <= |bound| && (at < |bound| ==> bound[at].slot.mid == mid)
    ensures forall i :: 0 <= i < at ==> bound[i].slot.mid != mid
  {
    if bound == [] || bound[0].slot.mid == mid then 0 else 1 + OnMid(bound[1..], mid)
  }

  /** The first free slot of a profile; the length of `free` if there is none. */
  function Fitting(free: seq<Slot>, profile: nat): (at: nat)
    ensures at <= |free| && (at < |free| ==> free[at].profile == profile)
    ensures forall i :: 0 <= i < at ==> free[i].profile != profile
  {
    if free == [] || free[0].profile == profile then 0 else 1 + Fitting(free[1..], profile)
  }

  lemma {:induction false} PositionAppend(bound: seq<Binding>, binding: Binding, track: string)
    ensures var at := Position(bound, track);
            Position(bound + [binding], track) ==
              if at < |bound| then at else |bound| + if binding.track == track then 0 else 1
  {
    var more := bound + [binding];
    assert forall i :: 0 <= i < |bound| ==> more[i] == bound[i];
    var at := Position(bound, track);
    if at < |bound| { assert more[at].track == track; } else { assert more[|bound|] == binding; }
  }

  /** Bind a slot to a track, or reuse the one already bound. */
  function Bind(v: Video, track: string, wanted: nat): (bound: Result<Video>)
    ensures bound.Ok? ==> Has(bound.value, track)
  {
    if Has(v, track) then Ok(v)
    else if v.free == [] then Err("video_slot_limit")
    else
      var at := Fitting(v.free, wanted);
      if at == |v.free| then Err("video_profile_mismatch")
      else
        PositionAppend(v.bound, Binding(track, v.free[at], false, false), track);
        Ok(Video(v.bound + [Binding(track, v.free[at], false, false)], v.free[..at] + v.free[at + 1..]))
  }

  /** The same tracks on the same slots; only the flags may differ. */
  predicate SameSlots(v: Video, w: Video) {
    && |v.bound| == |w.bound| && v.free == w.free
    && forall i :: 0 <= i < |v.bound| ==> v.bound[i].track == w.bound[i].track && v.bound[i].slot == w.bound[i].slot
  }

  lemma PositionSame(v: Video, w: Video, track: string)
    requires SameSlots(v, w)
    ensures Position(v.bound, track) == Position(w.bound, track)
  {}

  /** Set both what the peer of one binding believes and what the media plane is known to hold. */
  function FlagAt(v: Video, i: nat, on: bool): (w: Video)
    requires i < |v.bound|
    ensures SameSlots(v, w)
  {
    v.(bound := v.bound[i := v.bound[i].(watching := on, attached := on)])
  }

  function Flag(v: Video, track: string, on: bool): (w: Video)
    requires Has(v, track)
    ensures SameSlots(v, w)
  {
    FlagAt(v, Position(v.bound, track), on)
  }

  /** How many tracks are being watched. */
  function Watched(bound: seq<Binding>): nat {
    if bound == [] then 0 else (if bound[0].watching then 1 else 0) + Watched(bound[1..])
  }

  lemma {:induction false} WatchedFlag(v: Video, i: nat, on: bool)
    requires i < |v.bound|
    ensures Watched(FlagAt(v, i, on).bound) ==
            Watched(v.bound) + (if on then 1 else 0) - (if v.bound[i].watching then 1 else 0)
    decreases i
  {
    var w := FlagAt(v, i, on);
    if i > 0 {
      var tail := Video(v.bound[1..], v.free);
      WatchedFlag(tail, i - 1, on);
      assert w.bound[1..] == FlagAt(tail, i - 1, on).bound;
    } else {
      assert w.bound[1..] == v.bound[1..];
    }
  }

  lemma BoundHas(v: Video, i: nat)
    requires i < |v.bound|
    ensures Has(v, v.bound[i].track)
  {
    assert v.bound[i].track == v.bound[i].track;
  }

  function BoundSlots(bound: seq<Binding>): (slots: seq<Slot>)
    ensures |slots| == |bound| && forall i :: 0 <= i < |bound| ==> slots[i] == bound[i].slot
  {
    if bound == [] then [] else [bound[0].slot] + BoundSlots(bound[1..])
  }

  // ---- Slots ----

  /** Free and bound slots are exactly the negotiated ones. */
  ghost predicate Conserved(v: Video, negotiated: seq<Slot>) {
    multiset(BoundSlots(v.bound)) + multiset(v.free) == multiset(negotiated)
  }

  /** A track is bound once, and to a slot of its profile. */
  predicate Matched(bound: seq<Binding>, profiles: map<string, nat>) {
    && (forall i, j :: 0 <= i < j < |bound| ==> bound[i].track != bound[j].track)
    && (forall i :: 0 <= i < |bound| ==>
          bound[i].track in profiles && bound[i].slot.profile == profiles[bound[i].track])
  }

  ghost predicate SlotsKept(v: Video, negotiated: seq<Slot>, profiles: map<string, nat>) {
    Conserved(v, negotiated) && Matched(v.bound, profiles)
  }

  /** Only configured tracks are bound, and what the peer believes is what the plane is known to hold. */
  predicate Agreed(v: Video, profiles: map<string, nat>) {
    forall i :: 0 <= i < |v.bound| ==> v.bound[i].track in profiles && v.bound[i].watching == v.bound[i].attached
  }

  /** Every binding of the earlier state is still there, on the same slot. */
  predicate Permanent(earlier: Video, later: Video) {
    && |earlier.bound| <= |later.bound|
    && (forall i :: 0 <= i < |earlier.bound| ==>
          later.bound[i].track == earlier.bound[i].track && later.bound[i].slot == earlier.bound[i].slot)
  }

  lemma {:induction false} BoundSlotsAppend(bound: seq<Binding>, binding: Binding)
    ensures BoundSlots(bound + [binding]) == BoundSlots(bound) + [binding.slot]
  {
    assert forall i :: 0 <= i < |bound| ==> (bound + [binding])[i] == bound[i];
  }

  lemma MoveOne(bound: seq<Slot>, free: seq<Slot>, at: nat)
    requires at < |free|
    ensures multiset(bound + [free[at]]) + multiset(free[..at] + free[at + 1..]) == multiset(bound) + multiset(free)
  {
    assert free == free[..at] + [free[at]] + free[at + 1..];
  }

  lemma AppendMatched(bound: seq<Binding>, binding: Binding, profiles: map<string, nat>)
    requires Matched(bound, profiles) && Position(bound, binding.track) == |bound|
    requires binding.track in profiles && binding.slot.profile == profiles[binding.track]
    ensures Matched(bound + [binding], profiles)
  {}

  lemma AppendConserved(v: Video, at: nat, binding: Binding, negotiated: seq<Slot>)
    requires Conserved(v, negotiated) && at < |v.free| && binding.slot == v.free[at]
    ensures Conserved(Video(v.bound + [binding], v.free[..at] + v.free[at + 1..]), negotiated)
  {
    BoundSlotsAppend(v.bound, binding);
    MoveOne(BoundSlots(v.bound), v.free, at);
  }

  lemma BindSlots(v: Video, track: string, wanted: nat, negotiated: seq<Slot>, profiles: map<string, nat>)
    requires SlotsKept(v, negotiated, profiles) && track in profiles && profiles[track] == wanted
    requires Bind(v, track, wanted).Ok? && !Has(v, track)
    ensures SlotsKept(Bind(v, track, wanted).value, negotiated, profiles)
  {
    hide Conserved, Matched;
    var at := Fitting(v.free, wanted);
    var binding := Binding(track, v.free[at], false, false);
    AppendConserved(v, at, binding, negotiated);
    AppendMatched(v.bound, binding, profiles);
  }

  lemma BindPermanent(v: Video, track: string, wanted: nat)
    requires Bind(v, track, wanted).Ok?
    ensures Permanent(v, Bind(v, track, wanted).value)
  {}

  lemma BindFlags(v: Video, track: string, wanted: nat, t: string)
    requires Bind(v, track, wanted).Ok?
    ensures var w := Bind(v, track, wanted).value;
            && (Has(w, t) <==> Has(v, t) || t == track)
            && (Attached(w, t) <==> Attached(v, t)) && (Watching(w, t) <==> Watching(v, t))
  {
    if !Has(v, track) { PositionAppend(v.bound, Binding(track, v.free[Fitting(v.free, wanted)], false, false), t); }
  }

  /** Binding takes a slot of the track's profile out of the free ones, for good, and changes no flag. */
  lemma BindKeeps(v: Video, track: string, wanted: nat, negotiated: seq<Slot>, profiles: map<string, nat>)
    requires SlotsKept(v, negotiated, profiles) && track in profiles && profiles[track] == wanted
    requires Bind(v, track, wanted).Ok?
    ensures var w := Bind(v, track, wanted).value; SlotsKept(w, negotiated, profiles) && Permanent(v, w)
  {
    BindPermanent(v, track, wanted);
    if !Has(v, track) { BindSlots(v, track, wanted, negotiated, profiles); }
  }

  lemma SameSlotsKeep(v: Video, w: Video, negotiated: seq<Slot>, profiles: map<string, nat>)
    requires SlotsKept(v, negotiated, profiles) && SameSlots(v, w)
    ensures SlotsKept(w, negotiated, profiles)
  {
    assert BoundSlots(v.bound) == BoundSlots(w.bound);
  }

  lemma FlagFlags(v: Video, track: string, on: bool, t: string)
    requires Has(v, track)
    ensures var w := Flag(v, track, on);
            && (Has(w, t) <==> Has(v, t))
            && (Attached(w, t) <==> if t == track then on else Attached(v, t))
            && (Watching(w, t) <==> if t == track then on else Watching(v, t))
  {
    PositionSame(Flag(v, track, on), v, t);
  }
}
