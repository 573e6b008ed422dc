/**
 * What holds of every run of peers and media plane: slots are conserved, and until the plane shuts down a
 * peer's `attached` flag is set exactly while its viewer is in the source.
 */
module VideoSafety {
  import opened Basics
  import opened MediaTypes
  import opened SourceModel
  import opened SourceInvariants
  import opened ServiceModel
  import opened VideoModel
  import opened VideoSystem

  predicate Shaped(sv: Service) {
    forall t :: t in sv.sources ==> Shape(sv.sources[t])
  }

  predicate AllAgreed(sys: System) {
    forall p :: p in sys.peers ==> Agreed(sys.peers[p].video, sys.profiles)
  }

  predicate InSource(sv: Service, p: nat, t: string) {
    t in sv.sources && Viewer(p, t) in sv.sources[t].viewers
  }

  /** Every viewer belongs to a known peer and is in the source of its own track. */
  ghost predicate Homed(sys: System) {
    forall t, v :: t in sys.service.sources && v in sys.service.sources[t].viewers ==>
      v.track == t && v.peer in sys.peers
  }

  ghost predicate Sound(sys: System) {
    Shaped(sys.service) && sys.profiles.Keys == sys.service.sources.Keys && AllAgreed(sys) && Homed(sys)
  }

  predicate CoupledAt(sys: System, p: nat, t: string)
    requires p in sys.peers
  {
    Attached(sys.peers[p].video, t) <==> InSource(sys.service, p, t)
  }

  /** `attached` exactly while the viewer is in the source. */
  ghost predicate Coupled(sys: System) {
    CoupledBut(sys, None)
  }

  /** The same, except for the one viewer whose attachment is still being made. */
  ghost predicate CoupledBut(sys: System, joining: Option<Viewer>) {
    && (forall p, t {:trigger CoupledAt(sys, p, t)} :: p in sys.peers && joining != Some(Viewer(p, t)) ==>
          CoupledAt(sys, p, t))
    && (joining.Some? && joining.value.peer in sys.peers ==>
          && InSource(sys.service, joining.value.peer, joining.value.track)
          && !Attached(sys.peers[joining.value.peer].video, joining.value.track))
  }

  /** A closed peer left no viewer behind. */
  ghost predicate Clean(sys: System) {
    CleanBut(sys, None)
  }

  /** The same, except for the one viewer whose attachment is still being made. */
  ghost predicate CleanBut(sys: System, joining: Option<Viewer>) {
    forall p, t :: p in sys.peers && sys.peers[p].closed && joining != Some(Viewer(p, t)) ==>
      !InSource(sys.service, p, t)
  }

  /** Who is in which source after a turn of the plane that is not refused. */
  predicate InSourceAfter(sv: Service, now: Time, input: Input, p: nat, t: string) {
    match input
    case Attach(track, viewer) => InSource(sv, p, t) || (t == track && viewer == Viewer(p, t))
    case Detach(track, viewer) => InSource(sv, p, t) && !(t == track && viewer == Viewer(p, t))
    case RequestKeyframe(_) => InSource(sv, p, t)
    case Shutdown => false
    case Callback(track, e) => InSource(sv, p, t) && !(t == track && Fails(sv.sources[t], now, e))
  }

  lemma ApplyInSource(sv: Service, now: Time, input: Input, p: nat, t: string)
    requires Shaped(sv) && Refusal(sv, Turn(now, input)).None?
    ensures InSource(Apply(sv, Turn(now, input)), p, t) <==> InSourceAfter(sv, now, input, p, t)
  {
    if t in sv.sources {
      if input.Shutdown? {
        ViewersStep(sv.sources[t], now, Event.Close, Viewer(p, t));
      } else if input.track == t {
        ViewersStep(sv.sources[t], now, SourceEvent(input), Viewer(p, t));
      }
    }
  }

  lemma ApplyShaped(sv: Service, now: Time, input: Input)
    requires Shaped(sv)
    ensures Shaped(Apply(sv, Turn(now, input))) && Apply(sv, Turn(now, input)).sources.Keys == sv.sources.Keys
    ensures Apply(sv, Turn(now, input)).closed == (sv.closed || input.Shutdown?)
  {
    if Refusal(sv, Turn(now, input)).None? {
      if input.Shutdown? {
        forall t | t in sv.sources ensures Shape(Step(sv.sources[t], now, Event.Close)) {
          ShapeStep(sv.sources[t], now, Event.Close);
        }
      } else {
        ShapeStep(sv.sources[input.track], now, SourceEvent(input));
      }
    }
  }

  /** A turn of the plane adds no viewer but the one being attached. */
  lemma ApplyHomed(sys: System, now: Time, input: Input)
    requires Shaped(sys.service) && Homed(sys)
    requires input.Attach? ==> input.viewer.track == input.track && input.viewer.peer in sys.peers
    ensures Homed(Tell(sys, now, input))
  {
    hide Step, Shape;
    var later := Tell(sys, now, input);
    if !Refused(sys, now, input) {
      forall t, v | t in later.service.sources && v in later.service.sources[t].viewers
        ensures v.track == t && v.peer in sys.peers
      {
        if input.Shutdown? {
          ViewersStep(sys.service.sources[t], now, Event.Close, v);
        } else if input.track == t {
          ViewersStep(sys.service.sources[t], now, SourceEvent(input), v);
        }
      }
    }
  }

  lemma TellSound(sys: System, now: Time, input: Input)
    requires Sound(sys)
    requires input.Attach? ==> input.viewer.track == input.track && input.viewer.peer in sys.peers
    ensures Sound(Tell(sys, now, input))
  {
    ApplyShaped(sys.service, now, input);
    ApplyHomed(sys, now, input);
  }

  lemma SetVideoSound(sys: System, p: nat, v: Video)
    requires Sound(sys) && p in sys.peers && Agreed(v, sys.profiles)
    ensures Sound(SetVideo(sys, p, v))
  {}

  /** Nobody joins a source, and the plane is as open as before. */
  ghost predicate Thinned(sv: Service, later: Service) {
    later.closed == sv.closed && forall q, t :: InSource(later, q, t) ==> InSource(sv, q, t)
  }

  /** Only the flags of one peer change, and they only drop. */
  ghost predicate Lowered(sys: System, later: System, p: nat) {
    && later.peers.Keys == sys.peers.Keys && later.profiles == sys.profiles && p in sys.peers
    && (forall q :: q in sys.peers && q != p ==> later.peers[q] == sys.peers[q])
    && later.peers[p].closed == sys.peers[p].closed && later.peers[p].negotiated == sys.peers[p].negotiated
    && (forall t :: Attached(later.peers[p].video, t) ==> Attached(sys.peers[p].video, t))
  }

  lemma LowerFlag(sys: System, p: nat, track: string)
    requires Sound(sys) && p in sys.peers && Has(sys.peers[p].video, track)
    ensures var later := SetVideo(sys, p, Flag(sys.peers[p].video, track, false));
            Sound(later) && Lowered(sys, later, p) && !Attached(later.peers[p].video, track)
  {
    var v := sys.peers[p].video;
    SetVideoSound(sys, p, Flag(v, track, false));
    forall t ensures Attached(Flag(v, track, false), t) <==> t != track && Attached(v, t) {
      FlagFlags(v, track, false, t);
    }
  }

  lemma TellDetach(sys: System, now: Time, input: Input)
    requires Sound(sys) && input.Detach?
    ensures Sound(Tell(sys, now, input)) && Thinned(sys.service, Tell(sys, now, input).service)
  {
    TellSound(sys, now, input);
    ApplyShaped(sys.service, now, input);
    if !Refused(sys, now, input) {
      forall q, t ensures InSource(Tell(sys, now, input).service, q, t) ==> InSource(sys.service, q, t) {
        ApplyInSource(sys.service, now, input, q, t);
      }
    }
  }

  lemma LetGoSound(sys: System, p: nat, track: string, now: Time)
    requires Sound(sys) && p in sys.peers && Has(sys.peers[p].video, track)
    ensures var later := LetGo(sys, p, track, now).0;
            && Sound(later) && Lowered(sys, later, p) && Thinned(sys.service, later.service)
            && !Attached(later.peers[p].video, track)
  {
    LowerFlag(sys, p, track);
    if At(sys.peers[p].video, track).attached {
      TellDetach(SetVideo(sys, p, Flag(sys.peers[p].video, track, false)), now, Detach(track, Viewer(p, track)));
    }
  }

  lemma LetGoPair(sys: System, p: nat, track: string, now: Time, q: nat, t: string)
    requires Sound(sys) && !sys.service.closed && p in sys.peers && Has(sys.peers[p].video, track)
    requires track in sys.service.sources && q in sys.peers
    ensures var (later, threw) := LetGo(sys, p, track, now);
            && !threw && q in later.peers
            && (Attached(later.peers[q].video, t) <==> Attached(sys.peers[q].video, t) && !(q == p && t == track))
            && (InSource(later.service, q, t) <==>
                  InSource(sys.service, q, t) && !(q == p && t == track && Attached(sys.peers[q].video, t)))
  {
    var v := sys.peers[p].video;
    FlagFlags(v, track, false, t);
    if At(v, track).attached { ApplyInSource(sys.service, now, Detach(track, Viewer(p, track)), q, t); }
  }

  /** The tracks of a kept peer are all configured. */
  lemma Configured(sys: System, p: nat, track: string)
    requires Sound(sys) && p in sys.peers && Has(sys.peers[p].video, track)
    ensures track in sys.service.sources &&
      (Watching(sys.peers[p].video, track) <==> Attached(sys.peers[p].video, track))
  {
    var v := sys.peers[p].video;
    assert Agreed(v, sys.profiles);
    assert v.bound[Position(v.bound, track)].track in sys.profiles;
  }

  lemma LetGoCoupled(sys: System, p: nat, track: string, now: Time, joining: Option<Viewer>)
    requires Sound(sys) && CoupledBut(sys, joining) && !sys.service.closed
    requires p in sys.peers && Has(sys.peers[p].video, track)
    ensures var (later, threw) := LetGo(sys, p, track, now); CoupledBut(later, joining) && !threw
  {
    var later := LetGo(sys, p, track, now).0;
    Configured(sys, p, track);
    LetGoPair(sys, p, track, now, p, track);
    forall q, t | q in later.peers
      ensures joining != Some(Viewer(q, t)) ==> CoupledAt(later, q, t)
      ensures joining == Some(Viewer(q, t)) ==> InSource(later.service, q, t) && !Attached(later.peers[q].video, t)
    {
      assert joining != Some(Viewer(q, t)) ==> CoupledAt(sys, q, t);
      LetGoPair(sys, p, track, now, q, t);
    }
    assert joining.Some? ==> joining == Some(Viewer(joining.value.peer, joining.value.track));
  }

  lemma LowerTwice(a: System, b: System, c: System, p: nat)
    requires Lowered(a, b, p) && Lowered(b, c, p) && Thinned(a.service, b.service) && Thinned(b.service, c.service)
    ensures Lowered(a, c, p) && Thinned(a.service, c.service)
  {}

  lemma LowerNothing(sys: System, p: nat)
    requires p in sys.peers
    ensures Lowered(sys, sys, p) && Thinned(sys.service, sys.service)
  {}

  /** One round of letting go: what the remaining rounds start from. */
  lemma Round(sys: System, p: nat, i: nat, now: Time, denied: Option<set<string>>) returns (next: System, threw: bool)
    requires Sound(sys) && p in sys.peers && i < |sys.peers[p].video.bound|
    ensures Sound(next) && Lowered(sys, next, p) && Thinned(sys.service, next.service)
    ensures SameSlots(sys.peers[p].video, next.peers[p].video)
    ensures LetGoFrom(sys, p, i, now, denied) == if threw then (next, true) else LetGoFrom(next, p, i + 1, now, denied)
    ensures denied.None? ==> !Attached(next.peers[p].video, sys.peers[p].video.bound[i].track)
  {
    var v := sys.peers[p].video;
    next, threw := sys, false;
    LowerNothing(sys, p);
    if Chosen(v.bound[i], denied) {
      BoundHas(v, i);
      LetGoSound(sys, p, v.bound[i].track, now);
      var result := LetGo(sys, p, v.bound[i].track, now);
      next, threw := result.0, result.1;
    }
  }

  /** What the last of several rounds leaves, relative to where they started. */
  ghost predicate LetOff(sys: System, later: System, p: nat) {
    Lowered(sys, later, p) && Thinned(sys.service, later.service)
  }

  lemma {:induction false} LetGoFromLowers(sys: System, p: nat, i: nat, now: Time, denied: Option<set<string>>)
    returns (later: System)
    requires Sound(sys) && p in sys.peers
    ensures later == LetGoFrom(sys, p, i, now, denied).0 && LetOff(sys, later, p)
    decreases |sys.peers[p].video.bound| - i
  {
    later := sys;
    if i < |sys.peers[p].video.bound| {
      var next, threw := Round(sys, p, i, now, denied);
      later := next;
      if !threw {
        later := LetGoFromLowers(next, p, i + 1, now, denied);
        LowerTwice(sys, next, later, p);
      }
    } else {
      LowerNothing(sys, p);
    }
  }

  lemma {:induction false} LetGoFromSound(sys: System, p: nat, i: nat, now: Time, denied: Option<set<string>>)
    requires Sound(sys) && p in sys.peers
    ensures Sound(LetGoFrom(sys, p, i, now, denied).0)
    decreases |sys.peers[p].video.bound| - i
  {
    if i < |sys.peers[p].video.bound| {
      var next, threw := Round(sys, p, i, now, denied);
      if !threw { LetGoFromSound(next, p, i + 1, now, denied); }
    }
  }

  /** One pair stays coupled, or stays joining. */
  predicate PairKept(sys: System, later: System, q: nat, t: string)
    requires q in sys.peers && q in later.peers
  {
    && (CoupledAt(sys, q, t) ==> CoupledAt(later, q, t))
    && (InSource(sys.service, q, t) && !Attached(sys.peers[q].video, t) ==>
          InSource(later.service, q, t) && !Attached(later.peers[q].video, t))
  }

  lemma PairRound(sys: System, p: nat, i: nat, now: Time, denied: Option<set<string>>, q: nat, t: string)
    returns (next: System)
    requires Sound(sys) && !sys.service.closed && p in sys.peers && i < |sys.peers[p].video.bound| && q in sys.peers
    ensures Sound(next) && !next.service.closed && next.peers.Keys == sys.peers.Keys
    ensures |next.peers[p].video.bound| == |sys.peers[p].video.bound| && PairKept(sys, next, q, t)
    ensures LetGoFrom(sys, p, i, now, denied) == LetGoFrom(next, p, i + 1, now, denied)
  {
    var v := sys.peers[p].video;
    next := sys;
    if Chosen(v.bound[i], denied) {
      BoundHas(v, i);
      Configured(sys, p, v.bound[i].track);
      LetGoSound(sys, p, v.bound[i].track, now);
      LetGoPair(sys, p, v.bound[i].track, now, q, t);
      next := LetGo(sys, p, v.bound[i].track, now).0;
    }
  }

  lemma PairTwice(a: System, b: System, c: System, q: nat, t: string)
    requires q in a.peers && q in b.peers && q in c.peers && PairKept(a, b, q, t) && PairKept(b, c, q, t)
    ensures PairKept(a, c, q, t)
  {}

  lemma LetGoFromEnd(sys: System, p: nat, i: nat, now: Time, denied: Option<set<string>>, q: nat, t: string)
    requires p in sys.peers && i >= |sys.peers[p].video.bound| && q in sys.peers
    ensures LetGoFrom(sys, p, i, now, denied) == (sys, false) && PairKept(sys, sys, q, t)
  {}

  lemma {:induction false} PairFrom(sys: System, p: nat, i: nat, now: Time, denied: Option<set<string>>, q: nat,
      t: string)
    returns (later: System)
    requires Sound(sys) && !sys.service.closed && p in sys.peers && q in sys.peers
    ensures LetGoFrom(sys, p, i, now, denied).0 == later && !LetGoFrom(sys, p, i, now, denied).1
    ensures q in later.peers && PairKept(sys, later, q, t)
    decreases |sys.peers[p].video.bound| - i
  {
    hide *;
    if i >= |sys.peers[p].video.bound| {
      LetGoFromEnd(sys, p, i, now, denied, q, t);
      later := sys;
    } else {
      var next := PairRound(sys, p, i, now, denied, q, t);
      later := PairFrom(next, p, i + 1, now, denied, q, t);
      PairTwice(sys, next, later, q, t);
    }
  }

  /** While the plane is up, letting go never throws and keeps the coupling. */
  lemma LetGoFromCoupled(sys: System, p: nat, i: nat, now: Time, denied: Option<set<string>>, joining: Option<Viewer>)
    requires Sound(sys) && CoupledBut(sys, joining) && !sys.service.closed && p in sys.peers
    ensures var (later, threw) := LetGoFrom(sys, p, i, now, denied); CoupledBut(later, joining) && !threw
  {
    var later := LetGoFrom(sys, p, i, now, denied).0;
    var same := PairFrom(sys, p, i, now, denied, p, "");
    forall q, t | q in later.peers
      ensures joining != Some(Viewer(q, t)) ==> CoupledAt(later, q, t)
      ensures joining == Some(Viewer(q, t)) ==> InSource(later.service, q, t) && !Attached(later.peers[q].video, t)
    {
      assert joining != Some(Viewer(q, t)) ==> CoupledAt(sys, q, t);
      var same := PairFrom(sys, p, i, now, denied, q, t);
    }
    assert joining.Some? ==> joining == Some(Viewer(joining.value.peer, joining.value.track));
  }

  lemma FreedRound(sys: System, next: System, p: nat, i: nat, t: string)
    requires Lowered(sys, next, p) && SameSlots(sys.peers[p].video, next.peers[p].video)
    requires i < |sys.peers[p].video.bound| && !Attached(next.peers[p].video, sys.peers[p].video.bound[i].track)
    requires Attached(next.peers[p].video, t) && Position(next.peers[p].video.bound, t) <= i
    ensures Attached(sys.peers[p].video, t) && Position(sys.peers[p].video.bound, t) < i
  {
    PositionSame(sys.peers[p].video, next.peers[p].video, t);
  }

  lemma {:induction false} LetGoFromFrees(sys: System, p: nat, i: nat, now: Time, t: string)
    requires Sound(sys) && p in sys.peers && !LetGoFrom(sys, p, i, now, None).1
    requires Attached(LetGoFrom(sys, p, i, now, None).0.peers[p].video, t)
    ensures Attached(sys.peers[p].video, t) && Position(sys.peers[p].video.bound, t) < i
    decreases |sys.peers[p].video.bound| - i
  {
    if i < |sys.peers[p].video.bound| {
      var next, threw := Round(sys, p, i, now, None);
      LetGoFromFrees(next, p, i + 1, now, t);
      FreedRound(sys, next, p, i, t);
    }
  }

  // ---- Closing a peer ----

  lemma ShutKeeps(sys: System, p: nat, joining: Option<Viewer>)
    requires Sound(sys) && p in sys.peers
    ensures Sound(Shut(sys, p)) && (CoupledBut(sys, joining) ==> CoupledBut(Shut(sys, p), joining))
  {
    var shut := Shut(sys, p);
    forall q, t | CoupledBut(sys, joining) && q in shut.peers && joining != Some(Viewer(q, t))
      ensures CoupledAt(shut, q, t)
    {
      assert CoupledAt(sys, q, t);
    }
  }

  lemma CloseSound(sys: System, p: nat, now: Time)
    requires Sound(sys) && p in sys.peers
    ensures Sound(Part(sys, p, now)) && Thinned(sys.service, Part(sys, p, now).service)
    ensures Part(sys, p, now).peers[p].closed
    ensures forall q :: q in sys.peers && q != p ==> Part(sys, p, now).peers[q] == sys.peers[q]
  {
    if !sys.peers[p].closed {
      ShutKeeps(sys, p, None);
      LetGoFromSound(Shut(sys, p), p, 0, now, None);
      var later := LetGoFromLowers(Shut(sys, p), p, 0, now, None);
    }
  }

  /** Closing keeps the coupling and, unless an attachment is being made meanwhile, leaves no viewer behind. */
  lemma CloseCoupled(sys: System, p: nat, now: Time, joining: Option<Viewer>)
    requires Sound(sys) && CoupledBut(sys, joining) && !sys.service.closed && p in sys.peers
    ensures CoupledBut(Part(sys, p, now), joining)
  {
    if !sys.peers[p].closed {
      ShutKeeps(sys, p, joining);
      LetGoFromCoupled(Shut(sys, p), p, 0, now, None, joining);
    }
  }

  lemma CloseClean(sys: System, p: nat, now: Time, joining: Option<Viewer>)
    requires Sound(sys) && CoupledBut(sys, joining) && CleanBut(sys, joining) && !sys.service.closed && p in sys.peers
    ensures CleanBut(Part(sys, p, now), joining)
  {
    var later := Part(sys, p, now);
    CloseSound(sys, p, now);
    CloseCoupled(sys, p, now, joining);
    forall q, t | q in later.peers && later.peers[q].closed && joining != Some(Viewer(q, t))
      ensures !InSource(later.service, q, t)
    {
      assert CoupledAt(later, q, t);
      if q == p && !sys.peers[p].closed && Attached(later.peers[p].video, t) {
        ShutKeeps(sys, p, joining);
        LetGoFromCoupled(Shut(sys, p), p, 0, now, None, joining);
        LetGoFromFrees(Shut(sys, p), p, 0, now, t);
      }
    }
  }

  // ---- Turns of the plane ----

  predicate Failing(sys: System, now: Time, input: Input) {
    !Refused(sys, now, input) && input.Callback? && Fails(sys.service.sources[input.track], now, input.event)
  }

  lemma DroppedAgreed(peer: Peer, p: nat, track: string, told: seq<Viewer>, profiles: map<string, nat>)
    requires Agreed(peer.video, profiles)
    ensures Agreed(Dropped(peer, p, track, told).video, profiles)
  {}

  lemma DropSound(sys: System, peers: map<nat, Peer>, track: string, told: seq<Viewer>)
    requires Sound(sys)
    requires peers == map p | p in sys.peers :: Dropped(sys.peers[p], p, track, told)
    ensures Sound(sys.(peers := peers))
  {
    forall p | p in peers ensures Agreed(peers[p].video, sys.profiles) {
      DroppedAgreed(sys.peers[p], p, track, told, sys.profiles);
    }
  }

  lemma DriveSound(sys: System, now: Time, input: Input)
    requires Sound(sys) && !input.Attach? && !input.Detach?
    ensures Sound(Drive(sys, now, input))
    ensures Drive(sys, now, input).service.closed == (sys.service.closed || input.Shutdown?)
  {
    TellSound(sys, now, input);
    ApplyShaped(sys.service, now, input);
    if Failing(sys, now, input) {
      DropSound(Tell(sys, now, input), Drive(sys, now, input).peers, input.track,
        sys.service.sources[input.track].viewers);
    }
  }

  lemma DrivePair(sys: System, now: Time, input: Input, q: nat, t: string)
    requires Sound(sys) && !input.Attach? && !input.Detach? && !input.Shutdown? && q in sys.peers
    ensures var later := Drive(sys, now, input);
            var fails := Failing(sys, now, input) && t == input.track;
            && q in later.peers && later.peers[q].closed == sys.peers[q].closed
            && (InSource(later.service, q, t) <==> InSource(sys.service, q, t) && !fails)
            && (Attached(later.peers[q].video, t) <==>
                  Attached(sys.peers[q].video, t) && !(fails && InSource(sys.service, q, t)))
  {
    if !Refused(sys, now, input) { ApplyInSource(sys.service, now, input, q, t); }
    if Failing(sys, now, input) && Has(sys.peers[q].video, input.track) {
      FlagFlags(sys.peers[q].video, input.track, false, t);
    }
  }

  /** A turn of the plane keeps the coupling: a failure clears a flag exactly where it lets a viewer go. */
  lemma DriveCoupled(sys: System, now: Time, input: Input)
    requires Sound(sys) && Coupled(sys) && !input.Attach? && !input.Detach? && !input.Shutdown?
    ensures Coupled(Drive(sys, now, input)) && (Clean(sys) ==> Clean(Drive(sys, now, input)))
  {
    var later := Drive(sys, now, input);
    forall q, t | q in later.peers
      ensures CoupledAt(later, q, t) && (later.peers[q].closed && Clean(sys) ==> !InSource(later.service, q, t))
    {
      assert CoupledAt(sys, q, t);
      DrivePair(sys, now, input, q, t);
    }
  }

  // ---- Attaching ----

  lemma JoinTold(sys: System, p: nat, track: string, now: Time)
    requires Sound(sys) && Coupled(sys) && !sys.service.closed && p in sys.peers
    requires !Attached(sys.peers[p].video, track) && !Refused(sys, now, Attach(track, Viewer(p, track)))
    ensures var told := Tell(sys, now, Attach(track, Viewer(p, track)));
            && Sound(told) && CoupledBut(told, Some(Viewer(p, track))) && !told.service.closed
            && (Clean(sys) && !sys.peers[p].closed ==> Clean(told))
  {
    var input := Attach(track, Viewer(p, track));
    var told := Tell(sys, now, input);
    TellSound(sys, now, input);
    ApplyShaped(sys.service, now, input);
    ApplyInSource(sys.service, now, input, p, track);
    forall q, t | q in told.peers && Viewer(q, t) != Viewer(p, track)
      ensures CoupledAt(told, q, t) && (InSource(told.service, q, t) <==> InSource(sys.service, q, t))
    {
      assert CoupledAt(sys, q, t);
      ApplyInSource(sys.service, now, input, q, t);
    }
  }

  /** Marking the joined track attached completes the coupling if its viewer is in the source, and breaks it if not. */
  lemma RaiseFlag(sys: System, p: nat, track: string)
    requires Sound(sys) && p in sys.peers && Has(sys.peers[p].video, track)
    requires forall q, t :: q in sys.peers && Viewer(q, t) != Viewer(p, track) ==> CoupledAt(sys, q, t)
    ensures var later := SetVideo(sys, p, Flag(sys.peers[p].video, track, true));
            && Sound(later) && (Coupled(later) <==> InSource(sys.service, p, track))
            && (Clean(later) <==> Clean(sys))
  {
    var later := SetVideo(sys, p, Flag(sys.peers[p].video, track, true));
    SetVideoSound(sys, p, Flag(sys.peers[p].video, track, true));
    FlagFlags(sys.peers[p].video, track, true, track);
    forall q, t | q in later.peers && Viewer(q, t) != Viewer(p, track) ensures CoupledAt(later, q, t) {
      assert CoupledAt(sys, q, t);
      FlagFlags(sys.peers[p].video, track, true, t);
    }
    assert InSource(sys.service, p, track) <==> CoupledAt(later, p, track);
    forall q, t | q in sys.peers
      ensures later.peers[q].closed == sys.peers[q].closed
      ensures InSource(later.service, q, t) == InSource(sys.service, q, t) {}
    CleanSame(sys, later);
    CleanSame(later, sys);
  }

  lemma CleanSame(sys: System, later: System)
    requires sys.peers.Keys == later.peers.Keys && sys.service == later.service
    requires forall q :: q in sys.peers ==> later.peers[q].closed == sys.peers[q].closed
    ensures Clean(sys) ==> Clean(later)
  {}

  /** An attachment creates its encoder in the same turn exactly when the source is not running. */
  lemma FreshExactly(sys: System, now: Time, track: string, viewer: Viewer)
    requires Shaped(sys.service) && !Refused(sys, now, Attach(track, viewer))
    ensures FreshEncoder(sys, Tell(sys, now, Attach(track, viewer)), track) <==> !Running(sys.service.sources[track])
  {
    var s := sys.service.sources[track];
    JoinedViewers(s, viewer);
    if !Running(s) { assert Wanted(AnnounceStart(Joined(s, viewer), now)); }
  }

  // ---- What an attachment provokes ----

  /** No source has another encoder, or another number of them, than before. */
  predicate SameEncoders(sv: Service, later: Service) {
    && later.sources.Keys == sv.sources.Keys
    && (forall t :: t in sv.sources ==>
          later.sources[t].created == sv.sources[t].created && later.sources[t].current == sv.sources[t].current)
  }

  lemma LetGoEncoders(sys: System, p: nat, track: string, now: Time)
    requires p in sys.peers && Has(sys.peers[p].video, track)
    ensures SameEncoders(sys.service, LetGo(sys, p, track, now).0.service)
  {}

  lemma SameEncodersHere(sv: Service)
    ensures SameEncoders(sv, sv)
  {}

  lemma SameEncodersTwice(a: Service, b: Service, c: Service)
    requires SameEncoders(a, b) && SameEncoders(b, c)
    ensures SameEncoders(a, c)
  {}

  lemma {:induction false} LetGoFromEncoders(sys: System, p: nat, i: nat, now: Time, denied: Option<set<string>>)
    requires p in sys.peers
    ensures SameEncoders(sys.service, LetGoFrom(sys, p, i, now, denied).0.service)
    decreases |sys.peers[p].video.bound| - i
  {
    hide LetGo, Chosen, SameEncoders;
    var v := sys.peers[p].video;
    SameEncodersHere(sys.service);
    if i < |v.bound| && !Chosen(v.bound[i], denied) {
      LetGoFromEncoders(sys, p, i + 1, now, denied);
    } else if i < |v.bound| {
      BoundHas(v, i);
      LetGoEncoders(sys, p, v.bound[i].track, now);
      var next := LetGo(sys, p, v.bound[i].track, now).0;
      LetGoFromEncoders(next, p, i + 1, now, denied);
      SameEncodersTwice(sys.service, next.service, LetGoFrom(next, p, i + 1, now, denied).0.service);
    }
  }

  /** Whose attachment is still being made: nobody's once the encoder failed and let its viewer go. */
  function Joiner(p: nat, track: string, failed: bool): Option<Viewer> {
    if failed then None else Some(Viewer(p, track))
  }

  /** The state between an attachment's viewer joining its source and the flag that records it. */
  ghost predicate MidJoin(before: System, sys: System, p: nat, track: string, failed: bool) {
    && Sound(sys) && !sys.service.closed && p in sys.peers && track in sys.service.sources
    && CoupledBut(sys, Joiner(p, track, failed)) && CleanBut(sys, Joiner(p, track, failed))
    && !Attached(sys.peers[p].video, track) && (InSource(sys.service, p, track) <==> !failed)
    && (FreshEncoder(before, sys, track) <==> !failed && FreshFor(before, track))
  }

  /** An attachment to this track starts an encoder. */
  predicate FreshFor(before: System, track: string) {
    track in before.service.sources && !Running(before.service.sources[track])
  }

  lemma PacketMidJoin(before: System, sys: System, p: nat, track: string, failed: bool, timestamp: Uint32, now: Time)
    requires MidJoin(before, sys, p, track, failed) && FreshEncoder(before, sys, track)
    ensures var e := Packet(sys.service.sources[track].current.value, timestamp);
            MidJoin(before, Report(sys, track, now, e), p, track, failed)
            && Report(sys, track, now, e).peers == sys.peers
  {
    hide Step, Shape;
    var input := Callback(track, Packet(sys.service.sources[track].current.value, timestamp));
    var after := Drive(sys, now, input);
    DriveSound(sys, now, input);
    forall q, t | q in sys.peers
      ensures InSource(after.service, q, t) == InSource(sys.service, q, t)
      ensures CoupledAt(after, q, t) == CoupledAt(sys, q, t)
    { ApplyInSource(sys.service, now, input, q, t); }
    PacketKeepsEncoder(sys.service.sources[track], now, input.event);
  }

  lemma PacketKeepsEncoder(s: Source, now: Time, e: Event)
    requires e.Packet?
    ensures Step(s, now, e).current == s.current && Step(s, now, e).created == s.created
  {}

  lemma RevokeMidJoin(before: System, sys: System, p: nat, track: string, failed: bool, denied: set<string>, now: Time)
    requires MidJoin(before, sys, p, track, failed)
    ensures var after := LetGoFrom(sys, p, 0, now, Some(denied)).0;
            MidJoin(before, after, p, track, failed) && after.peers[p].closed == sys.peers[p].closed
  {
    hide LetGoFrom, Shape, AllAgreed, Homed;
    LetGoFromSound(sys, p, 0, now, Some(denied));
    LetGoFromCoupled(sys, p, 0, now, Some(denied), Joiner(p, track, failed));
    LetGoFromEncoders(sys, p, 0, now, Some(denied));
    var later := LetGoFromLowers(sys, p, 0, now, Some(denied));
  }

  lemma CloseMidJoin(before: System, sys: System, p: nat, track: string, failed: bool, now: Time)
    requires MidJoin(before, sys, p, track, failed)
    ensures var after := Part(sys, p, now); MidJoin(before, after, p, track, failed) && after.peers[p].closed
  {
    hide LetGoFrom, Shape, AllAgreed, Homed;
    CloseSound(sys, p, now);
    CloseCoupled(sys, p, now, Joiner(p, track, failed));
    CloseClean(sys, p, now, Joiner(p, track, failed));
    if !sys.peers[p].closed {
      LetGoFromEncoders(Shut(sys, p), p, 0, now, None);
      ShutKeeps(sys, p, None);
      var later := LetGoFromLowers(Shut(sys, p), p, 0, now, None);
    }
  }

  /** The fresh encoder fails while its first viewer is still joining: that viewer is let go again. */
  lemma FailMidJoin(before: System, sys: System, p: nat, track: string, now: Time)
    requires MidJoin(before, sys, p, track, false) && FreshEncoder(before, sys, track)
    ensures var after := Report(sys, track, now, EncoderFails(sys.service.sources[track].current.value));
            MidJoin(before, after, p, track, true) && after.peers[p].closed == sys.peers[p].closed
  {
    hide Step, Shape;
    var input := Callback(track, EncoderFails(sys.service.sources[track].current.value));
    var after := Drive(sys, now, input);
    DriveSound(sys, now, input);
    assert Failing(sys, now, input);
    DrivePair(sys, now, input, p, track);
    forall q, t | q in after.peers
      ensures CoupledAt(after, q, t) && (after.peers[q].closed ==> !InSource(after.service, q, t))
    {
      if Viewer(q, t) != Viewer(p, track) { assert CoupledAt(sys, q, t); }
      DrivePair(sys, now, input, q, t);
    }
    FailureDropsEncoder(sys.service.sources[track], now, input.event);
  }

  lemma FailureDropsEncoder(s: Source, now: Time, e: Event)
    requires e.EncoderFails? && s.current == Some(e.encoder)
    ensures Step(s, now, e).current.None?
  {}

  lemma {:induction false} ProvokeKeeps(
      before: System, sys: System, p: nat, track: string, failed: bool, during: seq<Provocation>, now: Time)
    requires MidJoin(before, sys, p, track, failed)
    ensures var after := Provoke(before, sys, p, track, during, now);
            && MidJoin(before, after, p, track, failed || (FailsEncoder in during && FreshFor(before, track)))
            && after.peers[p].closed == (sys.peers[p].closed || ClosesRouter in during)
    decreases |during|
  {
    hide MidJoin, FreshEncoder, FreshFor, Report, LetGoFrom, Part;
    if during != [] {
      var next, fails := ProvokeOneKeeps(before, sys, p, track, failed, during[0], now);
      ProvokeKeeps(before, next, p, track, fails, during[1..], now);
    }
  }

  lemma ProvokeOneKeeps(before: System, sys: System, p: nat, track: string, failed: bool, x: Provocation, now: Time)
    returns (next: System, fails: bool)
    requires MidJoin(before, sys, p, track, failed)
    ensures next == ProvokeOne(before, sys, p, track, x, now) && p in next.peers
    ensures fails == (failed || (x == FailsEncoder && FreshFor(before, track)))
    ensures MidJoin(before, next, p, track, fails)
    ensures next.peers[p].closed == (sys.peers[p].closed || x == ClosesRouter)
  {
    hide Report, LetGoFrom, Part, Sound, CoupledBut, CleanBut, FreshEncoder, FreshFor;
    next, fails := ProvokeOne(before, sys, p, track, x, now), failed || (x == FailsEncoder && FreshFor(before, track));
    match x
    case Delivers(timestamp) =>
      if FreshEncoder(before, sys, track) { PacketMidJoin(before, sys, p, track, failed, timestamp, now); }
    case Revokes(denied) => if !sys.peers[p].closed { RevokeMidJoin(before, sys, p, track, failed, denied, now); }
    case ClosesRouter => CloseMidJoin(before, sys, p, track, failed, now);
    case FailsEncoder => if FreshEncoder(before, sys, track) { FailMidJoin(before, sys, p, track, now); }
  }

  /** An attachment accepted by its source, before anything it provokes. */
  lemma ToldMidJoin(sys: System, p: nat, track: string, now: Time)
    requires Sound(sys) && Coupled(sys) && Clean(sys) && !sys.service.closed && Serving(sys, p)
    requires !Attached(sys.peers[p].video, track) && !Refused(sys, now, Attach(track, Viewer(p, track)))
    ensures MidJoin(sys, Tell(sys, now, Attach(track, Viewer(p, track))), p, track, false)
  {
    hide Shape, Step;
    JoinTold(sys, p, track, now);
    FreshExactly(sys, now, track, Viewer(p, track));
  }

  /** Up to the marking: what the attachment provoked while it was being made. */
  lemma Provoked(sys: System, p: nat, track: string, during: seq<Provocation>, now: Time) returns (after: System)
    requires Sound(sys) && Coupled(sys) && Clean(sys) && !sys.service.closed && Serving(sys, p)
    requires Has(sys.peers[p].video, track) && !Attached(sys.peers[p].video, track)
    requires !Refused(sys, now, Attach(track, Viewer(p, track)))
    ensures Framed(sys, after) && Has(after.peers[p].video, track)
    ensures Join(sys, p, track, during, now) == SetVideo(after, p, Flag(after.peers[p].video, track, true))
    ensures MidJoin(sys, after, p, track, FailsEncoder in during && FreshFor(sys, track))
    ensures after.peers[p].closed <==> ClosesRouter in during
  {
    hide Sound, CoupledBut, CleanBut, Provoke, Apply, MidJoin;
    var told := Tell(sys, now, Attach(track, Viewer(p, track)));
    ToldMidJoin(sys, p, track, now);
    ProvokeKeeps(sys, told, p, track, false, during, now);
    after := Provoke(sys, told, p, track, during, now);
    PositionSame(sys.peers[p].video, after.peers[p].video, track);
  }

  /**
   * After the provocations: the flag is right unless the encoder failed, and a closed peer keeps a viewer
   * unless it did.
   */
  lemma MidJoinEnds(before: System, sys: System, p: nat, track: string, failed: bool)
    requires MidJoin(before, sys, p, track, failed) && Has(sys.peers[p].video, track)
    ensures var later := SetVideo(sys, p, Flag(sys.peers[p].video, track, true));
            && Sound(later) && !later.service.closed
            && (Coupled(later) <==> !failed) && (Clean(later) <==> failed || !sys.peers[p].closed)
  {
    hide Sound, FreshEncoder, FreshFor;
    RaiseFlag(sys, p, track);
    assert Clean(sys) <==> failed || !sys.peers[p].closed by {
      if !failed && sys.peers[p].closed { assert InSource(sys.service, p, track); }
    }
  }

  /** A subscription that gets as far as attaching a viewer. */
  predicate Attaches(sys: System, move: Move) {
    && move.act.Subscribe? && Serving(sys, move.act.peer) && move.act.granted && move.act.track in sys.profiles
    && Bind(sys.peers[move.act.peer].video, move.act.track, sys.profiles[move.act.track]).Ok?
    && !Watching(sys.peers[move.act.peer].video, move.act.track)
    && !Refused(sys, move.at, Attach(move.act.track, Viewer(move.act.peer, move.act.track)))
  }

  /** The encoder the subscription starts fails before the attachment returns. */
  predicate FailsInside(sys: System, move: Move) {
    Attaches(sys, move) && FailsEncoder in move.act.during && FreshFor(sys, move.act.track)
  }

  /** A notification of the attachment closes the router before the attachment returns, and the viewer stays. */
  predicate ClosesInside(sys: System, move: Move) {
    Attaches(sys, move) && ClosesRouter in move.act.during && !FailsInside(sys, move)
  }

  lemma BindSound(sys: System, p: nat, track: string)
    requires Sound(sys) && p in sys.peers && track in sys.profiles
    requires Bind(sys.peers[p].video, track, sys.profiles[track]).Ok?
    ensures var v := sys.peers[p].video;
            var w := Bind(v, track, sys.profiles[track]).value;
            var ready := SetVideo(sys, p, w);
            && Sound(ready)
            && (Attached(w, track) <==> Attached(v, track)) && (Watching(w, track) <==> Watching(v, track))
            && (Coupled(sys) ==> Coupled(ready)) && (Clean(sys) ==> Clean(ready))
  {
    var v := sys.peers[p].video;
    var w := Bind(v, track, sys.profiles[track]).value;
    var ready := SetVideo(sys, p, w);
    BindFlags(v, track, sys.profiles[track], track);
    SetVideoSound(sys, p, w);
    forall q, t | Coupled(sys) && q in ready.peers ensures CoupledAt(ready, q, t) {
      assert CoupledAt(sys, q, t);
      BindFlags(v, track, sys.profiles[track], t);
    }
    CleanSame(sys, ready);
  }

  /** Where a subscription stands once its slot is bound, and whether it goes on to attach. */
  lemma Bound(sys: System, p: nat, track: string, during: seq<Provocation>, now: Time)
    returns (ready: System, joins: bool)
    requires Sound(sys) && Coupled(sys) && Clean(sys) && !sys.service.closed && Serving(sys, p) && track in sys.profiles
    ensures Sound(ready) && Coupled(ready) && Clean(ready) && !ready.service.closed && Serving(ready, p)
    ensures ready.service == sys.service
    ensures joins <==> Attaches(sys, Move(now, Subscribe(p, track, true, during)))
    ensures joins ==>
      track in sys.service.sources && Has(ready.peers[p].video, track) && !Attached(ready.peers[p].video, track)
    ensures joins ==> !Refused(ready, now, Attach(track, Viewer(p, track)))
    ensures Watch(sys, p, track, during, now) == if joins then Join(ready, p, track, during, now) else ready
  {
    var bound := Bind(sys.peers[p].video, track, sys.profiles[track]);
    ready, joins := sys, false;
    if bound.Ok? {
      BindSound(sys, p, track);
      ready := SetVideo(sys, p, bound.value);
      Configured(ready, p, track);
      joins := !Watching(bound.value, track) && !Refused(ready, now, Attach(track, Viewer(p, track)));
    }
  }

  lemma WatchStep(sys: System, p: nat, track: string, during: seq<Provocation>, now: Time)
    requires Sound(sys) && Coupled(sys) && Clean(sys) && !sys.service.closed && Serving(sys, p) && track in sys.profiles
    ensures var move := Move(now, Subscribe(p, track, true, during));
            var later := Watch(sys, p, track, during, now);
            && Sound(later) && !later.service.closed
            && (Coupled(later) <==> !FailsInside(sys, move)) && (Clean(later) <==> !ClosesInside(sys, move))
  {
    hide Bind, Sound, CoupledBut, CleanBut, Join, MidJoin, Watch;
    var ready, joins := Bound(sys, p, track, during, now);
    if joins {
      var after := Provoked(ready, p, track, during, now);
      MidJoinEnds(ready, after, p, track, FailsEncoder in during && FreshFor(ready, track));
    }
  }

  // ---- Runs ----

  predicate ShutsDown(move: Move) {
    move.act == Plane(Shutdown)
  }

  lemma LeavingStep(sys: System, p: nat, mid: string, now: Time)
    requires Sound(sys) && Coupled(sys) && Clean(sys) && !sys.service.closed && Serving(sys, p)
    ensures var later := Leaving(sys, p, mid, now);
            Sound(later) && Coupled(later) && Clean(later) && !later.service.closed
  {
    var v := sys.peers[p].video;
    var at := OnMid(v.bound, mid);
    if at < |v.bound| {
      BoundHas(v, at);
      LetGoSound(sys, p, v.bound[at].track, now);
      LetGoCoupled(sys, p, v.bound[at].track, now, None);
    }
  }

  lemma RevokeStep(sys: System, p: nat, denied: set<string>, now: Time)
    requires Sound(sys) && Coupled(sys) && Clean(sys) && !sys.service.closed && Serving(sys, p)
    ensures var later := LetGoFrom(sys, p, 0, now, Some(denied)).0;
            Sound(later) && Coupled(later) && Clean(later) && !later.service.closed
  {
    LetGoFromSound(sys, p, 0, now, Some(denied));
    LetGoFromCoupled(sys, p, 0, now, Some(denied), None);
    var later := LetGoFromLowers(sys, p, 0, now, Some(denied));
  }

  lemma OpenStep(sys: System, p: nat, slots: seq<Slot>)
    requires Sound(sys) && Coupled(sys) && Clean(sys) && p !in sys.peers
    ensures var later := sys.(peers := sys.peers[p := Peer(slots, VideoModel.Initial(slots), false)]);
            Sound(later) && Coupled(later) && Clean(later)
  {
    var later := sys.(peers := sys.peers[p := Peer(slots, VideoModel.Initial(slots), false)]);
    forall q, t | q in later.peers ensures CoupledAt(later, q, t) {
      if q != p { assert CoupledAt(sys, q, t); }
    }
  }

  /**
   * Until the plane shuts down, a turn keeps `attached` equal to the source's viewer set exactly when it
   * does not fail an encoder inside the attachment that starts it, and leaves no viewer of a closed peer
   * exactly when it does not close a router inside its own attachment.
   */
  lemma PerformStep(sys: System, move: Move)
    requires Sound(sys) && Coupled(sys) && Clean(sys) && !sys.service.closed && !ShutsDown(move)
    ensures var later := Perform(sys, move);
            && Sound(later)
            && (Coupled(later) <==> !FailsInside(sys, move)) && (Clean(later) <==> !ClosesInside(sys, move))
  {
    hide Sound, CoupledBut, LetGoFrom, Drive, Part, Leaving, Watch, FreshFor, Step;
    match move.act
    case Open(p, slots) => if p !in sys.peers { OpenStep(sys, p, slots); }
    case Subscribe(p, track, granted, during) =>
      if Serving(sys, p) && granted && track in sys.profiles {
        assert move == Move(move.at, Subscribe(p, track, true, during));
        WatchStep(sys, p, track, during, move.at);
      }
    case Unsubscribe(p, mid) => if Serving(sys, p) { LeavingStep(sys, p, mid, move.at); }
    case Revoke(p, denied) => if Serving(sys, p) { RevokeStep(sys, p, denied, move.at); }
    case Leave(p) =>
      if p in sys.peers {
        CloseSound(sys, p, move.at);
        CloseCoupled(sys, p, move.at, None);
        CloseClean(sys, p, move.at, None);
      }
    case Plane(input) =>
      if !input.Attach? && !input.Detach? {
        DriveSound(sys, move.at, input);
        DriveCoupled(sys, move.at, input);
      }
  }

  lemma PerformOpen(sys: System, move: Move)
    requires Sound(sys) && Coupled(sys) && Clean(sys) && !sys.service.closed && !ShutsDown(move)
    ensures !Perform(sys, move).service.closed
  {
    match move.act
    case Open(p, slots) =>
    case Subscribe(p, track, granted, during) =>
      if Serving(sys, p) && granted && track in sys.profiles { WatchStep(sys, p, track, during, move.at); }
    case Unsubscribe(p, mid) => if Serving(sys, p) { LeavingStep(sys, p, mid, move.at); }
    case Revoke(p, denied) => if Serving(sys, p) { RevokeStep(sys, p, denied, move.at); }
    case Leave(p) => if p in sys.peers { CloseSound(sys, p, move.at); }
    case Plane(input) => if !input.Attach? && !input.Detach? { DriveSound(sys, move.at, input); }
  }

  /** No turn shuts the plane down or disturbs an attachment being made. */
  predicate Undisturbed(sys: System, moves: seq<Move>)
    decreases |moves|
  {
    moves != [] ==>
      && !ShutsDown(moves[0]) && !FailsInside(sys, moves[0]) && !ClosesInside(sys, moves[0])
      && Undisturbed(Perform(sys, moves[0]), moves[1..])
  }

  lemma {:induction false} RunCoupled(sys: System, moves: seq<Move>)
    requires Sound(sys) && Coupled(sys) && Clean(sys) && !sys.service.closed && Undisturbed(sys, moves)
    ensures Coupled(Course(sys, moves)) && Clean(Course(sys, moves))
    decreases |moves|
  {
    if moves != [] {
      PerformStep(sys, moves[0]);
      PerformOpen(sys, moves[0]);
      RunCoupled(Perform(sys, moves[0]), moves[1..]);
    }
  }

  lemma StartSound(settings: Settings, framerates: map<string, Positive>, maxPipelines: nat, profiles: map<string, nat>)
    requires profiles.Keys == framerates.Keys
    ensures var sys := Start(settings, framerates, maxPipelines, profiles);
            Sound(sys) && Coupled(sys) && Clean(sys) && !sys.service.closed
  {}

  /** On every undisturbed run a track is attached exactly while its viewer is in the source; closed peers have none. */
  lemma AttachedMeansViewer(settings: Settings, framerates: map<string, Positive>, maxPipelines: nat,
                            profiles: map<string, nat>, moves: seq<Move>, p: nat, t: string)
    requires profiles.Keys == framerates.Keys
    requires Undisturbed(Start(settings, framerates, maxPipelines, profiles), moves)
    ensures var sys := Course(Start(settings, framerates, maxPipelines, profiles), moves);
            p in sys.peers ==>
              && (Attached(sys.peers[p].video, t) <==> InSource(sys.service, p, t))
              && (sys.peers[p].closed ==> !InSource(sys.service, p, t))
  {
    var sys := Start(settings, framerates, maxPipelines, profiles);
    StartSound(settings, framerates, maxPipelines, profiles);
    RunCoupled(sys, moves);
    if p in Course(sys, moves).peers { assert CoupledAt(Course(sys, moves), p, t); }
  }

  // ---- Slots ----

  ghost predicate Slotted(sys: System, p: nat) {
    p in sys.peers ==> SlotsKept(sys.peers[p].video, sys.peers[p].negotiated, sys.profiles)
  }

  ghost predicate SlotsStand(sys: System, later: System, p: nat) {
    p in sys.peers ==>
      && p in later.peers && later.peers[p].negotiated == sys.peers[p].negotiated
      && Permanent(sys.peers[p].video, later.peers[p].video)
  }

  lemma FramedSlots(sys: System, later: System, p: nat)
    requires Slotted(sys, p) && Framed(sys, later)
    ensures Slotted(later, p) && SlotsStand(sys, later, p)
  {
    if p in sys.peers {
      SameSlotsKeep(sys.peers[p].video, later.peers[p].video, sys.peers[p].negotiated, sys.profiles);
    }
  }

  lemma BindSlotted(sys: System, p: nat, track: string, q: nat)
    requires p in sys.peers && track in sys.profiles && Slotted(sys, q)
    requires Bind(sys.peers[p].video, track, sys.profiles[track]).Ok?
    ensures var ready := SetVideo(sys, p, Bind(sys.peers[p].video, track, sys.profiles[track]).value);
            Slotted(ready, q) && SlotsStand(sys, ready, q)
  {
    if q == p { BindKeeps(sys.peers[p].video, track, sys.profiles[track], sys.peers[p].negotiated, sys.profiles); }
  }

  lemma WatchSlots(sys: System, p: nat, track: string, during: seq<Provocation>, now: Time, q: nat)
    requires Serving(sys, p) && track in sys.profiles && Slotted(sys, q)
    ensures var later := Watch(sys, p, track, during, now); Slotted(later, q) && SlotsStand(sys, later, q)
  {
    var bound := Bind(sys.peers[p].video, track, sys.profiles[track]);
    var later := Watch(sys, p, track, during, now);
    if bound.Ok? {
      var ready := SetVideo(sys, p, bound.value);
      BindSlotted(sys, p, track, q);
      assert Framed(ready, later);
      FramedSlots(ready, later, q);
      StandTwice(sys, ready, later, q);
    }
  }

  lemma StandTwice(a: System, b: System, c: System, q: nat)
    requires SlotsStand(a, b, q) && SlotsStand(b, c, q)
    ensures SlotsStand(a, c, q)
  {}

  /** Every turn, whatever happens in it, keeps a peer's slots and the bindings already made. */
  lemma PerformSlots(sys: System, move: Move, q: nat)
    requires Slotted(sys, q)
    ensures Slotted(Perform(sys, move), q) && SlotsStand(sys, Perform(sys, move), q)
  {
    match move.act
    case Open(p, slots) =>
    case Subscribe(p, track, granted, during) =>
      if Serving(sys, p) && granted && track in sys.profiles { WatchSlots(sys, p, track, during, move.at, q); }
    case _ => FramedSlots(sys, Perform(sys, move), q);
  }

  /**
   * On every run: free plus bound slots are the negotiated ones, tracks are bound one to one at their own
   * profile, and a binding, once made, stands.
   */
  lemma {:induction false} SlotsForEver(sys: System, moves: seq<Move>, q: nat)
    requires Slotted(sys, q)
    ensures Slotted(Course(sys, moves), q) && SlotsStand(sys, Course(sys, moves), q)
    decreases |moves|
  {
    if moves != [] {
      PerformSlots(sys, moves[0], q);
      SlotsForEver(Perform(sys, moves[0]), moves[1..], q);
    }
  }
}
