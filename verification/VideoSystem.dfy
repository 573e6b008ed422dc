/** Peers with their video slots, coupled to the media plane they watch. */
module VideoSystem {
  import opened Basics
  import opened MediaTypes
  import opened SourceModel
  import opened SourceInvariants
  import opened ServiceModel
  import opened VideoModel

  datatype Peer = Peer(negotiated: seq<Slot>, video: Video, closed: bool)

  datatype System = System(service: Service, profiles: map<string, nat>, peers: map<nat, Peer>)

  /** What may happen while an attachment is still being made, through the notifications it causes. */
  datatype Provocation =
    /** The encoder the attachment started emits a packet at once. */
    | Delivers(timestamp: Uint32)
    /** A flush finds these tracks no longer allowed. */
    | Revokes(denied: set<string>)
    | ClosesRouter
    /** The encoder the attachment started fails at once. */
    | FailsEncoder

  datatype Act =
    | Open(peer: nat, slots: seq<Slot>)
    | Subscribe(peer: nat, track: string, granted: bool, during: seq<Provocation>)
    | Unsubscribe(peer: nat, mid: string)
    /** A flush finds these tracks no longer allowed. */
    | Revoke(peer: nat, denied: set<string>)
    | Leave(peer: nat)
    | Plane(input: Input)

  datatype Move = Move(at: Time, act: Act)

  function SetVideo(sys: System, p: nat, v: Video): (later: System)
    requires p in sys.peers
    ensures later.peers.Keys == sys.peers.Keys
  {
    sys.(peers := sys.peers[p := sys.peers[p].(video := v)])
  }

  function Tell(sys: System, now: Time, input: Input): System {
    sys.(service := Apply(sys.service, Turn(now, input)))
  }

  function Refused(sys: System, now: Time, input: Input): bool {
    Refusal(sys.service, Turn(now, input)).Some?
  }

  /** Only flags change: every peer keeps its slots as they are. */
  predicate Framed(sys: System, later: System) {
    && later.peers.Keys == sys.peers.Keys && later.profiles == sys.profiles
    && (forall q :: q in sys.peers ==>
          SameSlots(sys.peers[q].video, later.peers[q].video) && later.peers[q].negotiated == sys.peers[q].negotiated)
  }

  /** Stop delivering a track, keeping its slot bound; true means the media plane threw. */
  function LetGo(sys: System, p: nat, track: string, now: Time): (result: (System, bool))
    requires p in sys.peers && Has(sys.peers[p].video, track)
    ensures Framed(sys, result.0)
  {
    var v := sys.peers[p].video;
    var flagged := SetVideo(sys, p, Flag(v, track, false));
    if !At(v, track).attached then (flagged, false)
    else (Tell(flagged, now, Detach(track, Viewer(p, track))), Refused(flagged, now, Detach(track, Viewer(p, track))))
  }

  /** Closing lets every track go; revoking, those being watched that are denied. */
  predicate Chosen(b: Binding, denied: Option<set<string>>) {
    denied.None? || (b.watching && b.track in denied.value)
  }

  function LetGoFrom(sys: System, p: nat, i: nat, now: Time, denied: Option<set<string>>): (result: (System, bool))
    requires p in sys.peers
    ensures Framed(sys, result.0)
    decreases |sys.peers[p].video.bound| - i
  {
    var v := sys.peers[p].video;
    if i >= |v.bound| then (sys, false)
    else if !Chosen(v.bound[i], denied) then LetGoFrom(sys, p, i + 1, now, denied)
    else
      BoundHas(v, i);
      var (next, threw) := LetGo(sys, p, v.bound[i].track, now);
      if threw then (next, true) else LetGoFrom(next, p, i + 1, now, denied)
  }

  function Shut(sys: System, p: nat): System
    requires p in sys.peers
  {
    sys.(peers := sys.peers[p := sys.peers[p].(closed := true)])
  }

  /** Closing a peer detaches every viewer it has. */
  function Part(sys: System, p: nat, now: Time): (later: System)
    requires p in sys.peers
    ensures Framed(sys, later)
  {
    if sys.peers[p].closed then sys
    else LetGoFrom(Shut(sys, p), p, 0, now, None).0
  }

  /** A turn of the media plane; every viewer told of a failure drops what it believed. */
  function Drive(sys: System, now: Time, input: Input): (later: System)
    ensures Framed(sys, later)
  {
    var failing :=
      !Refused(sys, now, input) && input.Callback? && Fails(sys.service.sources[input.track], now, input.event);
    var later := Tell(sys, now, input);
    if !failing then later
    else
      var viewers := sys.service.sources[input.track].viewers;
      later.(peers := map p | p in sys.peers :: Dropped(sys.peers[p], p, input.track, viewers))
  }

  function Dropped(peer: Peer, p: nat, track: string, told: seq<Viewer>): Peer {
    if Viewer(p, track) in told && Has(peer.video, track) then peer.(video := Flag(peer.video, track, false)) else peer
  }

  predicate FreshEncoder(before: System, after: System, track: string) {
    && track in before.service.sources && track in after.service.sources
    && after.service.sources[track].created > before.service.sources[track].created
    && after.service.sources[track].current.Some?
  }

  /** The encoder an attachment started reports before that attachment returns. */
  function Report(sys: System, track: string, now: Time, e: Event): (after: System)
    requires track in sys.service.sources
    ensures Framed(sys, after)
  {
    Drive(sys, now, Callback(track, e))
  }

  /** One thing an attachment provokes before it returns. */
  function ProvokeOne(before: System, sys: System, p: nat, track: string, x: Provocation, now: Time): (after: System)
    requires p in sys.peers
    ensures Framed(sys, after)
  {
    match x
    case Delivers(timestamp) =>
      if !FreshEncoder(before, sys, track) then sys
      else Report(sys, track, now, Packet(sys.service.sources[track].current.value, timestamp))
    case Revokes(denied) => if sys.peers[p].closed then sys else LetGoFrom(sys, p, 0, now, Some(denied)).0
    case ClosesRouter => Part(sys, p, now)
    case FailsEncoder =>
      if !FreshEncoder(before, sys, track) then sys
      else Report(sys, track, now, EncoderFails(sys.service.sources[track].current.value))
  }

  /** Everything an attachment provokes before it returns, in order. */
  function Provoke(before: System, sys: System, p: nat, track: string, during: seq<Provocation>, now: Time)
    : (after: System)
    requires p in sys.peers
    ensures Framed(sys, after)
    decreases |during|
  {
    if during == [] then sys
    else Provoke(before, ProvokeOne(before, sys, p, track, during[0], now), p, track, during[1..], now)
  }

  /** Attaching to a track that is not being watched. */
  function Join(sys: System, p: nat, track: string, during: seq<Provocation>, now: Time): (later: System)
    requires p in sys.peers && Has(sys.peers[p].video, track)
    ensures Framed(sys, later)
  {
    var input := Attach(track, Viewer(p, track));
    if Refused(sys, now, input) then sys
    else
      var after := Provoke(sys, Tell(sys, now, input), p, track, during, now);
      PositionSame(sys.peers[p].video, after.peers[p].video, track);
      SetVideo(after, p, Flag(after.peers[p].video, track, true))
  }

  predicate Serving(sys: System, p: nat) {
    p in sys.peers && !sys.peers[p].closed
  }

  function Watch(sys: System, p: nat, track: string, during: seq<Provocation>, now: Time): System
    requires Serving(sys, p) && track in sys.profiles
  {
    var v := sys.peers[p].video;
    var bound := Bind(v, track, sys.profiles[track]);
    if bound.Err? then sys
    else
      var ready := SetVideo(sys, p, bound.value);
      if Watching(bound.value, track) then ready
      else Join(ready, p, track, during, now)
  }

  function Leaving(sys: System, p: nat, mid: string, now: Time): System
    requires Serving(sys, p)
  {
    var v := sys.peers[p].video;
    var at := OnMid(v.bound, mid);
    if at == |v.bound| then sys
    else
      BoundHas(v, at);
      LetGo(sys, p, v.bound[at].track, now).0
  }

  function Perform(sys: System, move: Move): System {
    match move.act
    case Open(p, slots) =>
      if p in sys.peers then sys else sys.(peers := sys.peers[p := Peer(slots, VideoModel.Initial(slots), false)])
    case Subscribe(p, track, granted, during) =>
      if !Serving(sys, p) || !granted || track !in sys.profiles then sys else Watch(sys, p, track, during, move.at)
    case Unsubscribe(p, mid) => if Serving(sys, p) then Leaving(sys, p, mid, move.at) else sys
    case Revoke(p, denied) => if Serving(sys, p) then LetGoFrom(sys, p, 0, move.at, Some(denied)).0 else sys
    case Leave(p) => if p in sys.peers then Part(sys, p, move.at) else sys
    case Plane(input) => if input.Attach? || input.Detach? then sys else Drive(sys, move.at, input)
  }

  /** A whole run of moves. */
  function Course(sys: System, moves: seq<Move>): System
    decreases |moves|
  {
    if moves == [] then sys else Course(Perform(sys, moves[0]), moves[1..])
  }

  /** A configured media plane that nobody watches yet. */
  function Start(settings: Settings, framerates: map<string, Positive>, maxPipelines: nat, profiles: map<string, nat>)
    : System
  {
    System(Configure(settings, framerates, maxPipelines), profiles, map[])
  }
}
