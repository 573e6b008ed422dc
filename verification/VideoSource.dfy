/** One viewer, identified by the peer it belongs to and the track it was built for. */
module MediaTypes {
  import opened Basics

  datatype Viewer = Viewer(peer: nat, track: string)

  datatype Phase = Idle | Starting | Active | Failed

  datatype Settings = Settings(
    startTimeoutMs: Duration, retryMinIntervalMs: Duration, stopGraceMs: Duration, pliMinIntervalMs: Duration)
}

/**
 * The lifecycle of one video source as a state machine over its turns.
 *
 * A turn is one synchronous stretch of the program: a call, a timer, an encoder callback, or the
 * settling of a pending stop. What the event loop keeps outside the object is explicit here: armed
 * timers carry their due time, `waiting` counts the starts suspended on `release`, and `live` holds
 * every encoder that was created and whose stop has not settled.
 */
module SourceModel {
  import opened Basics
  import opened MediaTypes

  const CLOCK_HZ: nat := 90000

  datatype Release = Release(encoder: nat, began: Time)

  /** RTP numbering of the track, which outlives any one encoder. */
  datatype Numbering = Numbering(sequence: nat, emitted: Uint32, origin: Option<Uint32>, shift: Uint32)

  /** One packet handed to the viewers: who produced it, what it carried, what it was renumbered to. */
  datatype Fanout = Fanout(encoder: nat, original: Uint32, sequence: nat, timestamp: Uint32, viewers: seq<Viewer>)

  datatype Source = Source(
    settings: Settings,
    framerate: Positive,
    phase: Phase,
    viewers: seq<Viewer>,
    current: Option<nat>,
    grace: Option<Time>,
    deadline: Option<Time>,
    release: Option<Release>,
    waiting: nat,
    created: nat,
    live: set<nat>,
    failedAt: Option<Time>,
    asked: seq<Time>,
    numbering: Numbering,
    fanned: seq<Fanout>,
    told: map<Viewer, Phase>)

  datatype Event =
    | Add(viewer: Viewer)
    | Remove(viewer: Viewer)
    | Keyframe
    | Close
    | GraceFires
    | DeadlineFires
    | Packet(encoder: nat, timestamp: Uint32)
    | EncoderFails(encoder: nat)
    | StartRejects(encoder: nat)
    /** The pending stop settles. `bursts[k]` is what the k-th resumed start emits before it returns. */
    | StopSettles(bursts: seq<seq<Uint32>>)

  function Initial(settings: Settings, framerate: Positive): Source {
    Source(settings, framerate, Idle, [], None, None, None, None, 0, 0, {}, None, [],
           Numbering(0, 0, None, 0), [], map[])
  }

  predicate Running(s: Source) {
    s.release.Some? || (s.phase != Idle && s.phase != Failed)
  }

  predicate Retryable(s: Source, now: Time) {
    s.failedAt.None? || now - s.failedAt.value >= s.settings.retryMinIntervalMs
  }

  /** One frame at the configured rate in 90 kHz ticks, rounded half up. */
  function FrameStep(framerate: Positive): nat {
    (2 * CLOCK_HZ + framerate) / (2 * framerate)
  }

  function Renumber(n: Numbering, framerate: Positive, original: Uint32): Numbering {
    var shift := if n.origin.None? then (n.emitted + FrameStep(framerate) - original) % U32 else n.shift;
    var origin := if n.origin.None? then Some(original) else n.origin;
    Numbering(n.sequence + 1, (original + shift) % U32, origin, shift)
  }

  /** Each of `viewers` is told `phase`. */
  function Announce(told: map<Viewer, Phase>, viewers: seq<Viewer>, phase: Phase): map<Viewer, Phase> {
    told + map v | v in viewers :: phase
  }

  function Notify(s: Source): Source {
    s.(told := Announce(s.told, s.viewers, s.phase))
  }

  function AskKeyframe(s: Source, now: Time): Source {
    if s.asked != [] && now - s.asked[|s.asked| - 1] < s.settings.pliMinIntervalMs then s
    else s.(asked := s.asked + [now])
  }

  function Create(s: Source): Source {
    s.(numbering := s.numbering.(origin := None), current := Some(s.created),
       created := s.created + 1, live := s.live + {s.created})
  }

  predicate Wanted(s: Source) {
    s.phase == Starting && s.viewers != []
  }

  /** The start is announced and its deadline armed before anything else. */
  function AnnounceStart(s: Source, now: Time): Source {
    Notify(s.(phase := Starting)).(deadline := Some(now + s.settings.startTimeoutMs))
  }

  function Begin(s: Source, now: Time): Source {
    var announced := AnnounceStart(s, now);
    if announced.release.Some? then announced.(waiting := s.waiting + 1)
    else if Wanted(announced) then Create(announced)
    else announced
  }

  function Without(viewers: seq<Viewer>, viewer: Viewer): (rest: seq<Viewer>) {
    if viewers == [] then []
    else if viewers[0] == viewer then viewers[1..]
    else [viewers[0]] + Without(viewers[1..], viewer)
  }

  lemma {:induction false} WithoutFirst(viewers: seq<Viewer>, viewer: Viewer, at: nat)
    requires at < |viewers| && viewers[at] == viewer && viewer !in viewers[..at]
    ensures Without(viewers, viewer) == viewers[..at] + viewers[at + 1..]
  {
    if at > 0 {
      assert viewers[0] in viewers[..at];
      assert viewers[1..][..at - 1] == viewers[1..at];
      WithoutFirst(viewers[1..], viewer, at - 1);
    }
  }

  lemma {:induction false} WithoutAbsent(viewers: seq<Viewer>, viewer: Viewer)
    requires viewer !in viewers
    ensures Without(viewers, viewer) == viewers
  {
    if viewers != [] { WithoutAbsent(viewers[1..], viewer); }
  }

  function AddViewer(s: Source, now: Time, viewer: Viewer): Source {
    var joined := s.(viewers := if viewer in s.viewers then s.viewers else s.viewers + [viewer], grace := None);
    if s.phase == Idle || s.phase == Failed then Begin(joined, now)
    else
      var asked := if s.phase == Active then AskKeyframe(joined, now) else joined;
      asked.(told := asked.told[viewer := s.phase])
  }

  function RemoveViewer(s: Source, now: Time, viewer: Viewer): Source {
    var left := s.(viewers := Without(s.viewers, viewer));
    if viewer !in s.viewers || left.viewers != [] || s.phase == Idle then left
    else left.(grace := Some(now + s.settings.stopGraceMs))
  }

  /** Disarm the timers, drop the encoder and take the phase. */
  function Conclude(s: Source, now: Time, phase: Phase): Source {
    s.(phase := phase, grace := None, deadline := None, current := None,
       failedAt := if phase == Failed then Some(now) else s.failedAt)
  }

  /** A failure ends every attachment it reports; a dropped encoder goes into release. */
  function Finish(s: Source, now: Time, phase: Phase): Source {
    Notify(Conclude(s, now, phase)).(
      viewers := if phase == Failed then [] else s.viewers,
      release := if s.current.None? then s.release else Some(Release(s.current.value, now)))
  }

  /** The first packet proves the encoder produced output. */
  function Activate(s: Source): Source {
    if s.phase == Starting then Notify(s.(phase := Active, deadline := None)) else s
  }

  function FanOut(s: Source, encoder: nat, timestamp: Uint32): Source {
    var n := Renumber(s.numbering, s.framerate, timestamp);
    s.(numbering := n,
       fanned := s.fanned + [Fanout(encoder, timestamp, s.numbering.sequence % U16, n.emitted, s.viewers)])
  }

  function Deliver(s: Source, encoder: nat, timestamp: Uint32): Source {
    FanOut(Activate(s), encoder, timestamp)
  }

  function DeliverAll(s: Source, encoder: nat, burst: seq<Uint32>): Source
    decreases |burst|
  {
    if burst == [] then s
    else DeliverAll(Deliver(s, encoder, burst[0]), encoder, burst[1..])
  }

  /** One suspended start resumes: it creates its encoder only if the start is still wanted. */
  function Resume(s: Source, burst: seq<Uint32>): Source {
    if Wanted(s) then DeliverAll(Create(s), s.created, burst) else s
  }

  function FirstBurst(bursts: seq<seq<Uint32>>): seq<Uint32> {
    if bursts == [] then [] else bursts[0]
  }

  function ResumeAll(s: Source, starts: nat, bursts: seq<seq<Uint32>>): Source
    decreases starts
  {
    if starts == 0 then s
    else ResumeAll(Resume(s, FirstBurst(bursts)), starts - 1, if bursts == [] then [] else bursts[1..])
  }

  function Settle(s: Source, bursts: seq<seq<Uint32>>): Source {
    if s.release.None? then s
    else ResumeAll(s.(release := None, live := s.live - {s.release.value.encoder}, waiting := 0), s.waiting, bursts)
  }

  predicate Due(timer: Option<Time>, now: Time) {
    timer.Some? && now >= timer.value
  }

  function Step(s: Source, now: Time, e: Event): Source {
    match e
    case Add(viewer) => AddViewer(s, now, viewer)
    case Remove(viewer) => RemoveViewer(s, now, viewer)
    case Keyframe => AskKeyframe(s, now)
    case Close => Finish(s.(viewers := []), now, Idle)
    case GraceFires => if Due(s.grace, now) then Finish(s.(grace := None), now, Idle) else s
    case DeadlineFires => if Due(s.deadline, now) then Finish(s, now, Failed) else s
    case Packet(encoder, timestamp) => if s.current == Some(encoder) then Deliver(s, encoder, timestamp) else s
    case EncoderFails(encoder) => if s.current == Some(encoder) then Finish(s, now, Failed) else s
    case StartRejects(encoder) => Finish(s, now, Failed)
    case StopSettles(bursts) => Settle(s, bursts)
  }
}
