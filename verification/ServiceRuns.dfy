/** The media plane: every configured source, the pipeline bound across them, and whole runs of both. */
module ServiceModel {
  import opened Basics
  import opened MediaTypes
  import opened SourceModel

  datatype Service = Service(maxPipelines: nat, sources: map<string, Source>, closed: bool)

  datatype Input =
    | Attach(track: string, viewer: Viewer)
    | Detach(track: string, viewer: Viewer)
    | RequestKeyframe(track: string)
    | Shutdown
    /** A timer, an encoder callback or a settled stop of one source. */
    | Callback(track: string, event: Event)

  datatype Turn = Turn(at: Time, input: Input)

  function InitialSources(settings: Settings, framerates: map<string, Positive>): map<string, Source> {
    map t | t in framerates :: Initial(settings, framerates[t])
  }

  function Configure(settings: Settings, framerates: map<string, Positive>, maxPipelines: nat): Service {
    Service(maxPipelines, InitialSources(settings, framerates), false)
  }

  function CloseAll(sources: map<string, Source>, now: Time): map<string, Source> {
    map t | t in sources :: Step(sources[t], now, Close)
  }

  function RunningTracks(sv: Service): set<string> {
    set t | t in sv.sources && Running(sv.sources[t])
  }

  predicate FromOutside(e: Event) {
    !e.Add? && !e.Remove? && !e.Keyframe? && !e.Close?
  }

  /** Why a turn is refused, if it is. */
  function Refusal(sv: Service, turn: Turn): Option<string> {
    match turn.input
    case Attach(track, _) =>
      if track !in sv.sources || sv.closed then Some("unknown_video_track")
      else if !Running(sv.sources[track]) && |RunningTracks(sv)| >= sv.maxPipelines then Some("video_pipeline_limit")
      else if !Retryable(sv.sources[track], turn.at) then Some("video_retry_too_soon")
      else None
    case Detach(track, _) => if track !in sv.sources || sv.closed then Some("unknown_video_track") else None
    case RequestKeyframe(track) => if track !in sv.sources || sv.closed then Some("unknown_video_track") else None
    case Shutdown => None
    case Callback(track, e) => if track !in sv.sources || !FromOutside(e) then Some("no_such_callback") else None
  }

  function SourceEvent(input: Input): Event
    requires !input.Shutdown?
  {
    match input
    case Attach(_, viewer) => Add(viewer)
    case Detach(_, viewer) => Remove(viewer)
    case RequestKeyframe(_) => Keyframe
    case Callback(_, e) => e
  }

  function Apply(sv: Service, turn: Turn): Service {
    if Refusal(sv, turn).Some? then sv
    else if turn.input.Shutdown? then
      sv.(closed := true, sources := CloseAll(sv.sources, turn.at))
    else
      var t := turn.input.track;
      sv.(sources := sv.sources[t := Step(sv.sources[t], turn.at, SourceEvent(turn.input))])
  }

  function Run(sv: Service, turns: seq<Turn>): Service
    decreases |turns|
  {
    if turns == [] then sv else Run(Apply(sv, turns[0]), turns[1..])
  }

  /** The clock never goes back over a run that starts at `last`. */
  predicate Clocked(turns: seq<Turn>, last: Time)
    decreases |turns|
  {
    turns != [] ==> last <= turns[0].at && Clocked(turns[1..], turns[0].at)
  }
}

/** Claims about every run of the media plane. */
module ServiceRuns {
  import opened Basics
  import opened MediaTypes
  import opened SourceModel
  import opened SourceInvariants
  import opened SourceNumbering
  import opened ServiceModel

  /** The event a turn means for one source, if it touches it. */
  function EventFor(sv: Service, turn: Turn, track: string): Option<Event> {
    if Refusal(sv, turn).Some? then None
    else if turn.input.Shutdown? then Some(Close)
    else if turn.input.track == track then Some(SourceEvent(turn.input))
    else None
  }

  lemma ApplyTouches(sv: Service, turn: Turn, track: string)
    requires track in sv.sources
    ensures track in Apply(sv, turn).sources
    ensures var e := EventFor(sv, turn, track);
            Apply(sv, turn).sources[track] ==
              (if e.Some? then Step(sv.sources[track], turn.at, e.value) else sv.sources[track])
  {}

  predicate Healthy(sv: Service, last: Time) {
    && (forall t :: t in sv.sources ==>
          && Shape(sv.sources[t]) && Numbered(sv.sources[t]) && Spaced(sv.sources[t]) && Rested(sv.sources[t], last)
          && (sv.closed ==> Terminal(sv.sources[t])))
    && |RunningTracks(sv)| <= sv.maxPipelines
  }

  lemma ConfiguredHealthy(settings: Settings, framerates: map<string, Positive>, maxPipelines: nat, last: Time)
    ensures Healthy(Configure(settings, framerates, maxPipelines), last)
  {
    var sv := Configure(settings, framerates, maxPipelines);
    assert RunningTracks(sv) == {};
  }

  /** A source starts running only when a viewer is attached to it. */
  lemma OnlyAttachStarts(s: Source, now: Time, e: Event)
    requires Shape(s) && !Running(s) && !e.Add?
    ensures !Running(Step(s, now, e))
  {}

  lemma BoundedStep(sv: Service, turn: Turn)
    requires forall t :: t in sv.sources ==> Shape(sv.sources[t])
    requires |RunningTracks(sv)| <= sv.maxPipelines
    ensures |RunningTracks(Apply(sv, turn))| <= sv.maxPipelines
  {
    var next := Apply(sv, turn);
    forall t | t in RunningTracks(next) && t !in RunningTracks(sv)
      ensures turn.input.Attach? && turn.input.track == t && Refusal(sv, turn).None?
    {
      ApplyTouches(sv, turn, t);
      var e := EventFor(sv, turn, t);
      if e.Some? && !e.value.Add? { OnlyAttachStarts(sv.sources[t], turn.at, e.value); }
    }
    if turn.input.Attach? && Refusal(sv, turn).None? && !Running(sv.sources[turn.input.track]) {
      assert RunningTracks(next) <= RunningTracks(sv) + {turn.input.track};
      SubsetSize(RunningTracks(next), RunningTracks(sv) + {turn.input.track});
    } else {
      assert RunningTracks(next) <= RunningTracks(sv);
      SubsetSize(RunningTracks(next), RunningTracks(sv));
    }
  }

  lemma HealthySource(sv: Service, last: Time, turn: Turn, track: string)
    requires Healthy(sv, last) && last <= turn.at && track in sv.sources
    ensures var s := Apply(sv, turn).sources[track];
            && Shape(s) && Numbered(s) && Spaced(s)
            && (Apply(sv, turn).closed ==> Terminal(s))
  {
    hide Step, Shape, Numbered, Spaced, Rested;
    ApplyTouches(sv, turn, track);
    var s, e := sv.sources[track], EventFor(sv, turn, track);
    if e.Some? {
      ShapeStep(s, turn.at, e.value);
      NumberedStep(s, turn.at, e.value);
      SpacedStep(s, turn.at, e.value);
      if sv.closed { TerminalStep(s, turn.at, e.value); }
      if e.value.Close? { CloseIsTerminal(s, turn.at); }
    }
  }

  lemma RestedSource(sv: Service, last: Time, turn: Turn, track: string)
    requires Healthy(sv, last) && last <= turn.at && track in sv.sources
    ensures var s := Apply(sv, turn).sources[track];
            Rested(s, turn.at) && (s.created > sv.sources[track].created ==> Retryable(sv.sources[track], turn.at))
  {
    ApplyTouches(sv, turn, track);
    var e := EventFor(sv, turn, track);
    if e.Some? { RestedStep(sv.sources[track], last, turn.at, e.value); }
  }

  lemma HealthyStep(sv: Service, last: Time, turn: Turn)
    requires Healthy(sv, last) && last <= turn.at
    ensures Healthy(Apply(sv, turn), turn.at)
  {
    forall t | t in Apply(sv, turn).sources
      ensures var s := Apply(sv, turn).sources[t];
              && Shape(s) && Numbered(s) && Spaced(s) && Rested(s, turn.at)
              && (Apply(sv, turn).closed ==> Terminal(s))
    {
      HealthySource(sv, last, turn, t);
      RestedSource(sv, last, turn, t);
    }
    BoundedStep(sv, turn);
  }

  function LastTime(turns: seq<Turn>, last: Time): Time {
    if turns == [] then last else turns[|turns| - 1].at
  }

  lemma {:induction false} HealthyRun(sv: Service, last: Time, turns: seq<Turn>)
    requires Healthy(sv, last) && Clocked(turns, last)
    ensures Healthy(Run(sv, turns), LastTime(turns, last))
    decreases |turns|
  {
    hide Healthy, Apply;
    if turns != [] {
      HealthyStep(sv, last, turns[0]);
      HealthyRun(Apply(sv, turns[0]), turns[0].at, turns[1..]);
    }
  }

  /**
   * On every run, whatever the interleaving: timers, viewers, notifications and encoders agree in
   * every source, every track is numbered continuously, and no more than `maxPipelines` sources run.
   */
  lemma EveryRun(settings: Settings, framerates: map<string, Positive>, maxPipelines: nat, turns: seq<Turn>, last: Time)
    requires Clocked(turns, last)
    ensures var sv := Run(Configure(settings, framerates, maxPipelines), turns);
            && |RunningTracks(sv)| <= maxPipelines
            && (forall t :: t in sv.sources ==>
                  && Shape(sv.sources[t]) && Spaced(sv.sources[t])
                  && Continuous(sv.sources[t].fanned, sv.sources[t].framerate))
  {
    var sv := Configure(settings, framerates, maxPipelines);
    ConfiguredHealthy(settings, framerates, maxPipelines, last);
    HealthyRun(sv, last, turns);
    MaxPipelinesFixed(sv, turns);
  }

  lemma {:induction false} RunAppend(sv: Service, turns: seq<Turn>, turn: Turn)
    ensures Run(sv, turns + [turn]) == Apply(Run(sv, turns), turn)
    decreases |turns|
  {
    if turns == [] {
      assert Run(sv, [turn]) == Run(Apply(sv, turn), []);
    } else {
      assert (turns + [turn])[1..] == turns[1..] + [turn];
      RunAppend(Apply(sv, turns[0]), turns[1..], turn);
    }
  }

  lemma {:induction false} MaxPipelinesFixed(sv: Service, turns: seq<Turn>)
    ensures Run(sv, turns).maxPipelines == sv.maxPipelines
    decreases |turns|
  {
    if turns != [] { MaxPipelinesFixed(Apply(sv, turns[0]), turns[1..]); }
  }

  /** What the timers of one source will do, and that they are there to do it. */
  predicate Ends(sv: Service, track: string, now: Time)
    requires track in sv.sources
  {
    var s := sv.sources[track];
    && (s.current.Some? && s.viewers == [] ==>
          && s.grace.Some?
          && (now >= s.grace.value ==>
                var t := Apply(sv, Turn(now, Callback(track, GraceFires))).sources[track];
                t.phase == Idle && t.current.None? && t.release == Some(Release(s.current.value, now))))
    && (s.phase == Starting ==>
          && s.deadline.Some?
          && (now >= s.deadline.value ==>
                Apply(sv, Turn(now, Callback(track, DeadlineFires))).sources[track].phase == Failed))
  }

  /**
   * On every run nothing is left to linger: an encoder nobody watches has a timer that puts it into release, and
   * a start has one that fails it.
   */
  lemma NothingLingers(settings: Settings, framerates: map<string, Positive>, maxPipelines: nat, turns: seq<Turn>,
                       last: Time, track: string, now: Time)
    requires Clocked(turns, last)
    ensures var sv := Run(Configure(settings, framerates, maxPipelines), turns);
            track in sv.sources ==> Ends(sv, track, now)
  {
    hide Step, Run, Configure, Numbered, Spaced, Rested;
    var sv := Run(Configure(settings, framerates, maxPipelines), turns);
    ConfiguredHealthy(settings, framerates, maxPipelines, last);
    HealthyRun(Configure(settings, framerates, maxPipelines), last, turns);
    if track in sv.sources {
      var s := sv.sources[track];
      if s.current.Some? && s.viewers == [] { UnwatchedEncoderEnds(s, now); }
      if s.phase == Starting { StartEnds(s, now); }
    }
  }

  /** A turn that ends a start on the track. */
  predicate EndsOn(sv: Service, turn: Turn, track: string)
    requires track in sv.sources
  {
    var e := EventFor(sv, turn, track);
    e.Some? && EndsStart(sv.sources[track], turn.at, e.value)
  }

  predicate NeverEnds(sv: Service, turns: seq<Turn>, track: string)
    requires track in sv.sources
    decreases |turns|
  {
    turns != [] ==>
      && !EndsOn(sv, turns[0], track)
      && track in Apply(sv, turns[0]).sources && NeverEnds(Apply(sv, turns[0]), turns[1..], track)
  }

  /**
   * A start that was left with neither encoder nor release gets none, however often viewers come and go, until its
   * timers fire, it is reported failed or it is closed.
   */
  lemma {:induction false} DeadUntilEnded(sv: Service, last: Time, turns: seq<Turn>, track: string)
    requires Healthy(sv, last) && Clocked(turns, last) && track in sv.sources && Dead(sv.sources[track])
    requires NeverEnds(sv, turns, track)
    ensures var end := Run(sv, turns);
            && track in end.sources && Dead(end.sources[track])
            && end.sources[track].created == sv.sources[track].created
            && end.sources[track].deadline == sv.sources[track].deadline
    decreases |turns|
  {
    hide Step, Shape, Numbered, Spaced, Rested, Dead, Apply;
    if turns != [] {
      HealthyStep(sv, last, turns[0]);
      ApplyTouches(sv, turns[0], track);
      var e := EventFor(sv, turns[0], track);
      if e.Some? { DeadPersists(sv.sources[track], turns[0].at, e.value); }
      DeadUntilEnded(Apply(sv, turns[0]), turns[0].at, turns[1..], track);
    }
  }

  /** On every run, a turn that creates an encoder comes at least the retry interval after the latest failure. */
  lemma NoEarlyRestart(settings: Settings, framerates: map<string, Positive>, maxPipelines: nat,
                       turns: seq<Turn>, last: Time, turn: Turn, track: string)
    requires Clocked(turns, last) && LastTime(turns, last) <= turn.at && track in framerates
    requires var sv := Run(Configure(settings, framerates, maxPipelines), turns);
             && track in sv.sources
             && Apply(sv, turn).sources[track].created > sv.sources[track].created
    ensures Retryable(Run(Configure(settings, framerates, maxPipelines), turns).sources[track], turn.at)
  {
    var sv := Configure(settings, framerates, maxPipelines);
    ConfiguredHealthy(settings, framerates, maxPipelines, last);
    HealthyRun(sv, last, turns);
    RestedSource(Run(sv, turns), LastTime(turns, last), turn, track);
  }

  /** Once the service is closed no source ever creates another encoder or watches anything. */
  lemma {:induction false} NothingAfterShutdown(sv: Service, last: Time, turns: seq<Turn>, track: string)
    requires Healthy(sv, last) && sv.closed && Clocked(turns, last) && track in sv.sources
    ensures var end := Run(sv, turns);
            && end.closed && track in end.sources
            && end.sources[track].created == sv.sources[track].created
            && end.sources[track].current.None? && end.sources[track].viewers == []
    decreases |turns|
  {
    hide Step, Numbered, Spaced, Rested, RunningTracks;
    if turns != [] {
      var next := Apply(sv, turns[0]);
      HealthyStep(sv, last, turns[0]);
      ApplyTouches(sv, turns[0], track);
      var e := EventFor(sv, turns[0], track);
      if e.Some? { TerminalStep(sv.sources[track], turns[0].at, e.value); }
      NothingAfterShutdown(next, turns[0].at, turns[1..], track);
    }
  }

  // ---- One encoder per track ----

  predicate AllExclusive(sv: Service) {
    forall t :: t in sv.sources ==> Exclusive(sv.sources[t])
  }

  predicate DuplicatesOn(sv: Service, turn: Turn) {
    exists t :: t in sv.sources && EventFor(sv, turn, t).Some? && Duplicates(sv.sources[t], EventFor(sv, turn, t).value)
  }

  predicate AlwaysExclusive(sv: Service, turns: seq<Turn>)
    decreases |turns|
  {
    AllExclusive(sv) && (turns != [] ==> AlwaysExclusive(Apply(sv, turns[0]), turns[1..]))
  }

  predicate NeverDuplicates(sv: Service, turns: seq<Turn>)
    decreases |turns|
  {
    turns != [] ==> !DuplicatesOn(sv, turns[0]) && NeverDuplicates(Apply(sv, turns[0]), turns[1..])
  }

  lemma AllExclusiveStep(sv: Service, last: Time, turn: Turn)
    requires Healthy(sv, last) && AllExclusive(sv)
    ensures AllExclusive(Apply(sv, turn)) <==> !DuplicatesOn(sv, turn)
  {
    forall t | t in sv.sources
      ensures t in Apply(sv, turn).sources
      ensures Exclusive(Apply(sv, turn).sources[t]) <==>
              !(EventFor(sv, turn, t).Some? && Duplicates(sv.sources[t], EventFor(sv, turn, t).value))
    {
      ApplyTouches(sv, turn, t);
      if EventFor(sv, turn, t).Some? { ExclusiveStep(sv.sources[t], turn.at, EventFor(sv, turn, t).value); }
    }
  }

  /** A run keeps every track to the encoder it holds if and only if no turn resumes two wanted starts. */
  lemma {:induction false} ExclusiveExactly(sv: Service, last: Time, turns: seq<Turn>)
    requires Healthy(sv, last) && AllExclusive(sv) && Clocked(turns, last)
    ensures AlwaysExclusive(sv, turns) <==> NeverDuplicates(sv, turns)
    decreases |turns|
  {
    if turns != [] {
      AllExclusiveStep(sv, last, turns[0]);
      HealthyStep(sv, last, turns[0]);
      if AllExclusive(Apply(sv, turns[0])) {
        ExclusiveExactly(Apply(sv, turns[0]), turns[0].at, turns[1..]);
      }
    }
  }

  // ---- A starting source has a start in progress ----

  predicate AllServed(sv: Service) {
    forall t :: t in sv.sources ==> Served(sv.sources[t])
  }

  predicate AbandonsOn(sv: Service, turn: Turn) {
    exists t :: t in sv.sources
      && EventFor(sv, turn, t).Some? && AbandonsStart(sv.sources[t], EventFor(sv, turn, t).value)
  }

  predicate AlwaysServed(sv: Service, turns: seq<Turn>)
    decreases |turns|
  {
    AllServed(sv) && (turns != [] ==> AlwaysServed(Apply(sv, turns[0]), turns[1..]))
  }

  predicate NeverAbandons(sv: Service, turns: seq<Turn>)
    decreases |turns|
  {
    turns != [] ==> !AbandonsOn(sv, turns[0]) && NeverAbandons(Apply(sv, turns[0]), turns[1..])
  }

  lemma AllServedStep(sv: Service, last: Time, turn: Turn)
    requires Healthy(sv, last) && AllServed(sv)
    ensures AllServed(Apply(sv, turn)) <==> !AbandonsOn(sv, turn)
  {
    hide Step, Numbered, Spaced, Rested, RunningTracks;
    forall t | t in sv.sources
      ensures t in Apply(sv, turn).sources
      ensures Served(Apply(sv, turn).sources[t]) <==>
              !(EventFor(sv, turn, t).Some? && AbandonsStart(sv.sources[t], EventFor(sv, turn, t).value))
    {
      ApplyTouches(sv, turn, t);
      if EventFor(sv, turn, t).Some? { ServedStep(sv.sources[t], turn.at, EventFor(sv, turn, t).value); }
    }
  }

  /**
   * A run keeps every starting source with an encoder or a suspended start if and only if no release settles
   * while nobody watches the start that waits for it.
   */
  lemma {:induction false} ServedExactly(sv: Service, last: Time, turns: seq<Turn>)
    requires Healthy(sv, last) && AllServed(sv) && Clocked(turns, last)
    ensures AlwaysServed(sv, turns) <==> NeverAbandons(sv, turns)
    decreases |turns|
  {
    hide Healthy, AllServed, AbandonsOn, Apply;
    if turns != [] {
      AllServedStep(sv, last, turns[0]);
      HealthyStep(sv, last, turns[0]);
      if AllServed(Apply(sv, turns[0])) {
        ServedExactly(Apply(sv, turns[0]), turns[0].at, turns[1..]);
      }
    } else {
      assert AlwaysServed(sv, []) by { ServedHere(sv); }
    }
  }

  lemma ServedHere(sv: Service)
    requires AllServed(sv)
    ensures AlwaysServed(sv, [])
  {
    hide AllServed;
  }

  // ---- Prompt stops ----

  /** A turn that sees prompt stops, and encoders that stay silent about their start once stopped. */
  predicate PromptTurn(sv: Service, turn: Turn) {
    forall t :: t in sv.sources ==>
      && Prompt(sv.sources[t], turn.at)
      && (EventFor(sv, turn, t).Some? ==> Behaved(sv.sources[t], EventFor(sv, turn, t).value))
  }

  predicate PromptRun(sv: Service, turns: seq<Turn>)
    decreases |turns|
  {
    turns != [] ==> PromptTurn(sv, turns[0]) && PromptRun(Apply(sv, turns[0]), turns[1..])
  }

  predicate PromptShapes(sv: Service, last: Time) {
    forall t :: t in sv.sources ==> PromptShape(sv.sources[t], last, sv.closed)
  }

  lemma PromptSource(sv: Service, last: Time, turn: Turn, track: string)
    requires track in sv.sources && PromptShape(sv.sources[track], last, sv.closed)
    requires last <= turn.at && PromptTurn(sv, turn)
    ensures PromptShape(Apply(sv, turn).sources[track], turn.at, Apply(sv, turn).closed)
  {
    ApplyTouches(sv, turn, track);
    var e := EventFor(sv, turn, track);
    if e.Some? {
      PromptStep(sv.sources[track], last, turn.at, e.value, sv.closed);
    }
  }

  lemma PromptShapesStep(sv: Service, last: Time, turn: Turn)
    requires PromptShapes(sv, last) && last <= turn.at && PromptTurn(sv, turn)
    ensures PromptShapes(Apply(sv, turn), turn.at)
  {
    forall t | t in Apply(sv, turn).sources
      ensures PromptShape(Apply(sv, turn).sources[t], turn.at, Apply(sv, turn).closed)
    { PromptSource(sv, last, turn, t); }
  }

  lemma PromptNeverDuplicates(sv: Service, last: Time, turn: Turn)
    requires PromptShapes(sv, last)
    ensures !DuplicatesOn(sv, turn)
  {}

  lemma {:induction false} PromptShapesRun(sv: Service, last: Time, turns: seq<Turn>)
    requires PromptShapes(sv, last) && Clocked(turns, last) && PromptRun(sv, turns)
    ensures PromptShapes(Run(sv, turns), LastTime(turns, last))
    ensures NeverDuplicates(sv, turns)
    decreases |turns|
  {
    if turns != [] {
      PromptNeverDuplicates(sv, last, turns[0]);
      PromptShapesStep(sv, last, turns[0]);
      PromptShapesRun(Apply(sv, turns[0]), turns[0].at, turns[1..]);
    }
  }

  /** Every encoder that exists, with the track it belongs to. */
  function LiveEncoders(sv: Service): set<(string, nat)> {
    set t, e | t in sv.sources && e in sv.sources[t].live :: (t, e)
  }

  lemma {:induction false} PairsBounded(pairs: set<(string, nat)>, tracks: set<string>)
    requires forall p :: p in pairs ==> p.0 in tracks
    requires forall p, q :: p in pairs && q in pairs && p.0 == q.0 ==> p == q
    ensures |pairs| <= |tracks|
    decreases pairs
  {
    if pairs != {} {
      var p :| p in pairs;
      PairsBounded(pairs - {p}, tracks - {p.0});
    }
  }

  /**
   * While each stop settles before the grace and start intervals have passed since it began, and no encoder
   * rejects its start after it was stopped for one that waits, a track never has two encoders, current and
   * released together, and the host never more than `maxPipelines`. Supervised workers never reject a start
   * that way: `SupervisedRuns.OneWorkerPerTrack` needs the timing alone.
   */
  lemma OneEncoderPerTrack(settings: Settings, framerates: map<string, Positive>, maxPipelines: nat,
                           turns: seq<Turn>, last: Time)
    requires Clocked(turns, last) && PromptRun(Configure(settings, framerates, maxPipelines), turns)
    ensures var sv := Run(Configure(settings, framerates, maxPipelines), turns);
            && (forall t :: t in sv.sources ==> |sv.sources[t].live| <= 1 && sv.sources[t].live == Held(sv.sources[t]))
            && |LiveEncoders(sv)| <= maxPipelines
  {
    var sv := Configure(settings, framerates, maxPipelines);
    ConfiguredHealthy(settings, framerates, maxPipelines, last);
    HealthyRun(sv, last, turns);
    PromptShapesRun(sv, last, turns);
    MaxPipelinesFixed(sv, turns);
    var end := Run(sv, turns);
    forall t | t in end.sources
      ensures |end.sources[t].live| <= 1
      ensures end.sources[t].live != {} ==> t in RunningTracks(end)
    { ExclusiveMeansOne(end.sources[t]); }
    forall p, q | p in LiveEncoders(end) && q in LiveEncoders(end) && p.0 == q.0
      ensures p == q
    {
      var live := end.sources[p.0].live;
      if p.1 != q.1 { SubsetSize({p.1, q.1}, live); }
    }
    PairsBounded(LiveEncoders(end), RunningTracks(end));
  }

  /** A stranded encoder outlives every run: no turn stops it. */
  lemma {:induction false} StrandedForever(sv: Service, last: Time, turns: seq<Turn>, track: string, encoder: nat)
    requires Healthy(sv, last) && Clocked(turns, last) && track in sv.sources && Stranded(sv.sources[track], encoder)
    ensures track in Run(sv, turns).sources && Stranded(Run(sv, turns).sources[track], encoder)
    decreases |turns|
  {
    if turns != [] {
      HealthyStep(sv, last, turns[0]);
      ApplyTouches(sv, turns[0], track);
      if EventFor(sv, turns[0], track).Some? {
        StrandedStep(sv.sources[track], turns[0].at, EventFor(sv, turns[0], track).value, encoder);
      }
      StrandedForever(Apply(sv, turns[0]), turns[0].at, turns[1..], track, encoder);
    }
  }

  /** Once a turn resumes two wanted starts, the first encoder it creates is out of reach on every continuation. */
  lemma DuplicateOutlives(sv: Service, last: Time, turn: Turn, turns: seq<Turn>, track: string)
    requires Healthy(sv, last) && last <= turn.at && Clocked(turns, turn.at) && track in sv.sources
    requires EventFor(sv, turn, track).Some? && Duplicates(sv.sources[track], EventFor(sv, turn, track).value)
    ensures var end := Run(Apply(sv, turn), turns);
            track in end.sources && Stranded(end.sources[track], sv.sources[track].created)
  {
    HealthyStep(sv, last, turn);
    ApplyTouches(sv, turn, track);
    DuplicateStrands(sv.sources[track], turn.at, EventFor(sv, turn, track).value);
    StrandedForever(Apply(sv, turn), turn.at, turns, track, sv.sources[track].created);
  }
}
