/**
 * The media plane with supervised workers as its encoders: what a worker's supervision reports is what the
 * source is told, and an encoder that goes into release is asked to stop.
 */
module SupervisedModel {
  import opened Basics
  import opened MediaTypes
  import opened SourceModel
  import opened ServiceModel
  import W = WorkerModel
  import opened Deframers

  type Classify = Bytes -> W.Meaning

  /** One thing supervision reacts to: a control line, a packet, or a framing failure or exit. */
  datatype Cue = Line(meaning: W.Meaning) | Frame(packet: Bytes) | Trouble

  /** Every track's workers by encoder, and the turns the media plane has taken. */
  datatype System = System(sv: Service, workers: map<string, map<nat, W.Worker>>, turns: seq<Turn>)

  datatype Move =
    /** Calls, timers and settled stops; what encoders report comes from their workers. */
    | Environment(input: Input)
    | Signalled(track: string, encoder: nat, signal: W.Signal)

  datatype Timed = Timed(at: Time, move: Move)

  function Heed(w: W.Worker, cue: Cue): W.Worker {
    match cue
    case Line(meaning) => W.OnLine(w, meaning)
    case Frame(packet) => w.(log := w.log + [W.Delivered(packet)])
    case Trouble => W.Fail(w)
  }

  function HeedAll(w: W.Worker, cues: seq<Cue>): W.Worker
    decreases |cues|
  {
    if cues == [] then w else HeedAll(Heed(w, cues[0]), cues[1..])
  }

  function LineCues(lines: seq<Bytes>, classify: Classify): seq<Cue> {
    if lines == [] then [] else [Line(classify(lines[0]))] + LineCues(lines[1..], classify)
  }

  function FrameCues(packets: seq<Bytes>): seq<Cue> {
    if packets == [] then [] else [Frame(packets[0])] + FrameCues(packets[1..])
  }

  function TroubleIf(bad: bool): seq<Cue> {
    if bad then [Trouble] else []
  }

  /** What a signal leaves buffered. */
  function Buffered(w: W.Worker, signal: W.Signal): W.Worker {
    match signal
    case Output(chunk) => w.(lines := Lines(w.lines + chunk).rest)
    case Rtp(chunk) => w.(packets := Packets(w.packets + chunk).rest)
    case Exit => w
    case Stop => w
  }

  /** What a signal makes supervision react to, in order. */
  function Cues(w: W.Worker, signal: W.Signal, classify: Classify): seq<Cue> {
    match signal
    case Output(chunk) =>
      var read := Lines(w.lines + chunk);
      LineCues(read.items, classify) + TroubleIf(|read.rest| > MAX_LINE)
    case Rtp(chunk) =>
      var read := Packets(w.packets + chunk);
      FrameCues(read.items) + TroubleIf(read.bad)
    case Exit => [Trouble]
    case Stop => []
  }

  /** The RTP timestamp a packet carries. */
  function Stamp(packet: Bytes): Uint32 {
    if |packet| < 8 then 0 else ReadU32(packet, 4)
  }

  /** What the source hears at once of one log entry; a rejected start is heard once the signal is dealt with. */
  function Heard(o: W.Out, encoder: nat): Option<Event> {
    match o
    case Delivered(packet) => Some(Packet(encoder, Stamp(packet)))
    case ReportedFailed => Some(EncoderFails(encoder))
    case Resolved => None
    case Rejected => None
  }

  /** What one cue adds to the log. */
  function Added(w: W.Worker, cue: Cue): (out: Option<W.Out>)
    ensures Heed(w, cue).log == w.log + if out.Some? then [out.value] else []
  {
    var later := Heed(w, cue);
    if later.log == w.log then None else Some(later.log[|w.log|])
  }

  /** An encoder in release has been asked to stop; one just created has a worker of its own. */
  function Follow(s: Source, workers: map<nat, W.Worker>): (later: map<nat, W.Worker>)
    ensures forall e: nat :: e in later <==> e < s.created
  {
    map e: nat | e < s.created ::
      var w := if e in workers then workers[e] else W.Started();
      if s.release.Some? && s.release.value.encoder == e
      then w.(child := false, stopping := w.stopping || w.child)
      else w
  }

  function WorkersOf(sys: System, track: string): map<nat, W.Worker> {
    if track in sys.workers then sys.workers[track] else map[]
  }

  /** One turn of the media plane, and the stops it asks for. */
  function Tell(sys: System, turn: Turn): System {
    var later := Apply(sys.sv, turn);
    System(later, map t | t in later.sources :: Follow(later.sources[t], WorkersOf(sys, t)), sys.turns + [turn])
  }

  function SetWorker(sys: System, track: string, encoder: nat, w: W.Worker): System {
    sys.(workers := sys.workers[track := WorkersOf(sys, track)[encoder := w]])
  }

  predicate Employs(sys: System, track: string, encoder: nat) {
    track in sys.workers && encoder in sys.workers[track]
  }

  /** One cue: the worker's supervision reacts, then the source to what it hears; true means the start was rejected. */
  function React(sys: System, track: string, encoder: nat, at: Time, cue: Cue): (System, bool)
    requires Employs(sys, track, encoder)
  {
    var w := sys.workers[track][encoder];
    var out := Added(w, cue);
    var noted := SetWorker(sys, track, encoder, Heed(w, cue));
    if out.None? || Heard(out.value, encoder).None? then (noted, out == Some(W.Rejected))
    else (Tell(noted, Turn(at, Callback(track, Heard(out.value, encoder).value))), false)
  }

  function ReactAll(sys: System, track: string, encoder: nat, at: Time, cues: seq<Cue>): (System, bool)
    decreases |cues|
  {
    if cues == [] || !Employs(sys, track, encoder) then (sys, false)
    else
      var (next, rejected) := React(sys, track, encoder, at, cues[0]);
      var (end, later) := ReactAll(next, track, encoder, at, cues[1..]);
      (end, rejected || later)
  }

  function Next(sys: System, timed: Timed, classify: Classify): System {
    match timed.move
    case Environment(input) =>
      if input.Callback? && (input.event.Packet? || input.event.EncoderFails? || input.event.StartRejects?) then sys
      else Tell(sys, Turn(timed.at, input))
    case Signalled(track, encoder, signal) =>
      if !Employs(sys, track, encoder) || signal.Stop? then sys
      else
        var w := sys.workers[track][encoder];
        var read := SetWorker(sys, track, encoder, Buffered(w, signal));
        var (end, rejected) := ReactAll(read, track, encoder, timed.at, Cues(w, signal, classify));
        if rejected then Tell(end, Turn(timed.at, Callback(track, StartRejects(encoder)))) else end
  }

  function Run(sys: System, moves: seq<Timed>, classify: Classify): System
    decreases |moves|
  {
    if moves == [] then sys else Run(Next(sys, moves[0], classify), moves[1..], classify)
  }

  function Start(settings: Settings, framerates: map<string, Positive>, maxPipelines: nat): System {
    var sv := Configure(settings, framerates, maxPipelines);
    System(sv, map t | t in sv.sources :: Follow(sv.sources[t], map[]), [])
  }
}

/** Every run of supervised sources meets the assumption the one-encoder claim rests on. */
module SupervisedRuns {
  import opened Basics
  import opened MediaTypes
  import opened SourceModel
  import opened SourceInvariants
  import opened ServiceModel
  import opened ServiceRuns
  import opened SupervisedModel
  import opened Deframers
  import W = WorkerModel

  // ---- Cues are what the worker model does ----

  lemma {:induction false} HeedAllAppend(w: W.Worker, cues: seq<Cue>, more: seq<Cue>)
    ensures HeedAll(w, cues + more) == HeedAll(HeedAll(w, cues), more)
    decreases |cues|
  {
    if cues == [] {
      assert cues + more == more;
    } else {
      assert (cues + more)[1..] == cues[1..] + more;
      HeedAllAppend(Heed(w, cues[0]), cues[1..], more);
    }
  }

  lemma {:induction false} LineCuesHeeded(w: W.Worker, lines: seq<Bytes>, classify: Classify, rest: Bytes)
    ensures HeedAll(w.(lines := rest), LineCues(lines, classify)) == W.OnLines(w, lines, classify).(lines := rest)
    decreases |lines|
  {
    if lines != [] {
      var cues := LineCues(lines, classify);
      assert cues[1..] == LineCues(lines[1..], classify);
      LineCuesHeeded(W.OnLine(w, classify(lines[0])), lines[1..], classify, rest);
    }
  }

  lemma {:induction false} FrameCuesHeeded(w: W.Worker, packets: seq<Bytes>)
    ensures HeedAll(w, FrameCues(packets)) == w.(log := w.log + W.DeliveredAll(packets))
    decreases |packets|
  {
    if packets == [] {
      assert w.log + [] == w.log;
    } else {
      var cues := FrameCues(packets);
      assert cues[1..] == FrameCues(packets[1..]);
      FrameCuesHeeded(w.(log := w.log + [W.Delivered(packets[0])]), packets[1..]);
      Associative(w.log, [W.Delivered(packets[0])], W.DeliveredAll(packets[1..]));
    }
  }

  lemma TroubleHeeded(w: W.Worker, bad: bool)
    ensures HeedAll(w, TroubleIf(bad)) == W.FailIf(w, bad)
  {
    assert [Trouble][1..] == [];
  }

  /** Reacting to its cues one by one, a worker ends where the worker model puts it. */
  lemma CuesAreStep(w: W.Worker, signal: W.Signal, classify: Classify)
    requires !signal.Stop?
    ensures HeedAll(Buffered(w, signal), Cues(w, signal, classify)) == W.Step(w, signal, classify)
  {
    match signal
    case Output(chunk) =>
      var read := Lines(w.lines + chunk);
      HeedAllAppend(Buffered(w, signal), LineCues(read.items, classify), TroubleIf(|read.rest| > MAX_LINE));
      LineCuesHeeded(w, read.items, classify, read.rest);
      TroubleHeeded(W.OnLines(w, read.items, classify).(lines := read.rest), |read.rest| > MAX_LINE);
    case Rtp(chunk) =>
      var read := Packets(w.packets + chunk);
      HeedAllAppend(Buffered(w, signal), FrameCues(read.items), TroubleIf(read.bad));
      FrameCuesHeeded(Buffered(w, signal), read.items);
      TroubleHeeded(Buffered(w, signal).(log := w.log + W.DeliveredAll(read.items)), read.bad);
    case Exit => TroubleHeeded(w, true);
  }

  /** An encoder that goes into release is stopped as the worker model stops it. */
  lemma StopIsFollowed(s: Source, workers: map<nat, W.Worker>, encoder: nat, classify: Classify)
    requires s.release.Some? && s.release.value.encoder == encoder && encoder < s.created && encoder in workers
    requires workers[encoder].child == !workers[encoder].stopping
    ensures Follow(s, workers)[encoder] == W.Step(workers[encoder], W.Stop, classify)
  {}

  // ---- Workers and source agree on requested stops ----

  predicate StopRequested(s: Source, encoder: nat) {
    encoder !in s.live || (s.release.Some? && s.release.value.encoder == encoder)
  }

  ghost predicate Linked(s: Source, workers: map<nat, W.Worker>) {
    && Shape(s)
    && (forall e: nat :: e in workers <==> e < s.created)
    && (forall e: nat :: e in workers ==>
          && (workers[e].stopping <==> StopRequested(s, e)) && workers[e].child == !workers[e].stopping)
  }

  /** No turn forgets or invents a requested stop. */
  lemma StopsOnlyGrow(s: Source, now: Time, e: Event, encoder: nat)
    requires Shape(s)
    ensures var t := Step(s, now, e);
            && s.created <= t.created
            && (encoder < s.created ==>
                  (StopRequested(t, encoder) <==>
                     StopRequested(s, encoder) || (t.release.Some? && t.release.value.encoder == encoder)))
            && (s.created <= encoder < t.created ==> encoder in t.live)
  {
    if e.StopSettles? && s.release.Some? { SettleEffect(s, e.bursts); }
  }

  lemma LinkedStep(s: Source, now: Time, e: Event, workers: map<nat, W.Worker>)
    requires Linked(s, workers)
    ensures Linked(Step(s, now, e), Follow(Step(s, now, e), workers))
  {
    hide Step, Shape;
    var t := Step(s, now, e);
    var later := Follow(t, workers);
    ShapeStep(s, now, e);
    forall k: nat | k < t.created
      ensures (later[k].stopping <==> StopRequested(t, k)) && later[k].child == !later[k].stopping
    {
      StopsOnlyGrow(s, now, e, k);
    }
  }

  lemma LinkedStays(s: Source, workers: map<nat, W.Worker>)
    requires Linked(s, workers)
    ensures Linked(s, Follow(s, workers))
  {
    hide Shape;
  }

  ghost predicate AllLinked(sys: System) {
    && sys.workers.Keys == sys.sv.sources.Keys
    && (forall t :: t in sys.sv.sources ==> Linked(sys.sv.sources[t], sys.workers[t]))
  }

  lemma TellLinked(sys: System, turn: Turn)
    requires AllLinked(sys)
    ensures AllLinked(Tell(sys, turn)) && Tell(sys, turn).sv.sources.Keys == sys.sv.sources.Keys
  {
    hide Step, Linked, Follow;
    var later := Tell(sys, turn);
    forall t | t in sys.sv.sources ensures t in later.sv.sources && Linked(later.sv.sources[t], later.workers[t]) {
      ApplyTouches(sys.sv, turn, t);
      var e := EventFor(sys.sv, turn, t);
      if e.Some? {
        LinkedStep(sys.sv.sources[t], turn.at, e.value, sys.workers[t]);
      } else {
        LinkedStays(sys.sv.sources[t], sys.workers[t]);
      }
    }
  }

  /** What a worker hears or logs does not ask it to stop. */
  lemma SetWorkerLinked(sys: System, track: string, encoder: nat, w: W.Worker)
    requires AllLinked(sys) && Employs(sys, track, encoder)
    requires w.stopping == sys.workers[track][encoder].stopping && w.child == sys.workers[track][encoder].child
    ensures AllLinked(SetWorker(sys, track, encoder, w)) && Employs(SetWorker(sys, track, encoder, w), track, encoder)
  {
    hide Shape;
  }

  // ---- Encoders the source has moved on from ----

  /** A cue that makes a worker report trouble unless it was asked to stop. */
  predicate Failing(cue: Cue) {
    cue.Trouble? || (cue.Line? && cue.meaning != W.Acknowledges && cue.meaning != W.Irrelevant)
  }

  /**
   * What a superseded encoder sends never moves the source, with one exception: trouble from a stranded
   * encoder whose start is unanswered fails the source, whatever that source is doing by then.
   */
  lemma SupersededExactly(s: Source, workers: map<nat, W.Worker>, encoder: nat, cue: Cue, now: Time)
    requires Linked(s, workers) && encoder in workers && s.current != Some(encoder)
    ensures var out := Added(workers[encoder], cue);
            && (out == Some(W.Rejected) <==> Stranded(s, encoder) && !workers[encoder].settled && Failing(cue))
            && (out.Some? && Heard(out.value, encoder).Some? ==> Step(s, now, Heard(out.value, encoder).value) == s)
    ensures var t := Step(s, now, StartRejects(encoder));
            t.phase == Failed && t.viewers == [] && t.failedAt == Some(now)
  {
    hide Shape;
  }

  /** The worker of a superseded encoder that can no longer reject its start. */
  ghost predicate Spent(sys: System, track: string, encoder: nat) {
    && AllLinked(sys) && Employs(sys, track, encoder) && track in sys.sv.sources
    && sys.sv.sources[track].current != Some(encoder)
    && (sys.workers[track][encoder].settled || sys.workers[track][encoder].stopping)
  }

  lemma TellIgnored(sys: System, track: string, encoder: nat, at: Time, e: Event)
    requires Spent(sys, track, encoder) && FromEncoder(e) && Step(sys.sv.sources[track], at, e) == sys.sv.sources[track]
    ensures var later := Tell(sys, Turn(at, Callback(track, e))); Spent(later, track, encoder) && later.sv == sys.sv
  {
    hide Step, AllLinked, Apply;
    var turn := Turn(at, Callback(track, e));
    TellLinked(sys, turn);
    CallbackTouches(sys.sv, at, track, e);
    assert sys.sv.sources[track := sys.sv.sources[track]] == sys.sv.sources;
    EmployedCreated(sys, track, encoder);
    EmploysCreated(Tell(sys, turn), track, encoder);
  }

  lemma EmployedCreated(sys: System, track: string, encoder: nat)
    requires AllLinked(sys) && Employs(sys, track, encoder)
    ensures track in sys.sv.sources && encoder < sys.sv.sources[track].created
  {
    hide Shape;
    assert Linked(sys.sv.sources[track], sys.workers[track]);
  }

  lemma SpentHeeds(sys: System, track: string, encoder: nat, cue: Cue)
    requires Spent(sys, track, encoder)
    ensures Spent(SetWorker(sys, track, encoder, Heed(sys.workers[track][encoder], cue)), track, encoder)
  {
    hide Shape, Linked;
    SetWorkerLinked(sys, track, encoder, Heed(sys.workers[track][encoder], cue));
  }

  lemma SpentReacts(sys: System, track: string, encoder: nat, at: Time, cue: Cue)
    requires Spent(sys, track, encoder)
    ensures var (next, rejected) := React(sys, track, encoder, at, cue);
            Spent(next, track, encoder) && next.sv == sys.sv && !rejected
  {
    hide Step, Linked, Heed, Added, Heard, Tell, Spent;
    SpentUnfolds(sys, track, encoder);
    var w, s := sys.workers[track][encoder], sys.sv.sources[track];
    var out := Added(w, cue);
    SpentHeeds(sys, track, encoder, cue);
    SupersededExactly(s, sys.workers[track], encoder, cue, at);
    SpentNeverRejects(w, cue);
    if out.Some? && Heard(out.value, encoder).Some? {
      HeardBehaves(s, out.value, encoder);
      TellIgnored(SetWorker(sys, track, encoder, Heed(w, cue)), track, encoder, at, Heard(out.value, encoder).value);
    }
  }

  lemma SpentUnfolds(sys: System, track: string, encoder: nat)
    requires Spent(sys, track, encoder)
    ensures Employs(sys, track, encoder) && track in sys.sv.sources && encoder in sys.workers[track]
    ensures Linked(sys.sv.sources[track], sys.workers[track]) && sys.sv.sources[track].current != Some(encoder)
    ensures sys.workers[track][encoder].settled || sys.workers[track][encoder].stopping
  {
    hide Linked;
  }

  lemma SpentNeverRejects(w: W.Worker, cue: Cue)
    requires w.settled || w.stopping
    ensures Added(w, cue) != Some(W.Rejected)
  {}

  lemma {:induction false} SpentReactsAll(sys: System, track: string, encoder: nat, at: Time, cues: seq<Cue>)
    requires Spent(sys, track, encoder)
    ensures var (end, rejected) := ReactAll(sys, track, encoder, at, cues); end.sv == sys.sv && !rejected
    decreases |cues|
  {
    hide Spent, React;
    SpentUnfolds(sys, track, encoder);
    if cues != [] {
      SpentReacts(sys, track, encoder, at, cues[0]);
      SpentReactsAll(React(sys, track, encoder, at, cues[0]).0, track, encoder, at, cues[1..]);
    }
  }

  /** A whole signal of a superseded encoder leaves every source alone, unless its start can still be rejected. */
  lemma SpentSignalIgnored(sys: System, track: string, encoder: nat, signal: W.Signal, at: Time, classify: Classify)
    requires Spent(sys, track, encoder)
    ensures Next(sys, Timed(at, Signalled(track, encoder, signal)), classify).sv == sys.sv
  {
    hide ReactAll, Cues, Linked, Tell, Step;
    if !signal.Stop? {
      var w := sys.workers[track][encoder];
      var read := SetWorker(sys, track, encoder, Buffered(w, signal));
      SetWorkerLinked(sys, track, encoder, Buffered(w, signal));
      SpentReactsAll(read, track, encoder, at, Cues(w, signal, classify));
    }
  }

  /** Telling the source something leaves a worker as it is, unless it asks that worker to stop. */
  lemma TellWorker(sys: System, turn: Turn, track: string, encoder: nat)
    requires AllLinked(sys) && Employs(sys, track, encoder)
    ensures var w, later := sys.workers[track][encoder], Tell(sys, turn);
            && AllLinked(later) && Employs(later, track, encoder)
            && (w.stopping ==> later.workers[track][encoder].stopping)
            && (later.workers[track][encoder].stopping == w.stopping ==> later.workers[track][encoder] == w)
  {
    hide Step, Shape, Apply;
    TellLinked(sys, turn);
    EmployedCreated(sys, track, encoder);
    ApplyTouches(sys.sv, turn, track);
    assert Linked(sys.sv.sources[track], sys.workers[track]);
    if EventFor(sys.sv, turn, track).Some? {
      CreatedGrows(sys.sv.sources[track], turn.at, EventFor(sys.sv, turn, track).value);
    }
    EmploysCreated(Tell(sys, turn), track, encoder);
  }

  lemma CreatedGrows(s: Source, now: Time, e: Event)
    requires Shape(s)
    ensures s.created <= Step(s, now, e).created
  {
    hide Step, Shape;
    StopsOnlyGrow(s, now, e, 0);
  }

  lemma ReactWorker(sys: System, track: string, encoder: nat, at: Time, cue: Cue)
    requires AllLinked(sys) && Employs(sys, track, encoder)
    ensures var w, next := sys.workers[track][encoder], React(sys, track, encoder, at, cue).0;
            && AllLinked(next) && Employs(next, track, encoder)
            && (w.stopping ==> next.workers[track][encoder].stopping)
            && (next.workers[track][encoder].stopping == w.stopping ==> next.workers[track][encoder] == Heed(w, cue))
  {
    hide AllLinked, Tell, Added, Heard, Step;
    var w, out := sys.workers[track][encoder], Added(sys.workers[track][encoder], cue);
    var noted := SetWorker(sys, track, encoder, Heed(w, cue));
    SetWorkerLinked(sys, track, encoder, Heed(w, cue));
    if out.Some? && Heard(out.value, encoder).Some? {
      TellWorker(noted, Turn(at, Callback(track, Heard(out.value, encoder).value)), track, encoder);
    }
  }

  lemma {:induction false} ReactAllWorker(sys: System, track: string, encoder: nat, at: Time, cues: seq<Cue>)
    requires AllLinked(sys) && Employs(sys, track, encoder)
    ensures var w, end := sys.workers[track][encoder], ReactAll(sys, track, encoder, at, cues).0;
            && AllLinked(end) && Employs(end, track, encoder)
            && (w.stopping ==> end.workers[track][encoder].stopping)
            && (end.workers[track][encoder].stopping == w.stopping ==> end.workers[track][encoder] == HeedAll(w, cues))
    decreases |cues|
  {
    hide AllLinked, React, Heed;
    if cues != [] {
      ReactWorker(sys, track, encoder, at, cues[0]);
      ReactAllWorker(React(sys, track, encoder, at, cues[0]).0, track, encoder, at, cues[1..]);
    }
  }

  /** A signal takes its worker where the worker model does, unless what the source hears makes it ask for a stop. */
  lemma SignalIsStep(sys: System, track: string, encoder: nat, signal: W.Signal, at: Time, classify: Classify)
    requires AllLinked(sys) && Employs(sys, track, encoder) && !signal.Stop?
    ensures var w := sys.workers[track][encoder];
            var next := Next(sys, Timed(at, Signalled(track, encoder, signal)), classify);
            && Employs(next, track, encoder)
            && (next.workers[track][encoder].stopping == w.stopping ==>
                  next.workers[track][encoder] == W.Step(w, signal, classify))
  {
    hide AllLinked, ReactAll, HeedAll, Tell, Cues, W.Step;
    var w := sys.workers[track][encoder];
    var read := SetWorker(sys, track, encoder, Buffered(w, signal));
    SetWorkerLinked(sys, track, encoder, Buffered(w, signal));
    ReactAllWorker(read, track, encoder, at, Cues(w, signal, classify));
    CuesAreStep(w, signal, classify);
    var (end, rejected) := ReactAll(read, track, encoder, at, Cues(w, signal, classify));
    if rejected { TellWorker(end, Turn(at, Callback(track, StartRejects(encoder))), track, encoder); }
  }

  // ---- The turns are those of a prompt run ----

  /** Every stop under way is still prompt. */
  predicate PromptAt(sv: Service, now: Time) {
    forall t :: t in sv.sources ==> Prompt(sv.sources[t], now)
  }

  /** The turns taken so far lead from `first` to here, and none breaks the assumption of prompt runs. */
  ghost predicate Traced(sys: System, first: Service, last: Time, now: Time) {
    && sys.sv == ServiceModel.Run(first, sys.turns)
    && Clocked(sys.turns, last) && LastTime(sys.turns, last) <= now && PromptRun(first, sys.turns)
  }

  lemma {:induction false} ClockedAppend(turns: seq<Turn>, last: Time, turn: Turn)
    requires Clocked(turns, last) && LastTime(turns, last) <= turn.at
    ensures Clocked(turns + [turn], last)
    decreases |turns|
  {
    if turns == [] {
      assert [turn][1..] == [];
    } else {
      assert (turns + [turn])[1..] == turns[1..] + [turn];
      ClockedAppend(turns[1..], turns[0].at, turn);
    }
  }

  lemma {:induction false} PromptRunAppend(sv: Service, turns: seq<Turn>, turn: Turn)
    requires PromptRun(sv, turns) && PromptTurn(ServiceModel.Run(sv, turns), turn)
    ensures PromptRun(sv, turns + [turn])
    decreases |turns|
  {
    hide PromptTurn, Apply;
    if turns == [] {
      assert [turn][1..] == [] && [] + [turn] == [turn];
    } else {
      assert (turns + [turn])[1..] == turns[1..] + [turn];
      PromptRunAppend(Apply(sv, turns[0]), turns[1..], turn);
    }
  }

  lemma TellTraced(sys: System, turn: Turn, first: Service, last: Time)
    requires Traced(sys, first, last, turn.at) && PromptTurn(sys.sv, turn)
    ensures Traced(Tell(sys, turn), first, last, turn.at)
  {
    hide PromptTurn, Apply, Follow;
    RunAppend(first, sys.turns, turn);
    ClockedAppend(sys.turns, last, turn);
    PromptRunAppend(first, sys.turns, turn);
  }

  predicate FromEncoder(e: Event) {
    e.Packet? || e.EncoderFails? || e.StartRejects?
  }

  lemma PromptStays(s: Source, now: Time, e: Event)
    requires Prompt(s, now) && FromEncoder(e)
    ensures Prompt(Step(s, now, e), now)
  {}

  /** A start rejection the source may act on: its encoder is alive, and no start waits on its stop. */
  predicate Answerable(s: Source, encoder: nat) {
    encoder in s.live && (s.release.Some? && s.release.value.encoder == encoder ==> s.waiting == 0)
  }

  lemma AnswerableStays(s: Source, now: Time, e: Event, encoder: nat)
    requires Shape(s) && Answerable(s, encoder) && FromEncoder(e) && e.encoder == encoder && !e.StartRejects?
    ensures Answerable(Step(s, now, e), encoder)
  {}

  lemma CallbackTouches(sv: Service, at: Time, track: string, e: Event)
    requires track in sv.sources && FromEncoder(e)
    ensures Apply(sv, Turn(at, Callback(track, e)))
      == sv.(sources := sv.sources[track := Step(sv.sources[track], at, e)])
  {
    hide Step;
  }

  lemma CallbackPrompt(sv: Service, at: Time, track: string, e: Event)
    requires PromptAt(sv, at) && track in sv.sources && FromEncoder(e) && Behaved(sv.sources[track], e)
    ensures PromptTurn(sv, Turn(at, Callback(track, e))) && PromptAt(Apply(sv, Turn(at, Callback(track, e))), at)
  {
    hide Step, Prompt, Behaved;
    CallbackTouches(sv, at, track, e);
    PromptStays(sv.sources[track], at, e);
  }

  /** What holds while a signal is dealt with. */
  ghost predicate Steady(sys: System, first: Service, last: Time, now: Time) {
    AllLinked(sys) && Traced(sys, first, last, now) && PromptAt(sys.sv, now)
  }

  lemma TellSteady(sys: System, track: string, e: Event, first: Service, last: Time, now: Time)
    requires Steady(sys, first, last, now) && track in sys.sv.sources && FromEncoder(e)
    requires Behaved(sys.sv.sources[track], e)
    ensures var later := Tell(sys, Turn(now, Callback(track, e)));
            && Steady(later, first, last, now) && track in later.sv.sources
            && later.sv.sources[track] == Step(sys.sv.sources[track], now, e)
  {
    hide Step, Behaved, AllLinked, Traced, PromptAt, PromptTurn;
    var turn := Turn(now, Callback(track, e));
    TellLinked(sys, turn);
    CallbackPrompt(sys.sv, now, track, e);
    TellTraced(sys, turn, first, last);
    CallbackTouches(sys.sv, now, track, e);
  }

  /** A worker that rejects its start was not asked to stop. */
  lemma RejectsAnswerable(sys: System, track: string, encoder: nat, cue: Cue)
    requires AllLinked(sys) && Employs(sys, track, encoder)
    ensures var w := sys.workers[track][encoder];
            && track in sys.sv.sources && encoder < sys.sv.sources[track].created
            && Heed(w, cue).stopping == w.stopping && Heed(w, cue).child == w.child
            && (Added(w, cue) == Some(W.Rejected) ==> Answerable(sys.sv.sources[track], encoder))
  {
    hide Shape;
    assert Linked(sys.sv.sources[track], sys.workers[track]);
  }

  lemma EmploysCreated(sys: System, track: string, encoder: nat)
    requires AllLinked(sys) && track in sys.sv.sources && encoder < sys.sv.sources[track].created
    ensures Employs(sys, track, encoder)
  {
    hide Shape;
    assert Linked(sys.sv.sources[track], sys.workers[track]);
  }

  lemma LinkedShape(sys: System, track: string)
    requires AllLinked(sys) && track in sys.sv.sources
    ensures Shape(sys.sv.sources[track])
  {}

  lemma SetWorkerSteady(sys: System, track: string, encoder: nat, w: W.Worker, first: Service, last: Time, now: Time)
    requires Steady(sys, first, last, now) && Employs(sys, track, encoder)
    requires w.stopping == sys.workers[track][encoder].stopping && w.child == sys.workers[track][encoder].child
    ensures Steady(SetWorker(sys, track, encoder, w), first, last, now)
    ensures Employs(SetWorker(sys, track, encoder, w), track, encoder) && SetWorker(sys, track, encoder, w).sv == sys.sv
  {
    hide AllLinked, PromptAt, PromptRun;
    SetWorkerLinked(sys, track, encoder, w);
  }

  lemma HeardBehaves(s: Source, o: W.Out, encoder: nat)
    ensures var e := Heard(o, encoder);
            e.Some? ==>
              FromEncoder(e.value) && !e.value.StartRejects? && e.value.encoder == encoder && Behaved(s, e.value)
  {}

  lemma ReactKeeps(sys: System, track: string, encoder: nat, at: Time, cue: Cue, first: Service, last: Time)
    requires Steady(sys, first, last, at) && Employs(sys, track, encoder)
    ensures var (next, rejected) := React(sys, track, encoder, at, cue);
            && Steady(next, first, last, at) && Employs(next, track, encoder)
            && track in sys.sv.sources && track in next.sv.sources
            && (rejected || Answerable(sys.sv.sources[track], encoder) ==> Answerable(next.sv.sources[track], encoder))
  {
    hide AllLinked, Traced, PromptAt, Step, Behaved, Answerable, Heed, Added, Heard, SetWorker, Tell;
    var w := sys.workers[track][encoder];
    var out := Added(w, cue);
    RejectsAnswerable(sys, track, encoder, cue);
    SetWorkerSteady(sys, track, encoder, Heed(w, cue), first, last, at);
    var noted := SetWorker(sys, track, encoder, Heed(w, cue));
    if out.Some? && Heard(out.value, encoder).Some? {
      var e := Heard(out.value, encoder).value;
      HeardBehaves(noted.sv.sources[track], out.value, encoder);
      TellSteady(noted, track, e, first, last, at);
      LinkedShape(noted, track);
      StopsOnlyGrow(noted.sv.sources[track], at, e, encoder);
      EmploysCreated(Tell(noted, Turn(at, Callback(track, e))), track, encoder);
      if Answerable(noted.sv.sources[track], encoder) { AnswerableStays(noted.sv.sources[track], at, e, encoder); }
    }
  }

  lemma {:induction false} ReactAllKeeps(
      sys: System, track: string, encoder: nat, at: Time, cues: seq<Cue>, first: Service, last: Time)
    requires Steady(sys, first, last, at) && Employs(sys, track, encoder)
    ensures var (end, rejected) := ReactAll(sys, track, encoder, at, cues);
            && Steady(end, first, last, at) && Employs(end, track, encoder)
            && track in sys.sv.sources && track in end.sv.sources
            && (rejected || Answerable(sys.sv.sources[track], encoder) ==> Answerable(end.sv.sources[track], encoder))
    decreases |cues|
  {
    hide Steady, Answerable, React, Employs;
    if cues == [] {
      EmployedTrack(sys, track, encoder, first, last, at);
    } else {
      ReactKeeps(sys, track, encoder, at, cues[0], first, last);
      ReactAllKeeps(React(sys, track, encoder, at, cues[0]).0, track, encoder, at, cues[1..], first, last);
    }
  }

  lemma EmployedTrack(sys: System, track: string, encoder: nat, first: Service, last: Time, now: Time)
    requires Steady(sys, first, last, now) && Employs(sys, track, encoder)
    ensures track in sys.sv.sources
  {}

  lemma LaterTraced(sys: System, first: Service, last: Time, before: Time, now: Time)
    requires Traced(sys, first, last, before) && before <= now
    ensures Traced(sys, first, last, now)
  {}

  /** The stops under way when a move is made are all prompt; a move is made no earlier than the one before. */
  predicate PromptMove(sys: System, before: Time, timed: Timed) {
    before <= timed.at && PromptAt(sys.sv, timed.at)
  }

  predicate PromptMoves(sys: System, before: Time, moves: seq<Timed>, classify: Classify)
    decreases |moves|
  {
    moves != [] ==>
      PromptMove(sys, before, moves[0]) && PromptMoves(Next(sys, moves[0], classify), moves[0].at, moves[1..], classify)
  }

  lemma SignalKeeps(sys: System, track: string, encoder: nat, signal: W.Signal, at: Time, classify: Classify,
                    first: Service, last: Time)
    requires Steady(sys, first, last, at)
    ensures var next := Next(sys, Timed(at, Signalled(track, encoder, signal)), classify);
            AllLinked(next) && Traced(next, first, last, at)
  {
    hide AllLinked, Traced, PromptAt, SetWorker, ReactAll, Cues, Tell, Step;
    if Employs(sys, track, encoder) && !signal.Stop? {
      var w := sys.workers[track][encoder];
      SetWorkerSteady(sys, track, encoder, Buffered(w, signal), first, last, at);
      var read := SetWorker(sys, track, encoder, Buffered(w, signal));
      ReactAllKeeps(read, track, encoder, at, Cues(w, signal, classify), first, last);
      var (end, rejected) := ReactAll(read, track, encoder, at, Cues(w, signal, classify));
      if rejected { TellSteady(end, track, StartRejects(encoder), first, last, at); }
    }
  }

  lemma NextKeeps(sys: System, timed: Timed, classify: Classify, first: Service, last: Time, before: Time)
    requires AllLinked(sys) && Traced(sys, first, last, before) && PromptMove(sys, before, timed)
    ensures var next := Next(sys, timed, classify); AllLinked(next) && Traced(next, first, last, timed.at)
  {
    hide AllLinked, Traced, Tell, Step, Prompt;
    LaterTraced(sys, first, last, before, timed.at);
    match timed.move
    case Environment(input) =>
      TellLinked(sys, Turn(timed.at, input));
      if !(input.Callback? && FromEncoder(input.event)) {
        assert PromptTurn(sys.sv, Turn(timed.at, input));
        TellTraced(sys, Turn(timed.at, input), first, last);
      }
    case Signalled(track, encoder, signal) =>
      SignalKeeps(sys, track, encoder, signal, timed.at, classify, first, last);
  }

  lemma {:induction false} RunKeeps(
      sys: System, moves: seq<Timed>, classify: Classify, first: Service, last: Time, before: Time)
    returns (after: Time)
    requires AllLinked(sys) && Traced(sys, first, last, before) && PromptMoves(sys, before, moves, classify)
    ensures AllLinked(SupervisedModel.Run(sys, moves, classify))
    ensures Traced(SupervisedModel.Run(sys, moves, classify), first, last, after)
    decreases |moves|
  {
    hide AllLinked, Traced, PromptMove, Next;
    after := before;
    if moves != [] {
      NextKeeps(sys, moves[0], classify, first, last, before);
      after := RunKeeps(Next(sys, moves[0], classify), moves[1..], classify, first, last, moves[0].at);
    }
  }

  lemma StartLinked(settings: Settings, framerates: map<string, Positive>, maxPipelines: nat, last: Time)
    ensures var sys := Start(settings, framerates, maxPipelines);
            AllLinked(sys) && Traced(sys, Configure(settings, framerates, maxPipelines), last, last)
  {}

  /**
   * Whatever the workers output and however they exit: while each stop settles before the grace and start
   * intervals have passed since it began, no track has two encoders, current and released together, and the
   * host has no more than `maxPipelines`.
   */
  lemma OneWorkerPerTrack(settings: Settings, framerates: map<string, Positive>, maxPipelines: nat,
                          moves: seq<Timed>, classify: Classify, last: Time)
    requires PromptMoves(Start(settings, framerates, maxPipelines), last, moves, classify)
    ensures var sv := SupervisedModel.Run(Start(settings, framerates, maxPipelines), moves, classify).sv;
            && (forall t :: t in sv.sources ==> |sv.sources[t].live| <= 1 && sv.sources[t].live == Held(sv.sources[t]))
            && |LiveEncoders(sv)| <= maxPipelines
  {
    hide AllLinked, PromptMoves, SupervisedModel.Run, SupervisedModel.Start, Configure;
    var first := Configure(settings, framerates, maxPipelines);
    var start := Start(settings, framerates, maxPipelines);
    StartLinked(settings, framerates, maxPipelines, last);
    var after := RunKeeps(start, moves, classify, first, last, last);
    OneEncoderPerTrack(settings, framerates, maxPipelines, SupervisedModel.Run(start, moves, classify).turns, last);
  }
}
