/** Supervision of one encoder worker: what its output, its exit and a requested stop make it report. */
module WorkerModel {
  import opened Basics
  import opened Deframers

  /** What a control line means; the text itself is not modelled. */
  datatype Meaning = Malformed | WrongVersion | ReportsFailure | Acknowledges | Irrelevant

  /** What the media plane sees of a worker. */
  datatype Out = Delivered(packet: Bytes) | Resolved | Rejected | ReportedFailed

  datatype Worker = Worker(child: bool, stopping: bool, settled: bool, lines: Bytes, packets: Bytes, log: seq<Out>)

  datatype Signal = Output(chunk: Bytes) | Rtp(chunk: Bytes) | Exit | Stop

  function Started(): Worker {
    Worker(true, false, false, [], [], [])
  }

  /** Settle once, report a failure after settling, and stay silent once a stop was requested. */
  function Fail(w: Worker): Worker {
    if w.stopping then w
    else if w.settled then w.(log := w.log + [ReportedFailed])
    else w.(settled := true, log := w.log + [Rejected])
  }

  function OnLine(w: Worker, meaning: Meaning): Worker {
    match meaning
    case Malformed => Fail(w)
    case WrongVersion => Fail(w)
    case ReportsFailure => Fail(w)
    case Acknowledges => if w.settled then w else w.(settled := true, log := w.log + [Resolved])
    case Irrelevant => w
  }

  function OnLines(w: Worker, lines: seq<Bytes>, classify: Bytes -> Meaning): Worker
    decreases |lines|
  {
    if lines == [] then w else OnLines(OnLine(w, classify(lines[0])), lines[1..], classify)
  }

  function DeliveredAll(packets: seq<Bytes>): seq<Out> {
    if packets == [] then [] else [Delivered(packets[0])] + DeliveredAll(packets[1..])
  }

  function FailIf(w: Worker, failed: bool): Worker {
    if failed then Fail(w) else w
  }

  function Step(w: Worker, signal: Signal, classify: Bytes -> Meaning): Worker {
    match signal
    case Output(chunk) =>
      var read := Lines(w.lines + chunk);
      FailIf(OnLines(w, read.items, classify).(lines := read.rest), |read.rest| > MAX_LINE)
    case Rtp(chunk) =>
      var read := Packets(w.packets + chunk);
      FailIf(w.(packets := read.rest, log := w.log + DeliveredAll(read.items)), read.bad)
    case Exit => Fail(w)
    case Stop => if w.child then w.(child := false, stopping := true) else w
  }

  function Run(w: Worker, signals: seq<Signal>, classify: Bytes -> Meaning): Worker
    decreases |signals|
  {
    if signals == [] then w else Run(Step(w, signals[0], classify), signals[1..], classify)
  }

  predicate Trouble(o: Out) {
    o == Rejected || o == ReportedFailed
  }

  /** The second worker reports no trouble beyond what the first one reported. */
  predicate Quiet(w: Worker, later: Worker) {
    w.log <= later.log && forall i :: |w.log| <= i < |later.log| ==> !Trouble(later.log[i])
  }

  lemma {:induction false} LinesQuiet(w: Worker, lines: seq<Bytes>, classify: Bytes -> Meaning)
    requires w.stopping
    ensures var later := OnLines(w, lines, classify); later.stopping && Quiet(w, later)
    decreases |lines|
  {
    if lines != [] { LinesQuiet(OnLine(w, classify(lines[0])), lines[1..], classify); }
  }

  lemma {:induction false} DeliveriesQuiet(packets: seq<Bytes>)
    ensures forall i :: 0 <= i < |DeliveredAll(packets)| ==> DeliveredAll(packets)[i].Delivered?
  {
    if packets != [] { DeliveriesQuiet(packets[1..]); }
  }

  lemma StepQuiet(w: Worker, signal: Signal, classify: Bytes -> Meaning)
    requires w.stopping
    ensures var later := Step(w, signal, classify); later.stopping && Quiet(w, later)
  {
    match signal
    case Output(chunk) => LinesQuiet(w, Lines(w.lines + chunk).items, classify);
    case Rtp(chunk) => DeliveriesQuiet(Packets(w.packets + chunk).items);
    case Exit =>
    case Stop =>
  }

  /** Once a stop is requested, no line, frame, garbage or exit is ever reported as trouble again. */
  lemma {:induction false} QuietOnceStopped(w: Worker, signals: seq<Signal>, classify: Bytes -> Meaning)
    requires w.stopping
    ensures var later := Run(w, signals, classify); later.stopping && Quiet(w, later)
    decreases |signals|
  {
    if signals != [] {
      StepQuiet(w, signals[0], classify);
      QuietOnceStopped(Step(w, signals[0], classify), signals[1..], classify);
    }
  }

  /** The start is answered at most once, before any failure is reported, and only a settled worker reports one. */
  predicate SettledOnce(w: Worker) {
    && (forall i :: 0 <= i < |w.log| && (w.log[i] == Resolved || w.log[i] == Rejected) ==>
          w.settled && forall j :: 0 <= j < |w.log| && j != i ==> w.log[j] != Resolved && w.log[j] != Rejected)
    && (forall i :: 0 <= i < |w.log| && w.log[i] == ReportedFailed ==>
          exists j :: 0 <= j < i && (w.log[j] == Resolved || w.log[j] == Rejected))
    && (w.settled ==> exists i :: 0 <= i < |w.log| && (w.log[i] == Resolved || w.log[i] == Rejected))
  }

  lemma AppendSettled(w: Worker, o: Out)
    requires SettledOnce(w) && (o == ReportedFailed ==> w.settled) && ((o == Resolved || o == Rejected) ==> !w.settled)
    ensures SettledOnce(w.(settled := w.settled || o == Resolved || o == Rejected, log := w.log + [o]))
  {
    var later := w.(settled := w.settled || o == Resolved || o == Rejected, log := w.log + [o]);
    assert later.log[|w.log|] == o;
    assert forall i :: 0 <= i < |w.log| ==> later.log[i] == w.log[i];
  }

  lemma FailSettled(w: Worker)
    requires SettledOnce(w)
    ensures SettledOnce(Fail(w))
  {
    if !w.stopping { AppendSettled(w, if w.settled then ReportedFailed else Rejected); }
  }

  lemma {:induction false} LinesSettled(w: Worker, lines: seq<Bytes>, classify: Bytes -> Meaning)
    requires SettledOnce(w)
    ensures SettledOnce(OnLines(w, lines, classify))
    decreases |lines|
  {
    if lines != [] {
      FailSettled(w);
      if !w.settled { AppendSettled(w, Resolved); }
      LinesSettled(OnLine(w, classify(lines[0])), lines[1..], classify);
    }
  }

  lemma {:induction false} PacketsSettled(w: Worker, packets: seq<Bytes>)
    requires SettledOnce(w)
    ensures SettledOnce(w.(log := w.log + DeliveredAll(packets)))
    decreases |packets|
  {
    if packets == [] {
      assert w.log + [] == w.log;
    } else {
      AppendSettled(w, Delivered(packets[0]));
      PacketsSettled(w.(log := w.log + [Delivered(packets[0])]), packets[1..]);
      Associative(w.log, [Delivered(packets[0])], DeliveredAll(packets[1..]));
    }
  }

  lemma StepSettled(w: Worker, signal: Signal, classify: Bytes -> Meaning)
    requires SettledOnce(w)
    ensures SettledOnce(Step(w, signal, classify))
  {
    match signal
    case Output(chunk) =>
      var read := Lines(w.lines + chunk);
      LinesSettled(w, read.items, classify);
      FailSettled(OnLines(w, read.items, classify).(lines := read.rest));
    case Rtp(chunk) =>
      var read := Packets(w.packets + chunk);
      PacketsSettled(w, read.items);
      FailSettled(w.(packets := read.rest, log := w.log + DeliveredAll(read.items)));
    case Exit => FailSettled(w);
    case Stop =>
  }

  lemma {:induction false} RunSettled(w: Worker, signals: seq<Signal>, classify: Bytes -> Meaning)
    requires SettledOnce(w)
    ensures SettledOnce(Run(w, signals, classify))
    decreases |signals|
  {
    if signals != [] {
      StepSettled(w, signals[0], classify);
      RunSettled(Step(w, signals[0], classify), signals[1..], classify);
    }
  }

  /** On every run of a worker its start is answered at most once and failures are reported only after that. */
  lemma EveryWorker(signals: seq<Signal>, classify: Bytes -> Meaning)
    ensures SettledOnce(Run(Started(), signals, classify))
  {
    RunSettled(Started(), signals, classify);
  }
}

/** The supervised worker as an object. */
module Workers {
  import opened Basics
  import opened Deframers
  import M = WorkerModel
  import opened WorkerModel

  class WorkerSource {
    const classify: Bytes -> Meaning
    var child: bool
    var stopping: bool
    var settled: bool
    const lines: LineReader
    const packets: PacketReader
    var log: seq<Out>

    ghost function View(): Worker
      reads this, lines, packets
    {
      Worker(child, stopping, settled, lines.pending, packets.pending, log)
    }

    constructor (classify: Bytes -> Meaning)
      ensures View() == Started() && this.classify == classify && fresh(lines) && fresh(packets)
    {
      this.classify := classify;
      lines := new LineReader();
      packets := new PacketReader();
      child, stopping, settled, log := true, false, false, [];
    }

    method Fail()
      modifies this
      ensures View() == M.Fail(old(View()))
    {
      if stopping { return; }
      if settled {
        log := log + [ReportedFailed];
        return;
      }
      settled := true;
      log := log + [Rejected];
    }

    method OnLine(line: Bytes)
      modifies this
      ensures View() == M.OnLine(old(View()), classify(line))
    {
      match classify(line)
      case Malformed => Fail();
      case WrongVersion => Fail();
      case ReportsFailure => Fail();
      case Acknowledges =>
        if !settled {
          settled := true;
          log := log + [Resolved];
        }
      case Irrelevant =>
    }

    method OnOutput(chunk: Bytes)
      modifies this, lines
      ensures View() == M.Step(old(View()), Output(chunk), classify)
    {
      var emitted, failed := lines.Feed(chunk);
      ghost var end := OnLines(View(), emitted, classify);
      for i := 0 to |emitted|
        modifies this
        invariant OnLines(View(), emitted[i..], classify) == end
      {
        assert emitted[i..][1..] == emitted[i + 1..];
        OnLine(emitted[i]);
      }
      LinesFrame(old(View()), lines.pending, emitted, classify);
      if failed { Fail(); }
    }

    /** The buffered bytes play no part in what the lines mean. */
    static lemma {:induction false} LinesFrame(w: Worker, pending: Bytes, lines: seq<Bytes>, classify: Bytes -> Meaning)
      ensures OnLines(w.(lines := pending), lines, classify) == OnLines(w, lines, classify).(lines := pending)
      decreases |lines|
    {
      if lines != [] { LinesFrame(M.OnLine(w, classify(lines[0])), pending, lines[1..], classify); }
    }

    method OnRtp(chunk: Bytes)
      modifies this, packets
      ensures View() == M.Step(old(View()), Rtp(chunk), classify)
    {
      var read, failed := packets.Feed(chunk);
      for i := 0 to |read|
        modifies this`log
        invariant log + DeliveredAll(read[i..]) == old(log) + DeliveredAll(read)
      {
        assert read[i..][1..] == read[i + 1..];
        Associative(log, [Delivered(read[i])], DeliveredAll(read[i + 1..]));
        log := log + [Delivered(read[i])];
      }
      if failed { Fail(); }
    }

    method OnExit()
      modifies this
      ensures View() == M.Step(old(View()), Exit, classify)
    {
      Fail();
    }

    method Stop()
      modifies this
      ensures View() == M.Step(old(View()), M.Signal.Stop, classify)
    {
      if !child { return; }
      child, stopping := false, true;
    }
  }
}
