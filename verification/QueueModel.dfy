/**
 * The bounded send queue of one peer, with the history its claims speak of: per stream, every message
 * offered, the offers already taken, and the offers lost.
 */
module QueueModel {
  import opened Basics
  import opened Validation

  type Bytes = seq<Byte>

  datatype Policy = Latest | Reliable

  datatype Stream = Stream(
    policy: Policy, maxMessages: Positive, pending: seq<Bytes>, stopped: bool,
    offered: seq<Bytes>, taken: seq<nat>, lost: nat)

  /** `retired` counts the losses of streams closed since. */
  datatype Queue = Queue(
    maxStreams: Positive, maxBytes: Positive, maxMessageBytes: Positive,
    streams: map<string, Stream>, bytes: int, dropped: nat, retired: nat)

  function Initial(maxStreams: Positive, maxBytes: Positive, maxMessageBytes: Positive): Queue {
    Queue(maxStreams, maxBytes, maxMessageBytes, map[], 0, 0, 0)
  }

  function Weight(messages: seq<Bytes>): nat {
    if messages == [] then 0 else |messages[0]| + Weight(messages[1..])
  }

  function RegisterRefusal(q: Queue, id: string, policy: Policy, maxMessages: int): (refused: Option<string>)
    ensures refused.None? ==>
      maxMessages > 0 && (policy == Latest ==> maxMessages == 1) && id !in q.streams && |q.streams| < q.maxStreams
  {
    if !Identifier(id) then Some("invalid_identifier")
    else if !PositiveLimit(maxMessages) then Some("invalid_limit")
    else if policy == Latest && maxMessages != 1 then Some("invalid_limit")
    else if id in q.streams then Some("duplicate_stream")
    else if |q.streams| >= q.maxStreams then Some("stream_limit")
    else None
  }

  function Register(q: Queue, id: string, policy: Policy, maxMessages: int): (Queue, Result<()>) {
    var refused := RegisterRefusal(q, id, policy, maxMessages);
    if refused.Some? then (q, Err(refused.value))
    else (q.(streams := q.streams[id := Stream(policy, maxMessages, [], false, [], [], 0)]), Ok(()))
  }

  /** The stream, unless it is unknown or stopped. */
  function Running(q: Queue, id: string): Result<Stream> {
    if id !in q.streams then Err("unknown_stream")
    else if q.streams[id].stopped then Err("slow_consumer")
    else Ok(q.streams[id])
  }

  predicate Acceptable(q: Queue, message: Bytes) {
    0 < |message| <= q.maxMessageBytes
  }

  /** A latest stream makes room by discarding the sample it holds. */
  function MakeRoom(q: Queue, id: string): Queue
    requires id in q.streams
  {
    var s := q.streams[id];
    if s.policy == Latest then
      q.(streams := q.streams[id := s.(pending := [], lost := s.lost + |s.pending|)],
         bytes := q.bytes - Weight(s.pending), dropped := q.dropped + |s.pending|)
    else q
  }

  /** Store the message; true means stored, false dropped, and an error stops a reliable stream for good. */
  function Enqueue(q: Queue, id: string, message: Bytes): (Queue, Result<bool>) {
    if Running(q, id).Err? then (q, Err(Running(q, id).reason))
    else if !Acceptable(q, message) then (q, Err("message_size"))
    else
      Admit(MakeRoom(q, id), id, message)
  }

  /** The capacity decision, once a latest stream has made room. */
  function Admit(room: Queue, id: string, message: Bytes): (Queue, Result<bool>)
    requires id in room.streams
  {
    var s := room.streams[id];
    if |s.pending| >= s.maxMessages || |message| > room.maxBytes - room.bytes then
      if s.policy == Reliable then
        (room.(streams := room.streams[id := s.(pending := [], stopped := true, offered := s.offered + [message])],
               bytes := room.bytes - Weight(s.pending)),
         Err("slow_consumer"))
      else
        (room.(streams := room.streams[id := s.(offered := s.offered + [message], lost := s.lost + 1)],
               dropped := room.dropped + 1),
         Ok(false))
    else
      (room.(streams := room.streams[id := s.(pending := s.pending + [message], offered := s.offered + [message])],
             bytes := room.bytes + |message|),
       Ok(true))
  }

  function Dequeue(q: Queue, id: string): (Queue, Result<Option<Bytes>>) {
    var running := Running(q, id);
    if running.Err? then (q, Err(running.reason))
    else
      var s := running.value;
      if s.pending == [] then (q, Ok(None))
      else
        (q.(streams := q.streams[id := s.(pending := s.pending[1..], taken := s.taken + [Oldest(s)])],
            bytes := q.bytes - |s.pending[0]|),
         Ok(Some(s.pending[0])))
  }

  /** The offer the head of the stream is. */
  function Oldest(s: Stream): nat {
    |s.taken| + s.lost
  }

  function Peek(q: Queue, id: string): Result<Option<Bytes>> {
    var running := Running(q, id);
    if running.Err? then Err(running.reason)
    else if running.value.pending == [] then Ok(None)
    else Ok(Some(running.value.pending[0]))
  }

  function CloseStream(q: Queue, id: string): (Queue, Result<()>) {
    if id !in q.streams then (q, Err("unknown_stream"))
    else (q.(streams := q.streams - {id}, bytes := q.bytes - Weight(q.streams[id].pending),
             retired := q.retired + q.streams[id].lost), Ok(()))
  }

  function Clear(q: Queue): Queue {
    q.(streams := map[], bytes := 0, retired := q.dropped)
  }
}

/** Queue accounting and delivery, on every run. */
module QueueSafety {
  import opened Basics
  import opened QueueModel
  import opened Sums

  const PENDING: Stream -> nat := (s: Stream) => Weight(s.pending)
  const LOST: Stream -> nat := (s: Stream) => s.lost

  predicate Increasing(indices: seq<nat>) {
    forall i, j :: 0 <= i < j < |indices| ==> indices[i] < indices[j]
  }

  /** The first `n` natural numbers. */
  function Counting(n: nat): (numbers: seq<nat>)
    ensures |numbers| == n && forall i :: 0 <= i < n ==> numbers[i] == i
  {
    seq(n, (i: nat) => i)
  }

  /** What the history of one stream says about what it holds. */
  predicate StreamSafe(s: Stream) {
    && |s.pending| <= s.maxMessages && |s.pending| <= |s.offered|
    && (s.stopped ==> s.policy == Reliable && s.pending == [])
    && s.pending == (if s.stopped then [] else s.offered[|s.offered| - |s.pending|..])
    && (forall i :: 0 <= i < |s.taken| ==> s.taken[i] < |s.offered| - |s.pending|)
    && Increasing(s.taken)
    && (s.policy == Reliable ==> s.taken == Counting(|s.taken|) && s.lost == 0)
    && (s.policy == Reliable && !s.stopped ==> |s.taken| + |s.pending| == |s.offered|)
    && (s.policy == Latest ==> s.maxMessages == 1 && |s.taken| + |s.pending| + s.lost == |s.offered|)
  }

  predicate StreamsSafe(streams: map<string, Stream>) {
    forall id :: id in streams ==> StreamSafe(streams[id])
  }

  ghost predicate Safe(q: Queue) {
    StreamsSafe(q.streams) && Totalled(q)
  }

  ghost predicate Totalled(q: Queue) {
    && q.bytes == Sum(q.streams, PENDING) && q.bytes <= q.maxBytes
    && q.dropped == Sum(q.streams, LOST) + q.retired
    && |q.streams| <= q.maxStreams
  }

  lemma {:induction false} WeightAppend(messages: seq<Bytes>, message: Bytes)
    ensures Weight(messages + [message]) == Weight(messages) + |message|
  {
    if messages == [] {
      assert messages + [message] == [message];
    } else {
      assert (messages + [message])[1..] == messages[1..] + [message];
      WeightAppend(messages[1..], message);
    }
  }

  lemma StreamsUpdate(streams: map<string, Stream>, id: string, s: Stream)
    requires StreamsSafe(streams) && StreamSafe(s)
    ensures StreamsSafe(streams[id := s])
  {}

  lemma TotalsUpdate(q: Queue, id: string, s: Stream, later: Queue)
    requires Totalled(q) && id in q.streams
    requires later == q.(streams := q.streams[id := s], bytes := later.bytes, dropped := later.dropped)
    requires later.bytes == q.bytes + Weight(s.pending) - Weight(q.streams[id].pending) && later.bytes <= q.maxBytes
    requires later.dropped == q.dropped + s.lost - q.streams[id].lost
    ensures Totalled(later)
  {
    SumUpdate(q.streams, PENDING, id, s);
    SumUpdate(q.streams, LOST, id, s);
    assert q.streams[id := s].Keys == q.streams.Keys;
    assert |q.streams[id := s]| == |q.streams[id := s].Keys| == |q.streams|;
  }

  /** Changing one stream moves the totals by what changes in it. */
  lemma UpdateSafe(q: Queue, id: string, s: Stream, later: Queue)
    requires Safe(q) && id in q.streams && StreamSafe(s)
    requires later == q.(streams := q.streams[id := s], bytes := later.bytes, dropped := later.dropped)
    requires later.bytes == q.bytes + Weight(s.pending) - Weight(q.streams[id].pending) && later.bytes <= q.maxBytes
    requires later.dropped == q.dropped + s.lost - q.streams[id].lost
    ensures Safe(later)
  {
    hide StreamSafe, Totalled;
    StreamsUpdate(q.streams, id, s);
    TotalsUpdate(q, id, s, later);
  }

  lemma EmptySafe(policy: Policy, maxMessages: Positive)
    requires policy == Latest ==> maxMessages == 1
    ensures StreamSafe(Stream(policy, maxMessages, [], false, [], [], 0))
  {}

  lemma RegisterSafe(q: Queue, id: string, policy: Policy, maxMessages: int)
    requires Safe(q)
    ensures Safe(Register(q, id, policy, maxMessages).0)
  {
    hide Safe, StreamSafe;
    if RegisterRefusal(q, id, policy, maxMessages).None? {
      EmptySafe(policy, maxMessages);
      FreshSafe(q, id, Stream(policy, maxMessages, [], false, [], [], 0));
    }
  }

  lemma FreshSafe(q: Queue, id: string, s: Stream)
    requires Safe(q) && id !in q.streams && |q.streams| < q.maxStreams
    requires s.pending == [] && s.lost == 0 && StreamSafe(s)
    ensures Safe(q.(streams := q.streams[id := s]))
  {
    hide StreamSafe, Totalled;
    StreamsUpdate(q.streams, id, s);
    FreshTotals(q, id, s);
  }

  lemma FreshTotals(q: Queue, id: string, s: Stream)
    requires Totalled(q) && id !in q.streams && |q.streams| < q.maxStreams && s.pending == [] && s.lost == 0
    ensures Totalled(q.(streams := q.streams[id := s]))
  {
    SumUpdate(q.streams, PENDING, id, s);
    SumUpdate(q.streams, LOST, id, s);
    assert q.streams[id := s].Keys == q.streams.Keys + {id};
  }

  lemma BudgetKept(q: Queue)
    requires Safe(q)
    ensures q.bytes <= q.maxBytes
  {
    hide StreamsSafe;
  }

  lemma PendingWeight(q: Queue, id: string)
    requires Safe(q) && id in q.streams
    ensures Weight(q.streams[id].pending) <= q.bytes
  {
    SumWithout(q.streams, PENDING, id);
  }

  lemma MakeRoomSafe(q: Queue, id: string)
    requires Safe(q) && Running(q, id).Ok?
    ensures Safe(MakeRoom(q, id)) && id in MakeRoom(q, id).streams && !MakeRoom(q, id).streams[id].stopped
    ensures MakeRoom(q, id).streams[id].policy == Latest ==> MakeRoom(q, id).streams[id].pending == []
  {
    hide Totalled;
    if q.streams[id].policy == Latest {
      var s := q.streams[id];
      PendingWeight(q, id);
      BudgetKept(q);
      UpdateSafe(q, id, s.(pending := [], lost := s.lost + |s.pending|), MakeRoom(q, id));
    }
  }

  /** The three ways a stream with room to be checked takes an offer. */
  lemma OfferSafe(s: Stream, message: Bytes)
    requires StreamSafe(s) && !s.stopped && (s.policy == Latest ==> s.pending == [])
    ensures |s.pending| < s.maxMessages ==>
      StreamSafe(s.(pending := s.pending + [message], offered := s.offered + [message]))
    ensures s.policy == Reliable ==> StreamSafe(s.(pending := [], stopped := true, offered := s.offered + [message]))
    ensures s.policy == Latest ==> StreamSafe(s.(offered := s.offered + [message], lost := s.lost + 1))
  {}

  lemma EnqueueSafe(q: Queue, id: string, message: Bytes)
    requires Safe(q)
    ensures Safe(Enqueue(q, id, message).0)
  {
    hide Safe, MakeRoom, Admit;
    if Running(q, id).Ok? && Acceptable(q, message) {
      MakeRoomSafe(q, id);
      AdmitSafe(MakeRoom(q, id), id, message);
    }
  }

  lemma AdmitSafe(room: Queue, id: string, message: Bytes)
    requires Safe(room) && id in room.streams && !room.streams[id].stopped
    requires room.streams[id].policy == Latest ==> room.streams[id].pending == []
    ensures Safe(Admit(room, id, message).0)
  {
    hide Totalled;
    var s := room.streams[id];
    var later := Admit(room, id, message).0;
    BudgetKept(room);
    PendingWeight(room, id);
    WeightAppend(s.pending, message);
    OfferSafe(s, message);
    UpdateSafe(room, id, later.streams[id], later);
  }

  /** A stream whose head is taken. */
  lemma TakeSafe(s: Stream)
    requires StreamSafe(s) && s.pending != []
    ensures StreamSafe(s.(pending := s.pending[1..], taken := s.taken + [Oldest(s)]))
  {
    hide Counting;
    var n, t := |s.offered| - |s.pending|, s.taken + [Oldest(s)];
    assert s.pending[1..] == s.offered[n + 1..];
    assert s.policy == Reliable ==> t == Counting(|t|);
  }

  lemma DequeueSafe(q: Queue, id: string)
    requires Safe(q)
    ensures Safe(Dequeue(q, id).0)
  {
    hide StreamSafe, Totalled, Oldest;
    if Running(q, id).Ok? && q.streams[id].pending != [] {
      var later := Dequeue(q, id).0;
      TakeSafe(q.streams[id]);
      BudgetKept(q);
      assert Weight(q.streams[id].pending) == |q.streams[id].pending[0]| + Weight(q.streams[id].pending[1..]);
      UpdateSafe(q, id, later.streams[id], later);
    }
  }

  lemma CloseStreamSafe(q: Queue, id: string)
    requires Safe(q)
    ensures Safe(CloseStream(q, id).0)
  {
    if id in q.streams {
      SumWithout(q.streams, PENDING, id);
      SumWithout(q.streams, LOST, id);
      assert |(q.streams - {id}).Keys| <= |q.streams.Keys|;
    }
  }

  lemma ClearSafe(q: Queue)
    requires Safe(q)
    ensures Safe(Clear(q))
  {}

  // ---- The streams alone ----

  /** Discarding the sample a latest stream holds. */
  lemma RoomSafe(s: Stream)
    requires StreamSafe(s) && s.policy == Latest
    ensures StreamSafe(s.(pending := [], lost := s.lost + |s.pending|))
  {}

  lemma MakeRoomStreams(q: Queue, id: string)
    requires StreamsSafe(q.streams) && Running(q, id).Ok?
    ensures var room := MakeRoom(q, id);
            && StreamsSafe(room.streams) && id in room.streams && !room.streams[id].stopped
            && (room.streams[id].policy == Latest ==> room.streams[id].pending == [])
  {
    hide StreamSafe;
    var s := q.streams[id];
    if s.policy == Latest {
      RoomSafe(s);
      StreamsUpdate(q.streams, id, s.(pending := [], lost := s.lost + |s.pending|));
    }
  }

  lemma AdmitStreams(room: Queue, id: string, message: Bytes)
    requires StreamsSafe(room.streams) && id in room.streams && !room.streams[id].stopped
    requires room.streams[id].policy == Latest ==> room.streams[id].pending == []
    ensures StreamsSafe(Admit(room, id, message).0.streams)
  {
    hide StreamSafe;
    OfferSafe(room.streams[id], message);
    StreamsUpdate(room.streams, id, Admit(room, id, message).0.streams[id]);
  }

  lemma EnqueueStreams(q: Queue, id: string, message: Bytes)
    requires StreamsSafe(q.streams)
    ensures StreamsSafe(Enqueue(q, id, message).0.streams)
  {
    hide StreamSafe, MakeRoom, Admit;
    if Running(q, id).Ok? && Acceptable(q, message) {
      MakeRoomStreams(q, id);
      AdmitStreams(MakeRoom(q, id), id, message);
    }
  }

  lemma DequeueStreams(q: Queue, id: string)
    requires StreamsSafe(q.streams)
    ensures StreamsSafe(Dequeue(q, id).0.streams)
  {
    hide StreamSafe, Oldest;
    if Running(q, id).Ok? && q.streams[id].pending != [] {
      TakeSafe(q.streams[id]);
      StreamsUpdate(q.streams, id, Dequeue(q, id).0.streams[id]);
    }
  }

  lemma RegisterStreams(q: Queue, id: string, policy: Policy, maxMessages: int)
    requires StreamsSafe(q.streams)
    ensures StreamsSafe(Register(q, id, policy, maxMessages).0.streams)
  {
    hide StreamSafe;
    if RegisterRefusal(q, id, policy, maxMessages).None? {
      EmptySafe(policy, maxMessages);
      StreamsUpdate(q.streams, id, Stream(policy, maxMessages, [], false, [], [], 0));
    }
  }

  datatype Op =
    | DoRegister(id: string, policy: Policy, maxMessages: int)
    | DoEnqueue(id: string, message: Bytes)
    | DoDequeue(id: string)
    | DoClose(id: string)
    | DoClear

  function Apply(q: Queue, op: Op): Queue {
    match op
    case DoRegister(id, policy, maxMessages) => Register(q, id, policy, maxMessages).0
    case DoEnqueue(id, message) => Enqueue(q, id, message).0
    case DoDequeue(id) => Dequeue(q, id).0
    case DoClose(id) => CloseStream(q, id).0
    case DoClear => Clear(q)
  }

  function Run(q: Queue, ops: seq<Op>): Queue
    decreases |ops|
  {
    if ops == [] then q else Run(Apply(q, ops[0]), ops[1..])
  }

  lemma ApplySafe(q: Queue, op: Op)
    requires Safe(q)
    ensures Safe(Apply(q, op))
  {
    hide Safe, Register, Enqueue, Dequeue, CloseStream, Clear;
    match op {
      case DoRegister(id, policy, maxMessages) => RegisterSafe(q, id, policy, maxMessages);
      case DoEnqueue(id, message) => EnqueueSafe(q, id, message);
      case DoDequeue(id) => DequeueSafe(q, id);
      case DoClose(id) => CloseStreamSafe(q, id);
      case DoClear => ClearSafe(q);
    }
  }

  lemma {:induction false} RunSafe(q: Queue, ops: seq<Op>)
    requires Safe(q)
    ensures Safe(Run(q, ops))
    decreases |ops|
  {
    hide Safe, Apply;
    if ops != [] {
      ApplySafe(q, ops[0]);
      RunSafe(Apply(q, ops[0]), ops[1..]);
    }
  }

  // ---- What dequeue returned ----

  /** What one operation returned to the caller from a stream. */
  function Got(q: Queue, op: Op, id: string): seq<Bytes> {
    if op != DoDequeue(id) then []
    else
      var answer := Dequeue(q, id).1;
      if answer.Ok? && answer.value.Some? then [answer.value.value] else []
  }

  /** Everything a run returned from a stream, in order, since the stream was opened. */
  function Returned(q: Queue, ops: seq<Op>, id: string, got: seq<Bytes>): seq<Bytes>
    decreases |ops|
  {
    if ops == [] then got
    else
      var next := Apply(q, ops[0]);
      Returned(next, ops[1..], id, if id in next.streams then got + Got(q, ops[0], id) else [])
  }

  /** What was returned so far are the messages accepted under the numbers taken. */
  predicate Faithful(s: Stream, got: seq<Bytes>) {
    && |got| == |s.taken|
    && forall i :: 0 <= i < |got| ==> s.taken[i] < |s.offered| && got[i] == s.offered[s.taken[i]]
  }

  /** The head of a stream is the offer its number says. */
  lemma HeadIsOldest(s: Stream)
    requires StreamSafe(s) && s.pending != []
    ensures Oldest(s) < |s.offered| && s.pending[0] == s.offered[Oldest(s)]
  {}

  /** A stream an operation does not dequeue from keeps what was taken, and what was offered only grows. */
  lemma OtherwiseKept(q: Queue, op: Op, id: string)
    requires id in q.streams && id in Apply(q, op).streams && op != DoDequeue(id)
    ensures Apply(q, op).streams[id].taken == q.streams[id].taken
    ensures q.streams[id].offered <= Apply(q, op).streams[id].offered
  {}

  /** A stream an operation opens starts with nothing taken. */
  lemma OpenedEmpty(q: Queue, op: Op, id: string)
    requires id !in q.streams && id in Apply(q, op).streams
    ensures Apply(q, op).streams[id].taken == []
  {}

  lemma GotFaithful(q: Queue, op: Op, id: string, got: seq<Bytes>)
    requires StreamsSafe(q.streams) && (if id in q.streams then Faithful(q.streams[id], got) else got == [])
    requires id in Apply(q, op).streams
    ensures Faithful(Apply(q, op).streams[id], got + Got(q, op, id))
  {
    hide StreamSafe, Register, Enqueue, CloseStream, Clear, Oldest;
    if id !in q.streams {
      OpenedEmpty(q, op, id);
    } else if op != DoDequeue(id) {
      OtherwiseKept(q, op, id);
    } else if Running(q, id).Ok? && q.streams[id].pending != [] {
      HeadIsOldest(q.streams[id]);
    }
  }

  lemma {:induction false} ReturnedFaithful(q: Queue, ops: seq<Op>, id: string, got: seq<Bytes>)
    requires Safe(q) && (if id in q.streams then Faithful(q.streams[id], got) else got == [])
    ensures var end, all := Run(q, ops), Returned(q, ops, id, got);
            if id in end.streams then Faithful(end.streams[id], all) else all == []
    decreases |ops|
  {
    hide Safe, Faithful, Apply, Got;
    if ops != [] {
      var next := Apply(q, ops[0]);
      SafeStreams(q);
      if id in next.streams { GotFaithful(q, ops[0], id, got); }
      ApplySafe(q, ops[0]);
      ReturnedFaithful(next, ops[1..], id, if id in next.streams then got + Got(q, ops[0], id) else []);
    }
  }

  lemma SafeStreams(q: Queue)
    requires Safe(q)
    ensures StreamsSafe(q.streams)
  {}

  lemma InitialSafe(maxStreams: Positive, maxBytes: Positive, maxMessageBytes: Positive)
    ensures Safe(Initial(maxStreams, maxBytes, maxMessageBytes))
  {}

  /**
   * On every run: the byte counter is the weight of what is pending and stays within the budget; what
   * dequeue returned from a live reliable stream followed by what is pending is exactly what was accepted;
   * a latest stream holds at most the newest offer, returned increasing ones, and counts every other as
   * dropped; a stopped stream holds nothing.
   */
  lemma EveryRun(maxStreams: Positive, maxBytes: Positive, maxMessageBytes: Positive, ops: seq<Op>, id: string)
    ensures var first := Initial(maxStreams, maxBytes, maxMessageBytes);
            var q, returned := Run(first, ops), Returned(first, ops, id, []);
            && Safe(q)
            && (id in q.streams ==>
                  var s := q.streams[id];
                  && Faithful(s, returned) && Increasing(s.taken)
                  && (s.stopped ==> s.pending == [])
                  && (s.policy == Reliable && !s.stopped ==> returned + s.pending == s.offered)
                  && (s.policy == Latest ==>
                        && (s.pending == [] || s.pending == [s.offered[|s.offered| - 1]])
                        && |s.offered| - |returned| - |s.pending| == s.lost))
  {
    hide Run, Returned, Totalled, Increasing;
    var first := Initial(maxStreams, maxBytes, maxMessageBytes);
    InitialSafe(maxStreams, maxBytes, maxMessageBytes);
    RunSafe(first, ops);
    ReturnedFaithful(first, ops, id, []);
    var q, returned := Run(first, ops), Returned(first, ops, id, []);
    if id in q.streams {
      var s := q.streams[id];
      assert StreamSafe(s);
      if s.policy == Reliable && !s.stopped {
        assert s.offered == s.offered[..|s.taken|] + s.offered[|s.taken|..];
        assert forall i :: 0 <= i < |s.taken| ==> s.taken[i] == i;
        assert returned == s.offered[..|s.taken|];
      }
    }
  }
}
