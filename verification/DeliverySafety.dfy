/** What every step of the delivery core keeps. */
module DeliverySafety {
  import opened Basics
  import opened QueueModel
  import opened DeliveryModel
  import QueueSafety
  import Decimal

  // ---- The trace alone ----

  /** The offers of one stream that were handed over, in order. */
  function Offers(trace: seq<Trace>, id: string): seq<nat> {
    if trace == [] then []
    else
      var last := trace[|trace| - 1];
      Offers(trace[..|trace| - 1], id) + if last.Handed? && last.stream == id then [last.offer] else []
  }

  lemma OffersAppend(trace: seq<Trace>, event: Trace, id: string)
    ensures Offers(trace + [event], id) ==
            Offers(trace, id) + if event.Handed? && event.stream == id then [event.offer] else []
  {
    assert (trace + [event])[..|trace|] == trace;
  }

  /** Just before position `k` stands a grant for the stream, followed only by messages of that stream. */
  predicate AuthorizedAt(trace: seq<Trace>, k: nat, id: string)
    requires k <= |trace|
    decreases k
  {
    k > 0 && (trace[k - 1] == Granted(id) ||
              (trace[k - 1].Handed? && trace[k - 1].stream == id && AuthorizedAt(trace, k - 1, id)))
  }

  lemma {:induction false} AuthorizedPrefix(trace: seq<Trace>, event: Trace, k: nat, id: string)
    requires k <= |trace|
    ensures AuthorizedAt(trace + [event], k, id) == AuthorizedAt(trace, k, id)
    decreases k
  {
    if k > 0 { AuthorizedPrefix(trace, event, k - 1, id); }
  }

  /** Every data message went out with no control data queued and right after a grant for its stream. */
  predicate Polite(trace: seq<Trace>) {
    forall k :: 0 <= k < |trace| && trace[k].Handed? && trace[k].stream != CONTROL ==>
      trace[k].controlQueued == 0 && AuthorizedAt(trace, k, trace[k].stream)
  }

  /** After a denial nothing of that stream goes out, and after closing nothing at all. */
  predicate Final(trace: seq<Trace>) {
    forall j, k :: 0 <= j < k < |trace| && trace[k].Handed? ==>
      trace[j] != Denied(trace[k].stream) && trace[j] != Closed
  }

  /** A data message is the envelope of the datum it numbers. */
  predicate Numbered(plan: Plan, history: map<string, History>, event: Trace)
    requires event.Handed?
  {
    && event.stream in history && event.offer < |history[event.stream].data|
    && event.payload == plan.encode(Message(event.stream, event.offer, history[event.stream].data[event.offer]))
  }

  predicate AllNumbered(plan: Plan, history: map<string, History>, trace: seq<Trace>) {
    forall k :: 0 <= k < |trace| && trace[k].Handed? && trace[k].stream != CONTROL ==> Numbered(plan, history, trace[k])
  }

  /** Control and fifo streams hand over offers 0, 1, 2, ...; latest streams hand over increasing ones. */
  predicate Ordered(history: map<string, History>, trace: seq<Trace>, id: string) {
    && (id == CONTROL || (id in history && history[id].policy == Reliable) ==>
          Offers(trace, id) == QueueSafety.Counting(|Offers(trace, id)|))
    && (id in history && history[id].policy == Latest ==> QueueSafety.Increasing(Offers(trace, id)))
  }

  /** Nothing was handed over under an identifier that is not yet given out. */
  predicate Known(history: map<string, History>, trace: seq<Trace>) {
    forall k :: 0 <= k < |trace| ==>
      && (trace[k].Handed? && trace[k].stream != CONTROL ==> trace[k].stream in history)
      && (trace[k].Granted? || trace[k].Denied? ==> trace[k].stream in history)
  }

  // ---- The core ----

  predicate Enveloped(plan: Plan, id: string, h: History, s: Stream) {
    && s.policy == h.policy && |s.offered| == |h.data|
    && (forall k :: 0 <= k < |s.offered| ==> s.offered[k] == plan.encode(Message(id, k, h.data[k])))
  }

  predicate SubOk(c: Core, sub: Sub) {
    && sub.id != CONTROL && sub.id in c.history && sub.id in c.queue.streams
    && Enveloped(c.plan, sub.id, c.history[sub.id], c.queue.streams[sub.id])
    && sub.sequence == |c.history[sub.id].data|
  }

  predicate SubsOk(c: Core) {
    && (forall i, j :: 0 <= i < j < |c.subs| ==> c.subs[i].id != c.subs[j].id)
    && (forall i :: 0 <= i < |c.subs| ==> SubOk(c, c.subs[i]))
  }

  /** A stream of the queue is the control stream or a subscription, and the trace knows what was taken from it. */
  predicate StreamsOk(c: Core) {
    && CONTROL in c.queue.streams && c.queue.streams[CONTROL].policy == Reliable
    && (forall id :: id in c.queue.streams ==>
          && (id == CONTROL || Has(c, id))
          && Offers(c.trace, id) == c.queue.streams[id].taken
          && Denied(id) !in c.trace)
  }

  ghost predicate NamesOk(c: Core) {
    && CONTROL !in c.history
    && (forall n: nat :: n > c.nextId ==> StreamId(c.plan.session, n) !in c.history)
    && (forall i :: 0 <= i < |c.subs| ==> c.subs[i].id in c.history)
  }

  ghost predicate TraceOk(c: Core) {
    && Polite(c.trace) && Final(c.trace) && AllNumbered(c.plan, c.history, c.trace) && Known(c.history, c.trace)
    && (forall id :: Ordered(c.history, c.trace, id))
    && (c.closed <==> Closed in c.trace)
  }

  ghost predicate Inv(c: Core) {
    && TraceOk(c) && NamesOk(c)
    && (!c.closed ==> QueueSafety.StreamsSafe(c.queue.streams) && SubsOk(c) && StreamsOk(c))
  }

  /** No stream of an open session is stopped. */
  predicate Flowing(c: Core) {
    !c.closed ==> forall id :: id in c.queue.streams ==> !c.queue.streams[id].stopped
  }

  // ---- Growing the trace ----

  /** A trace event that hands nothing over. */
  lemma NotedPolite(trace: seq<Trace>, event: Trace)
    requires Polite(trace) && Final(trace) && !event.Handed?
    ensures Polite(trace + [event]) && Final(trace + [event])
  {
    var longer := trace + [event];
    forall k | 0 <= k < |longer| && longer[k].Handed?
      ensures AuthorizedAt(longer, k, longer[k].stream) == AuthorizedAt(trace, k, longer[k].stream)
    {
      AuthorizedPrefix(trace, event, k, longer[k].stream);
    }
  }

  lemma NotedTrace(c: Core, event: Trace, later: Core)
    requires TraceOk(c) && (event.Granted? || event.Denied?) && event.stream in c.history
    requires later.trace == c.trace + [event]
    requires later.plan == c.plan && later.history == c.history && later.closed == c.closed
    ensures TraceOk(later)
  {
    hide Polite, Final, Offers;
    NotedPolite(c.trace, event);
    forall id ensures Ordered(c.history, later.trace, id) {
      assert Ordered(c.history, c.trace, id);
      OffersAppend(c.trace, event, id);
    }
    assert Closed in later.trace <==> Closed in c.trace;
  }

  lemma NotedStreams(c: Core, event: Trace, later: Core)
    requires SubsOk(c) && StreamsOk(c) && !event.Handed? && (event.Denied? ==> event.stream !in c.queue.streams)
    requires later == c.(trace := c.trace + [event])
    ensures SubsOk(later) && StreamsOk(later)
  {
    hide Offers;
    forall i | 0 <= i < |later.subs| ensures SubOk(later, later.subs[i]) { assert SubOk(c, c.subs[i]); }
    forall id | id in later.queue.streams
      ensures Offers(later.trace, id) == later.queue.streams[id].taken && Denied(id) !in later.trace
    {
      OffersAppend(c.trace, event, id);
    }
  }

  lemma HandedPolite(trace: seq<Trace>, event: Trace)
    requires Polite(trace) && event.Handed?
    requires event.stream != CONTROL ==> event.controlQueued == 0 && AuthorizedAt(trace, |trace|, event.stream)
    ensures Polite(trace + [event])
  {
    var longer := trace + [event];
    forall k | 0 <= k < |longer| && longer[k].Handed? && longer[k].stream != CONTROL
      ensures longer[k].controlQueued == 0 && AuthorizedAt(longer, k, longer[k].stream)
    {
      AuthorizedPrefix(trace, event, k, longer[k].stream);
    }
  }

  lemma HandedFinal(trace: seq<Trace>, event: Trace)
    requires Final(trace) && event.Handed? && Denied(event.stream) !in trace && Closed !in trace
    ensures Final(trace + [event])
  {}

  lemma HandedOrdered(history: map<string, History>, trace: seq<Trace>, event: Trace, taken: seq<nat>, id: string)
    requires Ordered(history, trace, id) && event.Handed?
    requires event.stream == id ==>
      && Offers(trace, id) + [event.offer] == taken
      && (id == CONTROL || (id in history && history[id].policy == Reliable) ==> taken == QueueSafety.Counting(|taken|))
      && (id in history && history[id].policy == Latest ==> QueueSafety.Increasing(taken))
    ensures Ordered(history, trace + [event], id)
  {
    OffersAppend(trace, event, id);
  }

  // ---- Steps of the queue ----

  lemma EnqueueEffect(q: Queue, id: string, bytes: Bytes)
    ensures var (later, stored) := Enqueue(q, id, bytes);
            && later.streams.Keys == q.streams.Keys
            && (forall other :: other in q.streams && other != id ==> later.streams[other] == q.streams[other])
            && (id in q.streams ==>
                  && later.streams[id].policy == q.streams[id].policy && later.streams[id].taken == q.streams[id].taken
                  && later.streams[id].offered == q.streams[id].offered +
                       (if Running(q, id).Ok? && Acceptable(q, bytes) then [bytes] else []))
            && (stored.Ok? ==>
                  id in q.streams && Running(q, id).Ok? && Acceptable(q, bytes) && !later.streams[id].stopped)
            && (Running(q, id).Err? || !Acceptable(q, bytes) ==> later == q)
  {}

  lemma DequeueEffect(q: Queue, id: string, payload: Bytes)
    requires QueueSafety.StreamsSafe(q.streams) && Peek(q, id) == Ok(Some(payload))
    ensures var later := Dequeue(q, id).0;
            && QueueSafety.StreamsSafe(later.streams) && later.streams.Keys == q.streams.Keys
            && (forall other :: other in q.streams && other != id ==> later.streams[other] == q.streams[other])
            && later.streams[id] == q.streams[id].(pending := q.streams[id].pending[1..],
                                                   taken := q.streams[id].taken + [Oldest(q.streams[id])])
  {
    hide QueueSafety.StreamsSafe;
    QueueSafety.DequeueStreams(q, id);
  }

  lemma EnqueueSafe(c: Core, id: string, bytes: Bytes)
    requires !c.closed ==> QueueSafety.StreamsSafe(c.queue.streams)
    ensures !c.closed ==> QueueSafety.StreamsSafe(Enqueue(c.queue, id, bytes).0.streams)
  {
    hide QueueSafety.StreamsSafe;
    if !c.closed { QueueSafety.EnqueueStreams(c.queue, id, bytes); }
  }

  /** A change of the control stream that takes nothing from it. */
  lemma ControlOnly(c: Core, later: Core)
    requires SubsOk(c) && StreamsOk(c) && later == c.(queue := later.queue)
    requires later.queue.streams.Keys == c.queue.streams.Keys
    requires forall id :: id in c.queue.streams && id != CONTROL ==> later.queue.streams[id] == c.queue.streams[id]
    requires later.queue.streams[CONTROL].policy == Reliable
    requires later.queue.streams[CONTROL].taken == c.queue.streams[CONTROL].taken
    ensures SubsOk(later) && StreamsOk(later)
  {
    forall i | 0 <= i < |later.subs| ensures SubOk(later, later.subs[i]) { assert SubOk(c, c.subs[i]); }
  }

  lemma EnqueueControlKeeps(c: Core, bytes: Bytes)
    requires Inv(c)
    ensures var (later, threw) := EnqueueControl(c, bytes); Inv(later) && later == c.(queue := later.queue)
  {
    hide TraceOk, NamesOk, SubsOk, QueueSafety.StreamsSafe, Enqueue;
    var later := EnqueueControl(c, bytes).0;
    EnqueueSafe(c, CONTROL, bytes);
    EnqueueEffect(c.queue, CONTROL, bytes);
    QueueAlone(c, later);
    if !c.closed { ControlOnly(c, later); }
  }

  /** The trace and the names do not depend on the queue. */
  lemma QueueAlone(c: Core, later: Core)
    requires later == c.(queue := later.queue)
    ensures TraceOk(c) ==> TraceOk(later)
    ensures NamesOk(c) ==> NamesOk(later)
  {}

  // ---- Handing over ----

  /** Everything the trace needs to know of the next message of a stream. */
  lemma HeadFacts(c: Core, id: string, payload: Bytes) returns (event: Trace, taken: seq<nat>)
    requires Inv(c) && !c.closed && Peek(c.queue, id) == Ok(Some(payload))
    ensures event.Handed? && event.stream == id && event.controlQueued == ControlQueued(c.queue)
    ensures HandOver(c, id, payload) == c.(queue := Dequeue(c.queue, id).0, trace := c.trace + [event])
    ensures Denied(id) !in c.trace && Closed !in c.trace
    ensures Offers(c.trace, id) + [event.offer] == taken
    ensures id == CONTROL || (id in c.history && c.history[id].policy == Reliable) ==>
      taken == QueueSafety.Counting(|taken|)
    ensures id in c.history && c.history[id].policy == Latest ==> QueueSafety.Increasing(taken)
    ensures id != CONTROL ==> Numbered(c.plan, c.history, event)
    ensures Dequeue(c.queue, id).0.streams.Keys == c.queue.streams.Keys
    ensures forall other :: other in c.queue.streams && other != id ==>
              Dequeue(c.queue, id).0.streams[other] == c.queue.streams[other]
    ensures Dequeue(c.queue, id).0.streams[id] ==
              c.queue.streams[id].(pending := c.queue.streams[id].pending[1..], taken := taken)
    ensures QueueSafety.StreamsSafe(Dequeue(c.queue, id).0.streams)
  {
    hide Polite, Final, AllNumbered, Known, Ordered, NamesOk, Dequeue;
    var s := c.queue.streams[id];
    DequeueEffect(c.queue, id, payload);
    assert QueueSafety.StreamSafe(s) && QueueSafety.StreamSafe(Dequeue(c.queue, id).0.streams[id]);
    QueueSafety.HeadIsOldest(s);
    if id != CONTROL {
      assert SubOk(c, c.subs[Find(c.subs, id)]);
    } else {
      assert id !in c.history by { NoControl(c); }
    }
    taken := s.taken + [Oldest(s)];
    event := Handed(ChannelOf(c, id), id, Oldest(s), payload, ControlQueued(c.queue));
  }

  lemma NoControl(c: Core)
    requires NamesOk(c)
    ensures CONTROL !in c.history
  {}

  lemma HandedTrace(c: Core, event: Trace, taken: seq<nat>, later: Core)
    requires TraceOk(c) && event.Handed? && later.plan == c.plan && later.history == c.history
    requires later.closed == c.closed
    requires later.trace == c.trace + [event]
    requires Denied(event.stream) !in c.trace && Closed !in c.trace
    requires event.stream != CONTROL ==>
      && event.controlQueued == 0 && AuthorizedAt(c.trace, |c.trace|, event.stream)
      && Numbered(c.plan, c.history, event)
    requires Offers(c.trace, event.stream) + [event.offer] == taken
    requires event.stream == CONTROL || (event.stream in c.history && c.history[event.stream].policy == Reliable) ==>
      taken == QueueSafety.Counting(|taken|)
    requires event.stream in c.history && c.history[event.stream].policy == Latest ==> QueueSafety.Increasing(taken)
    ensures TraceOk(later)
  {
    hide Polite, Final, Ordered, AuthorizedAt, Offers, QueueSafety.Counting, QueueSafety.Increasing;
    HandedPolite(c.trace, event);
    HandedFinal(c.trace, event);
    forall id ensures Ordered(later.history, later.trace, id) {
      HandedOrdered(c.history, c.trace, event, taken, id);
    }
    assert Closed in later.trace <==> Closed in c.trace;
  }

  lemma HandOverStreams(c: Core, later: Core, event: Trace)
    requires SubsOk(c) && StreamsOk(c) && event.Handed? && event.stream in c.queue.streams
    requires later == c.(queue := later.queue, trace := c.trace + [event])
    requires later.queue.streams.Keys == c.queue.streams.Keys
    requires forall other :: other in c.queue.streams && other != event.stream ==>
               later.queue.streams[other] == c.queue.streams[other]
    requires later.queue.streams[event.stream].taken == Offers(c.trace, event.stream) + [event.offer]
    requires later.queue.streams[event.stream].offered == c.queue.streams[event.stream].offered
    requires later.queue.streams[event.stream].policy == c.queue.streams[event.stream].policy
    ensures SubsOk(later) && StreamsOk(later)
  {
    forall i | 0 <= i < |later.subs| ensures SubOk(later, later.subs[i]) { assert SubOk(c, c.subs[i]); }
    forall id | id in later.queue.streams
      ensures Offers(later.trace, id) == later.queue.streams[id].taken && Denied(id) !in later.trace
    {
      OffersAppend(c.trace, event, id);
    }
  }

  lemma HandOverKeeps(c: Core, id: string, payload: Bytes)
    requires Inv(c) && !c.closed && Peek(c.queue, id) == Ok(Some(payload))
    requires id != CONTROL ==> ControlQueued(c.queue) == 0 && AuthorizedAt(c.trace, |c.trace|, id)
    ensures Inv(HandOver(c, id, payload)) && HandOver(c, id, payload).subs == c.subs && !HandOver(c, id, payload).closed
  {
    hide TraceOk, NamesOk, SubsOk, StreamsOk, QueueSafety.StreamsSafe, HandOver, Dequeue, Offers, AuthorizedAt;
    var event, taken := HeadFacts(c, id, payload);
    var later := HandOver(c, id, payload);
    HandedTrace(c, event, taken, later);
    HandOverStreams(c, later, event);
    NamesAlone(c, later);
  }

  lemma NamesAlone(c: Core, later: Core)
    requires later.history == c.history && later.nextId == c.nextId && later.plan == c.plan
    requires forall i :: 0 <= i < |later.subs| ==> later.subs[i] in c.subs
    ensures NamesOk(c) ==> NamesOk(later)
  {}

  lemma HandOverFlows(c: Core, id: string, payload: Bytes)
    requires Inv(c) && Flowing(c) && !c.closed && Peek(c.queue, id) == Ok(Some(payload))
    ensures var later := HandOver(c, id, payload);
            && Flowing(later)
            && (AuthorizedAt(c.trace, |c.trace|, id) ==> AuthorizedAt(later.trace, |later.trace|, id))
            && (id != CONTROL ==> ControlQueued(later.queue) == ControlQueued(c.queue))
            && |later.queue.streams[id].pending| < |c.queue.streams[id].pending|
  {
    hide Inv, HandOver, Dequeue, Offers, QueueSafety.Counting, QueueSafety.Increasing, Numbered;
    var event, taken := HeadFacts(c, id, payload);
    AuthorizedPrefix(c.trace, event, |c.trace|, id);
  }

  // ---- Decisions about a subscription ----

  lemma SubKnown(c: Core, id: string)
    requires SubsOk(c) && Has(c, id)
    ensures id in c.history && id != CONTROL && id in c.queue.streams
  {
    assert SubOk(c, c.subs[Find(c.subs, id)]);
  }

  lemma GrantKeeps(c: Core, id: string)
    requires Inv(c) && !c.closed && Has(c, id)
    ensures var later := Grant(c, id); Inv(later) && AuthorizedAt(later.trace, |later.trace|, id)
  {
    hide TraceOk, NamesOk, SubsOk, StreamsOk, QueueSafety.StreamsSafe;
    var later := Grant(c, id);
    SubKnown(c, id);
    NotedTrace(c, Granted(id), later);
    NotedStreams(c, Granted(id), later);
    NamesAlone(c, later);
  }

  /** Taking one out of distinct subscriptions. */
  lemma {:induction false} FindWithout(subs: seq<Sub>, at: nat, id: string)
    requires at < |subs| && forall i, j :: 0 <= i < j < |subs| ==> subs[i].id != subs[j].id
    ensures var rest := subs[..at] + subs[at + 1..];
            Find(rest, id) < |rest| <==> Find(subs, id) < |subs| && id != subs[at].id
  {
    var rest := subs[..at] + subs[at + 1..];
    var i := Find(subs, id);
    if i < |subs| && i != at { assert rest[if i < at then i else i - 1].id == id; }
    var j := Find(rest, id);
    if j < |rest| { assert subs[if j < at then j else j + 1].id == id; }
  }

  /** Taking one out keeps the others apart. */
  lemma DistinctWithout(subs: seq<Sub>, at: nat)
    requires at < |subs| && forall i, j :: 0 <= i < j < |subs| ==> subs[i].id != subs[j].id
    ensures var rest := subs[..at] + subs[at + 1..];
            && (forall i, j :: 0 <= i < j < |rest| ==> rest[i].id != rest[j].id)
            && (forall i :: 0 <= i < |rest| ==> rest[i] in subs && rest[i].id != subs[at].id)
  {
    var rest := subs[..at] + subs[at + 1..];
    assert forall i :: 0 <= i < |rest| ==> rest[i] == subs[if i < at then i else i + 1];
  }

  lemma SubStays(c: Core, later: Core, sub: Sub)
    requires SubOk(c, sub) && later.plan == c.plan && later.history == c.history
    requires sub.id in later.queue.streams && later.queue.streams[sub.id] == c.queue.streams[sub.id]
    ensures SubOk(later, sub)
  {}

  lemma RemoveSubs(c: Core, id: string)
    requires SubsOk(c) && StreamsOk(c) && Has(c, id)
    ensures SubsOk(Remove(c, id)) && StreamsOk(Remove(c, id))
  {
    hide Offers, Enveloped, SubOk, Find;
    var at := Find(c.subs, id);
    var later := Remove(c, id);
    SubKnown(c, id);
    DistinctWithout(c.subs, at);
    forall i | 0 <= i < |later.subs| ensures SubOk(later, later.subs[i]) {
      SubMember(c, later.subs[i]);
      SubStays(c, later, later.subs[i]);
    }
    forall other | other in later.queue.streams ensures other == CONTROL || Has(later, other) {
      FindWithout(c.subs, at, other);
    }
  }

  lemma SubMember(c: Core, sub: Sub)
    requires SubsOk(c) && sub in c.subs
    ensures SubOk(c, sub) && sub.id in c.queue.streams
  {}

  lemma RemoveKeeps(c: Core, id: string)
    requires Inv(c) && Has(c, id)
    ensures Inv(Remove(c, id)) && id in Remove(c, id).history
    ensures !c.closed ==> !Has(Remove(c, id), id) && id !in Remove(c, id).queue.streams
    ensures |Remove(c, id).subs| == |c.subs| - 1 && (Flowing(c) ==> Flowing(Remove(c, id)))
  {
    hide TraceOk, QueueSafety.StreamSafe;
    var later := Remove(c, id);
    if !c.closed {
      RemoveSubs(c, id);
      assert QueueSafety.StreamsSafe(later.queue.streams);
      FindWithout(c.subs, Find(c.subs, id), id);
    }
    TraceAlone(c, later);
    NamesAlone(c, later);
  }

  lemma TraceAlone(c: Core, later: Core)
    requires later.trace == c.trace && later.plan == c.plan && later.history == c.history && later.closed == c.closed
    ensures TraceOk(c) ==> TraceOk(later)
  {}

  /** Once its only stopped stream is removed, the session flows. */
  lemma RemoveFlows(c: Core, id: string)
    requires Has(c, id) && forall other :: other in c.queue.streams && other != id ==> !c.queue.streams[other].stopped
    ensures Flowing(Remove(c, id))
  {}

  lemma ExpelKeeps(c: Core, id: string)
    requires Inv(c) && Has(c, id)
    ensures Inv(Expel(c, id)) && |Expel(c, id).subs| == |c.subs| - 1 && (Flowing(c) ==> Flowing(Expel(c, id)))
  {
    hide TraceOk, NamesOk, SubsOk, StreamsOk, QueueSafety.StreamsSafe;
    var removed := Remove(c, id);
    RemoveKeeps(c, id);
    var later := removed.(trace := c.trace + [Denied(id)]);
    assert Expel(c, id) == later;
    NotedTrace(removed, Denied(id), later);
    if !c.closed { NotedStreams(removed, Denied(id), later); }
    NamesAlone(removed, later);
  }

  // ---- Samples ----

  /** Growing the history of one stream disturbs nothing already handed over. */
  lemma RecordedTrace(c: Core, id: string, data: Data, later: Core)
    requires TraceOk(c) && id in c.history && later.trace == c.trace && later.plan == c.plan && later.closed == c.closed
    requires later.history == c.history[id := c.history[id].(data := c.history[id].data + [data])]
    ensures TraceOk(later)
  {
    forall k | 0 <= k < |c.trace| && c.trace[k].Handed? && c.trace[k].stream != CONTROL
      ensures Numbered(later.plan, later.history, later.trace[k])
    {
      assert Numbered(c.plan, c.history, c.trace[k]);
    }
    forall other ensures Ordered(later.history, later.trace, other) { assert Ordered(c.history, c.trace, other); }
  }

  /** What offering a sample comes to: recorded and queued as its history says, or not offered at all. */
  lemma OfferOutcome(c: Core, id: string, data: Data, nextAt: Time) returns (recorded: bool, sub: Sub, bytes: Bytes)
    requires SubsOk(c) && StreamsOk(c) && Has(c, id)
    ensures var at := Find(c.subs, id);
            && sub.id == id && sub.sequence == c.subs[at].sequence + 1 && SubOk(c, c.subs[at])
            && bytes == c.plan.encode(Message(id, c.subs[at].sequence, data))
            && Offer(c, id, data, nextAt).0 == c.(
                 subs := c.subs[at := sub],
                 queue := if recorded then Enqueue(c.queue, id, bytes).0 else c.queue,
                 history := if recorded then c.history[id := c.history[id].(data := c.history[id].data + [data])]
                   else c.history)
            && (recorded ==> Running(c.queue, id).Ok? && Acceptable(c.queue, bytes))
            && (!recorded ==> Offer(c, id, data, nextAt).1)
  {
    hide Offers, Enqueue;
    var at := Find(c.subs, id);
    bytes := c.plan.encode(Message(id, c.subs[at].sequence, data));
    sub := c.subs[at].(sequence := c.subs[at].sequence + 1, nextAt := nextAt);
    EnqueueEffect(c.queue, id, bytes);
    assert SubOk(c, c.subs[at]);
    recorded := |bytes| <= c.plan.maxBytes && Running(c.queue, id).Ok? && Acceptable(c.queue, bytes);
    assert !recorded && |bytes| <= c.plan.maxBytes ==> !Enqueue(c.queue, id, bytes).1.Ok?;
  }

  lemma RecordedEnvelope(plan: Plan, id: string, h: History, s: Stream, data: Data, later: Stream)
    requires Enveloped(plan, id, h, s) && later.policy == s.policy
    requires later.offered == s.offered + [plan.encode(Message(id, |h.data|, data))]
    ensures Enveloped(plan, id, h.(data := h.data + [data]), later)
  {}

  lemma OfferedSubs(c: Core, id: string, sub: Sub, data: Data, bytes: Bytes, later: Core)
    requires SubsOk(c) && StreamsOk(c) && Has(c, id) && sub.id == id
    requires sub.sequence == c.subs[Find(c.subs, id)].sequence + 1
    requires SubOk(c, c.subs[Find(c.subs, id)])
    requires bytes == c.plan.encode(Message(id, c.subs[Find(c.subs, id)].sequence, data))
    requires Running(c.queue, id).Ok? && Acceptable(c.queue, bytes)
    requires later == c.(subs := c.subs[Find(c.subs, id) := sub], queue := Enqueue(c.queue, id, bytes).0,
                         history := c.history[id := c.history[id].(data := c.history[id].data + [data])])
    ensures SubsOk(later) && StreamsOk(later)
  {
    hide Offers, Enqueue, Enveloped, Find, Running, Acceptable;
    var at := Find(c.subs, id);
    EnqueueEffect(c.queue, id, bytes);
    RecordedEnvelope(c.plan, id, c.history[id], c.queue.streams[id], data, later.queue.streams[id]);
    forall i | 0 <= i < |later.subs| ensures SubOk(later, later.subs[i]) {
      assert SubOk(c, c.subs[i]);
      if i != at { assert later.subs[i] == c.subs[i] && c.subs[i].id != id; }
    }
    forall other | other in later.queue.streams ensures other == CONTROL || Has(later, other) {
      SameIds(c.subs, later.subs, other);
    }
  }

  lemma SameIds(subs: seq<Sub>, others: seq<Sub>, id: string)
    requires |subs| == |others| && forall i :: 0 <= i < |subs| ==> subs[i].id == others[i].id
    ensures Find(subs, id) == Find(others, id)
  {}

  lemma OfferKeeps(c: Core, id: string, data: Data, nextAt: Time)
    requires Inv(c) && !c.closed && Has(c, id)
    ensures var (later, threw) := Offer(c, id, data, nextAt);
            && Has(later, id) && !later.closed && |later.subs| == |c.subs|
            && (!threw ==> Inv(later)) && Inv(Remove(later, id))
  {
    hide TraceOk, NamesOk, SubsOk, StreamsOk, QueueSafety.StreamsSafe, Enqueue, Remove, Offer;
    var recorded, sub, bytes := OfferOutcome(c, id, data, nextAt);
    var later := Offer(c, id, data, nextAt).0;
    SameIds(c.subs, later.subs, id);
    if recorded {
      OfferedSubs(c, id, sub, data, bytes, later);
      EnqueueSafe(c, id, bytes);
      RecordedTrace(c, id, data, later);
      RecordedNames(c, later, id);
      RemoveKeeps(later, id);
    } else {
      RenumberedGone(c, id, sub, later);
      RemoveKeeps(c, id);
    }
  }

  lemma RecordedNames(c: Core, later: Core, id: string)
    requires NamesOk(c) && id in c.history && later.history.Keys == c.history.Keys
    requires later.nextId == c.nextId && later.plan == c.plan
    requires |later.subs| == |c.subs| && forall i :: 0 <= i < |c.subs| ==> later.subs[i].id == c.subs[i].id
    ensures NamesOk(later)
  {
    assert forall other :: other in later.history <==> other in c.history;
  }

  lemma RenumberedGone(c: Core, id: string, sub: Sub, later: Core)
    requires Has(c, id) && sub.id == id && later == c.(subs := c.subs[Find(c.subs, id) := sub])
    ensures Has(later, id) && Remove(later, id) == Remove(c, id)
  {
    SameIds(c.subs, later.subs, id);
    var at := Find(c.subs, id);
    assert later.subs[..at] == c.subs[..at] && later.subs[at + 1..] == c.subs[at + 1..];
  }

  lemma OfferFlows(c: Core, id: string, data: Data, nextAt: Time)
    requires Flowing(c) && !c.closed && Has(c, id) && SubsOk(c) && StreamsOk(c)
    ensures var (later, threw) := Offer(c, id, data, nextAt);
            (!threw ==> Flowing(later)) && (Has(later, id) ==> Flowing(Remove(later, id)))
  {
    hide Enqueue, Remove, SubsOk, StreamsOk, Offers;
    var recorded, sub, bytes := OfferOutcome(c, id, data, nextAt);
    var later := Offer(c, id, data, nextAt).0;
    EnqueueEffect(c.queue, id, bytes);
    if Has(later, id) { RemoveFlows(later, id); }
  }

  // ---- Opening a stream ----

  lemma StreamIdFresh(session: string, n: nat, m: nat)
    ensures StreamId(session, n) != CONTROL
    ensures n != m ==> StreamId(session, n) != StreamId(session, m)
  {
    var a, b := StreamId(session, n), StreamId(session, m);
    assert a[|session|] == ':' && ':' !in CONTROL;
    assert a[|session| + 1..] == Decimal.Print(n) && b[|session| + 1..] == Decimal.Print(m);
    Decimal.PrintParses(n);
    Decimal.PrintParses(m);
  }

  lemma {:induction false} NoOffers(trace: seq<Trace>, id: string)
    requires forall k :: 0 <= k < |trace| ==> !(trace[k].Handed? && trace[k].stream == id)
    ensures Offers(trace, id) == []
  {
    if trace != [] { NoOffers(trace[..|trace| - 1], id); }
  }

  /** What is not in the history was never used for anything. */
  lemma Unknown(c: Core, id: string)
    requires Inv(c) && !c.closed && id !in c.history && id != CONTROL
    ensures id !in c.queue.streams && !Has(c, id) && Offers(c.trace, id) == [] && Denied(id) !in c.trace
  {
    hide Offers, Polite, Final, AllNumbered, Ordered, QueueSafety.StreamsSafe, Enveloped;
    if id in c.queue.streams || Has(c, id) { SubKnown(c, id); }
    NoOffers(c.trace, id);
  }

  /** A new identifier was never used for anything. */
  lemma Unused(c: Core) returns (id: string)
    requires Inv(c) && !c.closed
    ensures id == StreamId(c.plan.session, c.nextId + 1) && id != CONTROL && id !in c.history && id !in c.queue.streams
    ensures !Has(c, id) && Offers(c.trace, id) == [] && Denied(id) !in c.trace
  {
    hide StreamId, Offers, TraceOk, SubsOk, StreamsOk, QueueSafety.StreamsSafe;
    id := StreamId(c.plan.session, c.nextId + 1);
    StreamIdFresh(c.plan.session, c.nextId + 1, 0);
    Unknown(c, id);
  }

  lemma OpenedTrace(c: Core, id: string, policy: Policy, later: Core)
    requires TraceOk(c) && id !in c.history && id != CONTROL && Offers(c.trace, id) == []
    requires later.trace == c.trace && later.plan == c.plan && later.closed == c.closed
    requires later.history == c.history[id := History(policy, [])]
    ensures TraceOk(later)
  {
    forall k | 0 <= k < |c.trace| && c.trace[k].Handed? && c.trace[k].stream != CONTROL
      ensures Numbered(later.plan, later.history, later.trace[k])
    {
      assert Numbered(c.plan, c.history, c.trace[k]);
    }
    forall other ensures Ordered(later.history, later.trace, other) { assert Ordered(c.history, c.trace, other); }
  }

  lemma OpenedSubs(c: Core, id: string, sub: Sub, s: Stream, later: Core)
    requires SubsOk(c) && StreamsOk(c) && id != CONTROL && id !in c.history && !Has(c, id)
    requires id !in c.queue.streams && Offers(c.trace, id) == [] && Denied(id) !in c.trace
    requires sub.id == id && sub.sequence == 0 && s.offered == [] && s.taken == []
    requires later.plan == c.plan && later.trace == c.trace && later.subs == c.subs + [sub]
    requires later.queue.streams == c.queue.streams[id := s] && later.history == c.history[id := History(s.policy, [])]
    ensures SubsOk(later) && StreamsOk(later)
  {
    forall i | 0 <= i < |later.subs| ensures SubOk(later, later.subs[i]) {
      if i < |c.subs| { assert SubOk(c, c.subs[i]); }
    }
    forall other | other in later.queue.streams ensures other == CONTROL || Has(later, other) {
      FindAppend(c.subs, sub, other);
    }
  }

  lemma {:induction false} FindAppend(subs: seq<Sub>, sub: Sub, id: string)
    ensures var at := Find(subs, id);
            Find(subs + [sub], id) == if at < |subs| then at else |subs| + if sub.id == id then 0 else 1
  {
    var more := subs + [sub];
    assert forall i :: 0 <= i < |subs| ==> more[i] == subs[i];
    var at := Find(subs, id);
    if at < |subs| { assert more[at].id == id; } else { assert more[|subs|] == sub; }
  }

  lemma OpenedNames(c: Core, later: Core)
    requires NamesOk(c) && later.nextId == c.nextId + 1 && later.plan == c.plan
    requires c.history.Keys <= later.history.Keys <= c.history.Keys + {StreamId(c.plan.session, c.nextId + 1)}
    requires forall i :: 0 <= i < |later.subs| ==> later.subs[i] in c.subs || later.subs[i].id in later.history
    ensures NamesOk(later)
  {
    StreamIdFresh(c.plan.session, c.nextId + 1, 0);
    forall n: nat | n > later.nextId ensures StreamId(c.plan.session, n) !in later.history {
      StreamIdFresh(c.plan.session, n, c.nextId + 1);
    }
  }

  /** Closing a stream just registered undoes the registration. */
  lemma RegisterUndone(q: Queue, id: string, policy: Policy, maxMessages: int)
    requires id !in q.streams && Register(q, id, policy, maxMessages).1.Ok?
    ensures CloseStream(Register(q, id, policy, maxMessages).0, id).0 == q
  {
    var registered := Register(q, id, policy, maxMessages).0;
    assert registered.streams - {id} == q.streams;
  }

  lemma RegisterEffect(q: Queue, id: string, policy: Policy, maxMessages: int) returns (s: Stream)
    requires QueueSafety.StreamsSafe(q.streams) && Register(q, id, policy, maxMessages).1.Ok?
    ensures Register(q, id, policy, maxMessages).0.streams == q.streams[id := s]
    ensures s.offered == [] && s.taken == [] && s.policy == policy && !s.stopped
    ensures QueueSafety.StreamsSafe(Register(q, id, policy, maxMessages).0.streams)
  {
    QueueSafety.RegisterStreams(q, id, policy, maxMessages);
    s := Register(q, id, policy, maxMessages).0.streams[id];
  }

  lemma OpenStreamKeeps(c: Core, topic: string, listening: bool)
    requires Inv(c) && !c.closed && topic in c.plan.topics
    ensures var (later, answer) := OpenStream(c, topic, listening);
            && Inv(later) && !later.closed && (Flowing(c) ==> Flowing(later))
            && |later.subs| == |c.subs| + (if answer.Some? then 1 else 0)
  {
    hide TraceOk, NamesOk, SubsOk, StreamsOk, QueueSafety.StreamsSafe, Register, CloseStream, Offers;
    var t := c.plan.topics[topic];
    var id := Unused(c);
    var (later, answer) := OpenStream(c, topic, listening);
    if Register(c.queue, id, t.policy, t.maxMessages).1.Ok? {
      if listening {
        var s := RegisterEffect(c.queue, id, t.policy, t.maxMessages);
        OpenedTrace(c, id, t.policy, later);
        OpenedSubs(c, id, later.subs[|c.subs|], s, later);
      } else {
        RegisterUndone(c.queue, id, t.policy, t.maxMessages);
      }
    } else {
      RegisterFails(c.queue, id, t.policy, t.maxMessages);
    }
    if answer.None? {
      assert later == c.(nextId := c.nextId + 1);
      NextAlone(c, later);
    }
    OpenedNames(c, later);
  }

  lemma RegisterFails(q: Queue, id: string, policy: Policy, maxMessages: int)
    requires Register(q, id, policy, maxMessages).1.Err?
    ensures Register(q, id, policy, maxMessages).0 == q
  {}

  lemma NextAlone(c: Core, later: Core)
    requires later == c.(nextId := later.nextId)
    ensures TraceOk(c) ==> TraceOk(later)
    ensures SubsOk(c) && StreamsOk(c) ==> SubsOk(later) && StreamsOk(later)
  {
    if SubsOk(c) {
      forall i | 0 <= i < |later.subs| ensures SubOk(later, later.subs[i]) { assert SubOk(c, c.subs[i]); }
    }
  }

  // ---- Closing ----

  lemma MarkClosedKeeps(c: Core)
    requires Inv(c) && !c.closed
    ensures Inv(MarkClosed(c)) && Flowing(MarkClosed(c))
  {
    hide NamesOk, SubsOk, StreamsOk, QueueSafety.StreamsSafe, Polite, Final, Offers;
    var later := MarkClosed(c);
    NotedPolite(c.trace, Closed);
    forall id ensures Ordered(c.history, later.trace, id) {
      assert Ordered(c.history, c.trace, id);
      OffersAppend(c.trace, Closed, id);
    }
    NamesAlone(c, later);
  }

  lemma EmptyKeeps(c: Core)
    requires Inv(c) && c.closed
    ensures Inv(Empty(c)) && Flowing(Empty(c))
  {
    hide TraceOk, NamesOk, SubsOk, StreamsOk, QueueSafety.StreamsSafe;
    TraceAlone(c, Empty(c));
    NamesAlone(c, Empty(c));
  }
}
