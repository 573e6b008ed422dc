/**
 * The delivery core of one peer's session: its queue, its subscriptions in order, and the trace of what was
 * decided about them and handed to the transport.
 */
module DeliveryModel {
  import opened Basics
  import opened QueueModel
  import opened MediaTypes
  import Decimal

  const CONTROL: string := "control"

  datatype Channel = ControlChannel | ReliableChannel | RealtimeChannel

  datatype Direction = RosToWeb | WebToRos

  /** What the configuration says of one topic; `gapMs` is the interval of its rate limit. */
  datatype Topic = Topic(
    direction: Direction, policy: Policy, maxMessages: int, reliable: bool, gapMs: Duration, guarded: bool)

  /** A sample as its codec encoded it; its content plays no part here. */
  type Data = string

  datatype Wire =
    | Welcome(catalog: set<string>, tracks: set<string>)
    | Subscribed(id: string, stream: string)
    | Unsubscribed(id: string)
    | Advertised(id: string, handle: string)
    | Unadvertised(id: string)
    | Lease(id: string, handle: string)
    | VideoSubscribed(id: string, track: string, mid: string)
    | VideoUnsubscribed(id: string)
    | VideoState(track: string, mid: string, phase: Phase)
    | PublishedToRos(handle: string, sequence: nat)
    | Message(stream: string, sequence: nat, data: Data)
    | Rejected(request: Option<string>)

  /** `encode` is the wire encoding of the envelope, whatever it is; `maxBytes` bounds its result. */
  datatype Plan = Plan(session: string, topics: map<string, Topic>, maxBytes: Positive, encode: Wire -> Bytes)

  datatype Sub = Sub(id: string, topic: string, ready: bool, sequence: nat, nextAt: Time)

  /** All data ever offered on one stream. */
  datatype History = History(policy: Policy, data: seq<Data>)

  datatype Trace =
    /** The authorization decision of one subscription, taken in a flush or for a sample. */
    | Granted(stream: string)
    | Denied(stream: string)
    /** The transport accepted the `offer`-th message offered to the stream, with so much control data queued. */
    | Handed(channel: Channel, stream: string, offer: nat, payload: Bytes, controlQueued: nat)
    | Closed

  datatype Core = Core(
    plan: Plan, queue: Queue, subs: seq<Sub>, nextId: nat, closed: bool, trace: seq<Trace>,
    history: map<string, History>)

  /** Identifiers are numbered within the session and never reused. */
  function StreamId(session: string, n: nat): string {
    session + ":" + Decimal.Print(n)
  }

  /** Where a subscription is; the number of subscriptions if it is not there. */
  function Find(subs: seq<Sub>, id: string): (at: nat)
    ensures at <= |subs| && (at < |subs| ==> subs[at].id == id)
    ensures forall i :: 0 <= i < at ==> subs[i].id != id
  {
    if subs == [] || subs[0].id == id then 0 else 1 + Find(subs[1..], id)
  }

  predicate Has(c: Core, id: string) {
    Find(c.subs, id) < |c.subs|
  }

  function ControlQueued(q: Queue): nat {
    if CONTROL in q.streams then |q.streams[CONTROL].pending| else 0
  }

  function DataChannel(reliable: bool): Channel {
    if reliable then ReliableChannel else RealtimeChannel
  }

  /** The channel of a stream: control, or the one its topic is configured for. */
  function ChannelOf(c: Core, id: string): Channel {
    if !Has(c, id) then ControlChannel
    else
      var topic := c.subs[Find(c.subs, id)].topic;
      DataChannel(topic in c.plan.topics && c.plan.topics[topic].reliable)
  }

  function EnqueueControl(c: Core, bytes: Bytes): (Core, bool) {
    var (queue, stored) := Enqueue(c.queue, CONTROL, bytes);
    (c.(queue := queue), stored.Err?)
  }

  /** The transport accepted the head of a stream. */
  function HandOver(c: Core, id: string, payload: Bytes): Core
    requires Peek(c.queue, id) == Ok(Some(payload))
  {
    c.(queue := Dequeue(c.queue, id).0,
       trace := c.trace + [Handed(ChannelOf(c, id), id, Oldest(c.queue.streams[id]), payload, ControlQueued(c.queue))])
  }

  function Grant(c: Core, id: string): Core {
    c.(trace := c.trace + [Granted(id)])
  }

  /** Discard a subscription with what it has pending. */
  function Remove(c: Core, id: string): Core
    requires Has(c, id)
  {
    var at := Find(c.subs, id);
    c.(subs := c.subs[..at] + c.subs[at + 1..], queue := CloseStream(c.queue, id).0)
  }

  function Expel(c: Core, id: string): Core
    requires Has(c, id)
  {
    Remove(c.(trace := c.trace + [Denied(id)]), id)
  }

  /** Number a sample and offer it to its stream; true means the stream cannot go on. */
  function Offer(c: Core, id: string, data: Data, nextAt: Time): (Core, bool)
    requires Has(c, id)
  {
    var at := Find(c.subs, id);
    var bytes := c.plan.encode(Message(id, c.subs[at].sequence, data));
    var numbered := c.(subs := c.subs[at := c.subs[at].(sequence := c.subs[at].sequence + 1, nextAt := nextAt)]);
    if |bytes| > c.plan.maxBytes then (numbered, true)
    else
      var (queue, stored) := Enqueue(c.queue, id, bytes);
      (numbered.(queue := queue, history := Recorded(c, id, bytes, data)), stored.Err?)
  }

  /** The data becomes part of the stream's history if the queue took the offer into account. */
  function Recorded(c: Core, id: string, bytes: Bytes, data: Data): map<string, History> {
    if id in c.history && Running(c.queue, id).Ok? && Acceptable(c.queue, bytes)
    then c.history[id := c.history[id].(data := c.history[id].data + [data])] else c.history
  }

  /** Open a stream under a new identifier; `listening` is whether the ROS listener could be attached. */
  function OpenStream(c: Core, topic: string, listening: bool): (Core, Option<string>)
    requires topic in c.plan.topics
  {
    var id := StreamId(c.plan.session, c.nextId + 1);
    var t := c.plan.topics[topic];
    var named := c.(nextId := c.nextId + 1);
    var (queue, registered) := Register(c.queue, id, t.policy, t.maxMessages);
    if registered.Err? then (named, None)
    else if !listening then (named.(queue := CloseStream(queue, id).0), None)
    else
      (named.(queue := queue, subs := c.subs + [Sub(id, topic, false, 0, 0.0)],
              history := c.history[id := History(t.policy, [])]),
       Some(id))
  }

  function MarkClosed(c: Core): Core {
    c.(closed := true, trace := c.trace + [Closed])
  }

  function Empty(c: Core): Core {
    c.(subs := [], queue := Clear(c.queue))
  }
}
