/**
 * The session router and its video router as objects, with the surroundings as an object that answers. Every
 * method leaves the state, and throws exactly when, the model says.
 */
module SessionRouters {
  import opened Basics
  import opened MediaTypes
  import opened QueueModel
  import opened DeliveryModel
  import opened RouterModel
  import opened DeliveryQueues
  import opened RequestCaches
  import C = CacheModel
  import M = RouterModel
  import V = VideoModel
  import Decimal
  import Validation

  /** Transport, authorization, callbacks and clock: whatever they answer is on the tape. */
  class Surroundings {
    var answers: seq<bool>
    var ticks: seq<Time>
    var planeDown: bool

    constructor (answers: seq<bool>, ticks: seq<Time>)
      ensures View() == World(answers, ticks, false)
    {
      this.answers, this.ticks, planeDown := answers, ticks, false;
    }

    function View(): World
      reads this
    {
      World(answers, ticks, planeDown)
    }

    method Ask() returns (answer: bool)
      modifies this
      ensures answer == (old(answers) != [] && old(answers)[0])
      ensures View() == old(View()).(answers := if old(answers) == [] then [] else old(answers)[1..])
    {
      if answers == [] { return false; }
      answer := answers[0];
      answers := answers[1..];
    }

    method Read(otherwise: Time) returns (value: Time)
      modifies this
      ensures value == if old(ticks) == [] then otherwise else old(ticks)[0]
      ensures View() == old(View()).(ticks := if old(ticks) == [] then [] else old(ticks)[1..])
    {
      if ticks == [] { return otherwise; }
      value := ticks[0];
      ticks := ticks[1..];
    }
  }

  class SessionRouter {
    const limits: Limits
    const plan: Plan
    const queue: DeliveryQueue
    const cache: RequestCache
    const video: VideoRouter
    const world: Surroundings
    /** Subscriptions in insertion order. */
    var subs: seq<Sub>
    var publishers: map<string, Publisher>
    var nextId: nat
    var lastTime: Time
    var window: int
    var count: nat
    var welcomed: bool
    var closed: bool
    ghost var trace: seq<Trace>
    ghost var history: map<string, History>
    ghost var published: seq<Published>

    constructor (limits: Limits, plan: Plan, maxBytes: Positive, maxRequests: Positive, slots: seq<V.Slot>,
        world: Surroundings)
      ensures View() == Start(limits, plan, FirstQueue(limits.maxHandles, maxBytes, plan.maxBytes, maxRequests),
                              C.Initial(maxRequests, limits.ttlMs, maxBytes), slots, world.View())
      ensures queue.Valid() && fresh(queue) && fresh(cache) && fresh(video) && this.world == world
    {
      this.limits, this.plan, this.world := limits, plan, world;
      queue := new DeliveryQueue(limits.maxHandles + 1, maxBytes, plan.maxBytes);
      cache := new RequestCache(maxRequests, limits.ttlMs, maxBytes);
      video := new VideoRouter(slots);
      subs, publishers, nextId, lastTime := [], map[], 0, 0.0;
      window, count, welcomed, closed := 0, 0, false, false;
      trace, history, published := [], map[], [];
      new;
      var registered := queue.Register(CONTROL, Reliable, maxRequests);
    }

    ghost function View(): Router
      reads this, queue, cache, video, world
    {
      Router(limits, Core(plan, queue.View(), subs, nextId, closed, trace, history), world.View(), cache.View(),
             video.View(), publishers, lastTime, window, count, welcomed, published)
    }

    /** None of the session's objects is a buffer of its queue. */
    lemma Separate()
      ensures (this as object) !in queue.Repr() && (world as object) !in queue.Repr()
      ensures (cache as object) !in queue.Repr() && (video as object) !in queue.Repr()
    {}

    // ---- Surroundings ----

    method Ask() returns (answer: bool)
      modifies world
      ensures (answer, View()) == M.Ask(old(View()))
    {
      answer := world.Ask();
    }

    method Now() returns (now: Result<Time>)
      modifies this`lastTime, world
      ensures (now, View()) == M.Now(old(View()))
    {
      var value := world.Read(lastTime);
      if value < lastTime || value > Validation.MAX_SAFE as real - limits.ttlMs { return Err("invalid_clock"); }
      lastTime := value;
      now := Ok(value);
    }

    method Permitted(topic: string, direction: Direction) returns (granted: bool)
      modifies world
      ensures (granted, View()) == M.Permitted(old(View()), topic, direction)
    {
      if topic !in plan.topics || plan.topics[topic].direction != direction { return false; }
      var allowed := Ask();
      granted := allowed && !closed;
    }

    // ---- Sending ----

    method Respond(wire: Wire) returns (threw: bool)
      requires queue.Valid()
      modifies this, queue
      ensures queue.Valid()
      ensures (View(), threw) == M.Respond(old(View()), wire)
    {
      hide DeliveryQueue.Valid;
      Separate();
      if closed || |plan.encode(wire)| > plan.maxBytes { return true; }
      threw := Queue(plan.encode(wire));
    }

    /** Queue bytes for the control channel. */
    method Queue(bytes: Bytes) returns (threw: bool)
      requires queue.Valid()
      modifies this, queue
      ensures queue.Valid()
      ensures var (core, failed) := EnqueueControl(old(View()).core, bytes);
              threw == failed && View() == old(View()).(core := core)
    {
      hide DeliveryQueue.Valid;
      Separate();
      var message := DeliveryQueue.Copy(bytes);
      var stored := queue.Enqueue(CONTROL, message);
      threw := stored.Err?;
    }

    /** Send heads while the transport accepts them; the transport gets a copy. */
    method Drain(id: string) returns (outcome: Drained)
      requires queue.Valid()
      modifies this, queue, world
      ensures queue.Valid()
      ensures (View(), outcome) == M.Drain(old(View()), id)
    {
      hide DeliveryQueue.Valid, HandOver;
      while true
        invariant queue.Valid() && M.Drain(View(), id) == M.Drain(old(View()), id)
        decreases Pending(View().core, id)
      {
        Separate();
        var next := queue.Peek(id);
        if next.Err? { return Threw; }
        if next.value.None? { return Emptied; }
        var sent := Ask();
        if !sent { return Blocked; }
        HandOverShrinks(View().core, id, next.value.value[..]);
        TakeHead(id, next.value.value[..]);
      }
    }

    /** The transport accepted the head of a stream: it leaves the queue. */
    method TakeHead(id: string, ghost payload: Bytes)
      requires queue.Valid() && Peek(queue.View(), id) == Ok(Some(payload))
      modifies this`trace, queue
      ensures queue.Valid()
      ensures View() == old(View()).(core := HandOver(old(View()).core, id, payload))
    {
      hide DeliveryQueue.Valid, QueueModel.Dequeue, ChannelOf, ControlQueued, Oldest;
      Separate();
      trace := trace + [Handed(ChannelOf(View().core, id), id, Oldest(queue.model[id]), payload,
        ControlQueued(queue.View()))];
      var taken := queue.Dequeue(id);
    }

    static lemma HandOverShrinks(c: Core, id: string, payload: Bytes)
      requires Peek(c.queue, id) == Ok(Some(payload))
      ensures Pending(HandOver(c, id, payload), id) < Pending(c, id)
    {}

    /** Discard a subscription with its pending messages. */
    method Discard(id: string)
      requires Has(View().core, id)
      requires queue.Valid()
      modifies this`subs, queue
      ensures queue.Valid()
      ensures View() == old(View()).(core := Remove(old(View()).core, id))
    {
      hide DeliveryQueue.Valid;
      Separate();
      var at := Find(subs, id);
      subs := subs[..at] + subs[at + 1..];
      var closing := queue.CloseStream(id);
    }

    /** Decide about one subscription and drain it; one that is denied is discarded, which ends the pass. */
    method Deliver(i: nat) returns (further: bool, threw: bool)
      requires queue.Valid() && i < |subs|
      modifies this, queue, cache, video, world
      ensures queue.Valid()
      ensures if further then M.DrainSubs(old(View()), i) == M.DrainSubs(View(), i + 1)
              else (View(), threw) == M.DrainSubs(old(View()), i)
      ensures further ==> subs == old(subs) && Load(View()) <= Load(old(View()))
      decreases Load(View()), 1, 0
    {
      hide DeliveryQueue.Valid, M.Drain, M.Error, M.Permitted;
      Separate();
      var id := subs[i].id;
      var granted := Permitted(subs[i].topic, RosToWeb);
      if !granted {
        further := false;
        threw := Banish(id);
        return;
      }
      trace := trace + [Granted(id)];
      var outcome := Drain(id);
      further, threw := outcome.Emptied?, outcome.Threw?;
    }

    /** Discard a denied subscription and report it. */
    method Banish(id: string) returns (threw: bool)
      requires queue.Valid() && Has(View().core, id)
      modifies this, queue, cache, video, world
      ensures queue.Valid()
      ensures var (failed, after) := M.Ask(old(View()).(core := Expel(old(View()).core, id)));
              (View(), threw) == if failed then (after, true) else M.Error(after, None)
      decreases Load(View()), 0
    {
      hide DeliveryQueue.Valid, M.Error;
      Separate();
      trace := trace + [Denied(id)];
      Discard(id);
      Separate();
      threw := Ask();
      if !threw { threw := Error(None); }
    }

    /** Apply revocations, drain control, then drain every subscription right after deciding about it. */
    method Flush() returns (threw: bool)
      requires queue.Valid()
      modifies this, queue, cache, video, world
      ensures queue.Valid()
      ensures (View(), threw) == M.Flush(old(View()))
      decreases Load(View()), 2
    {
      hide DeliveryQueue.Valid, M.Drain, M.Revalidate, M.Error, M.Permitted;
      if closed { return false; }
      threw := video.Revalidate(this);
      if threw { return true; }
      var outcome := Drain(CONTROL);
      if !outcome.Emptied? { return outcome.Threw?; }
      threw := DeliverAll();
    }

    method DeliverAll() returns (threw: bool)
      requires queue.Valid()
      modifies this, queue, cache, video, world
      ensures queue.Valid()
      ensures (View(), threw) == M.DrainSubs(old(View()), 0)
      decreases Load(View()), 1, 1
    {
      hide DeliveryQueue.Valid, M.Drain, M.Error, M.Permitted, Load;
      var i := 0;
      while i < |subs|
        invariant 0 <= i <= |subs| && queue.Valid()
        invariant M.DrainSubs(View(), i) == M.DrainSubs(old(View()), 0)
        invariant Load(View()) <= Load(old(View()))
        decreases |subs| - i
      {
        var further;
        further, threw := Deliver(i);
        if !further { return; }
        i := i + 1;
      }
      threw := false;
    }

    /** Deliver an event the peer did not ask for. */
    method Event(wire: Wire) returns (threw: bool)
      requires queue.Valid()
      modifies this, queue, cache, video, world
      ensures queue.Valid()
      ensures (View(), threw) == M.Event(old(View()), wire)
      decreases Load(View()), 4
    {
      hide DeliveryQueue.Valid;
      Separate();
      threw := Respond(wire);
      if !threw { threw := Flush(); }
      if threw { threw := Error(None); }
    }

    /** Report a rejection; release everything if even that overflows. */
    method Error(id: Option<string>) returns (threw: bool)
      requires queue.Valid()
      modifies this, queue, cache, video, world
      ensures queue.Valid()
      ensures (View(), threw) == M.Error(old(View()), id)
      decreases Load(View()), 3
    {
      hide DeliveryQueue.Valid;
      Separate();
      if closed { return false; }
      threw := Respond(Rejected(id));
      if !threw { threw := Flush(); }
      if threw { threw := Close(); }
    }

    // ---- Closing ----

    method Unlisten() returns (failed: bool)
      modifies world
      ensures (View(), failed) == M.Unlisten(old(View()), |subs|)
    {
      failed := false;
      var left := |subs|;
      while left > 0
        invariant 0 <= left <= |subs|
        invariant M.Unlisten(old(View()), |subs|) ==
                  (M.Unlisten(View(), left).0, failed || M.Unlisten(View(), left).1)
      {
        var answer := Ask();
        failed := failed || answer;
        left := left - 1;
      }
    }

    /** Release listeners, handles, queues and video. */
    method Close() returns (threw: bool)
      requires queue.Valid()
      modifies this, queue, cache, video, world
      ensures queue.Valid()
      ensures (View(), threw) == M.Close(old(View()))
    {
      hide DeliveryQueue.Valid, M.CloseVideo, M.Unlisten, M.Load, C.Clear, DeliveryModel.Empty;
      Separate();
      if closed { return false; }
      closed := true;
      trace := trace + [Closed];
      threw := video.Close(this);
      if threw { return true; }
      threw := Unlisten();
      Forget();
    }

    method Forget()
      requires queue.Valid()
      modifies this, queue, cache
      ensures queue.Valid()
      ensures View() == old(View()).(core := DeliveryModel.Empty(old(View()).core), publishers := map[],
                                     cache := C.Clear(old(View()).cache))
    {
      hide DeliveryQueue.Valid;
      Separate();
      subs, publishers := [], map[];
      queue.Clear();
      cache.Clear();
    }

    // ---- Samples ----

    /** Give up a subscription after a refusal or an exception. */
    method Drop(id: string, denied: bool) returns (threw: bool)
      requires queue.Valid()
      modifies this, queue, cache, video, world
      ensures queue.Valid()
      ensures (View(), threw) == M.Drop(old(View()), id, denied)
    {
      hide DeliveryQueue.Valid;
      Separate();
      if Find(subs, id) < |subs| {
        if denied { trace := trace + [Denied(id)]; }
        Discard(id);
        Separate();
        var failed := Ask();
        if failed { return true; }
      }
      threw := Error(None);
    }

    /** Number a sample and offer it to its stream. */
    method Offer(id: string, data: Data, nextAt: Time) returns (threw: bool)
      requires Has(View().core, id)
      requires queue.Valid()
      modifies this`subs, this`history, queue
      ensures queue.Valid()
      ensures var (core, failed) := DeliveryModel.Offer(old(View()).core, id, data, nextAt);
              threw == failed && View() == old(View()).(core := core)
    {
      hide DeliveryQueue.Valid, QueueModel.Enqueue, Recorded;
      Separate();
      var at := Find(subs, id);
      var bytes := plan.encode(Message(id, subs[at].sequence, data));
      ghost var recorded := Recorded(View().core, id, bytes, data);
      subs := subs[at := subs[at].(sequence := subs[at].sequence + 1, nextAt := nextAt)];
      if |bytes| > plan.maxBytes { return true; }
      history := recorded;
      var message := DeliveryQueue.Copy(bytes);
      var stored := queue.Enqueue(id, message);
      threw := stored.Err?;
    }

    /** Deliver a new ROS sample to a subscription that is ready for it. */
    method Sample(id: string, encoded: Option<Data>) returns (threw: bool)
      requires queue.Valid()
      modifies this, queue, cache, video, world
      ensures queue.Valid()
      ensures (View(), threw) == M.Sample(old(View()), id, encoded)
    {
      hide DeliveryQueue.Valid, M.Drop, M.Flush, M.Permitted, DeliveryModel.Offer, Validation.Sequence;
      Separate();
      var at := Find(subs, id);
      if at == |subs| || !subs[at].ready { return false; }
      var sub := subs[at];
      var granted := Permitted(sub.topic, RosToWeb);
      if !granted { threw := Drop(id, true); return; }
      var now := Now();
      if now.Ok? && now.value < sub.nextAt { return false; }
      if now.Err? || Validation.Sequence(Decimal.Print(sub.sequence)).Err? || encoded.None? {
        threw := Drop(id, false);
        return;
      }
      threw := Offer(id, encoded.value, now.value + plan.topics[sub.topic].gapMs);
      if !threw { threw := Flush(); }
      if threw { threw := Drop(id, false); }
    }

    // ---- Requests ----

    static lemma RefusedSame(q: Queue, id: string, policy: Policy, maxMessages: int)
      ensures QueueModel.Register(q, id, policy, maxMessages).1.Err? ==>
        QueueModel.Register(q, id, policy, maxMessages).0 == q
    {}

    method OpenSubscription(topic: string, id: string) returns (response: Option<Wire>)
      requires topic in plan.topics
      requires queue.Valid()
      modifies this, queue, world
      ensures queue.Valid()
      ensures (View(), response) == M.OpenSubscription(old(View()), topic, id)
    {
      hide DeliveryQueue.Valid, StreamId, QueueModel.CloseStream, QueueModel.Register;
      Separate();
      var t := plan.topics[topic];
      nextId := nextId + 1;
      var stream := StreamId(plan.session, nextId);
      RefusedSame(queue.View(), stream, t.policy, t.maxMessages);
      var registered := queue.Register(stream, t.policy, t.maxMessages);
      if registered.Err? { return None; }
      var failed := Ask();
      if failed {
        var closing := queue.CloseStream(stream);
        return None;
      }
      Subscribe(stream, topic);
      response := Some(Subscribed(id, stream));
    }

    method Subscribe(stream: string, topic: string)
      requires topic in plan.topics
      modifies this`subs, this`history
      ensures subs == old(subs) + [Sub(stream, topic, false, 0, 0.0)]
      ensures history == old(history)[stream := History(plan.topics[topic].policy, [])]
    {
      subs := subs + [Sub(stream, topic, false, 0, 0.0)];
      history := history[stream := History(plan.topics[topic].policy, [])];
    }

    method OpenPublisher(topic: string, id: string, guardHandle: string) returns (response: Option<Wire>)
      requires topic in plan.topics
      modifies this, world
      ensures (View(), response) == M.OpenPublisher(old(View()), topic, id, guardHandle)
    {
      var handle := guardHandle;
      if plan.topics[topic].guarded {
        var failed := Ask();
        if failed { return None; }
      } else {
        nextId := nextId + 1;
        handle := StreamId(plan.session, nextId);
      }
      publishers := publishers[handle := Publisher(topic, plan.topics[topic].guarded, -1, 0.0)];
      response := Some(Advertised(id, handle));
    }

    method OpenHandle(body: Body, id: string) returns (response: Option<Wire>)
      requires body.Subscribe? || body.Advertise?
      requires queue.Valid()
      modifies this, queue, world
      ensures queue.Valid()
      ensures (View(), response) == M.OpenHandle(old(View()), body, id)
    {
      hide DeliveryQueue.Valid;
      Separate();
      if !Validation.Identifier(body.topic) { return None; }
      var granted := Permitted(body.topic, if body.Subscribe? then RosToWeb else WebToRos);
      if !granted || |subs| + |publishers| >= limits.maxHandles { return None; }
      if body.Subscribe? {
        response := OpenSubscription(body.topic, id);
      } else {
        response := OpenPublisher(body.topic, id, body.guardHandle);
      }
    }

    method CloseSubscription(stream: string, id: string) returns (response: Option<Wire>)
      requires queue.Valid()
      modifies this, queue, world
      ensures queue.Valid()
      ensures (View(), response) == M.CloseSubscription(old(View()), stream, id)
    {
      hide DeliveryQueue.Valid;
      Separate();
      if !Validation.Identifier(stream) || Find(subs, stream) == |subs| { return None; }
      Discard(stream);
      Separate();
      var failed := Ask();
      response := if failed then None else Some(Unsubscribed(id));
    }

    method UseHandle(body: Body, id: string) returns (response: Option<Wire>)
      requires body.Unadvertise? || body.Arm?
      modifies this, world
      ensures (View(), response) == M.UseHandle(old(View()), body, id)
    {
      if !Validation.Identifier(body.handle) || body.handle !in publishers { return None; }
      var publisher := publishers[body.handle];
      var granted := Permitted(publisher.topic, WebToRos);
      if !granted || (body.Arm? && !publisher.guarded) { return None; }
      if publisher.guarded {
        var failed := Ask();
        if failed { return None; }
      }
      if body.Arm? { return Some(Lease(id, body.handle)); }
      publishers := publishers - {body.handle};
      response := Some(Unadvertised(id));
    }

    method Operation(body: Body, id: string) returns (response: Option<Wire>)
      requires queue.Valid()
      modifies this, queue, cache, video, world
      ensures queue.Valid()
      ensures (View(), response) == M.Operation(old(View()), body, id)
    {
      hide DeliveryQueue.Valid;
      Separate();
      match body {
        case Subscribe(_) => response := OpenHandle(body, id);
        case Advertise(_, _) => response := OpenHandle(body, id);
        case Unsubscribe(stream) => response := CloseSubscription(stream, id);
        case VideoSubscribe(track, during) =>
          if !limits.hasVideo { return None; }
          response := video.Watch(this, track, during, id);
        case VideoUnsubscribe(mid) =>
          if !limits.hasVideo { return None; }
          response := video.Unwatch(this, mid, id);
        case Unadvertise(_) => response := UseHandle(body, id);
        case Arm(_) => response := UseHandle(body, id);
        case _ => response := None;
      }
    }

    /** Consult the cache, reserve for the largest response, execute, remember, queue. */
    method Request(body: Body, id: string, input: string) returns (threw: bool)
      requires queue.Valid()
      modifies this, queue, cache, video, world
      ensures queue.Valid()
      ensures (View(), threw) == M.Request(old(View()), body, id, input)
    {
      hide DeliveryQueue.Valid, M.Execute, M.Now, C.Lookup, C.Units, EnqueueControl;
      Separate();
      var now := Now();
      if now.Err? { return true; }
      var found := cache.Lookup(id, input, now.value);
      if found.Err? { return true; }
      if found.value.Some? {
        threw := Queue(found.value.value);
        return;
      }
      var reserved := cache.Reserve(plan.maxBytes + 2 * C.Units(input));
      if reserved.Err? { return true; }
      threw := Execute(body, id, input, now.value);
    }

    method Execute(body: Body, id: string, input: string, now: Time) returns (threw: bool)
      requires queue.Valid()
      modifies this, queue, cache, video, world
      ensures queue.Valid()
      ensures (View(), threw) == M.Execute(old(View()), body, id, input, now)
    {
      hide DeliveryQueue.Valid;
      Separate();
      var response := Operation(body, id);
      Separate();
      if response.None? { return true; }
      var bytes := plan.encode(response.value);
      if |bytes| > plan.maxBytes { return true; }
      cache.Store(id, input, bytes, now);
      threw := Queue(bytes);
    }

    method Control(id: Option<string>, body: Body, input: string) returns (threw: bool)
      requires queue.Valid()
      modifies this, queue, cache, video, world
      ensures queue.Valid()
      ensures (View(), threw) == M.Control(old(View()), id, body, input)
    {
      hide DeliveryQueue.Valid;
      Separate();
      if body.Hello? {
        if welcomed { return true; }
        threw := Respond(Welcome(body.catalog * plan.topics.Keys, body.tracks));
        Separate();
        if !threw { welcomed := true; }
        return;
      }
      if !welcomed { return true; }
      if body.Ready? {
        var at := Find(subs, body.stream);
        if !Validation.Identifier(body.stream) || at == |subs| { return true; }
        subs := subs[at := subs[at].(ready := true)];
        return false;
      }
      if id.None? { return true; }
      threw := Request(body, id.value, input);
    }

    // ---- Publishing ----

    method SendToRos(topic: string) returns (threw: bool)
      modifies world
      ensures (View(), threw) == M.SendToRos(old(View()), topic)
    {
      var granted := Permitted(topic, WebToRos);
      if !granted { return true; }
      threw := Ask();
    }

    method Publishing(body: Body, publisher: Publisher, sequence: nat, now: Time) returns (threw: bool)
      requires body.Publish? && publisher.topic in plan.topics
      requires queue.Valid()
      modifies this, queue, world
      ensures queue.Valid()
      ensures (View(), threw) == M.Publishing(old(View()), body, publisher, sequence, now)
    {
      hide DeliveryQueue.Valid, M.SendToRos, M.Respond;
      Separate();
      var refused := body.leased;
      if publisher.guarded { refused := Ask(); }
      if refused { return true; }
      var nextAt := now + plan.topics[publisher.topic].gapMs;
      publishers := publishers[body.handle := publisher.(sequence := sequence, nextAt := nextAt)];
      if publisher.guarded {
        var revoked := Ask();
        if revoked { return true; }
      }
      threw := SendToRos(publisher.topic);
      if threw { return true; }
      published := published + [Published(body.handle, publisher.topic, sequence, now)];
      threw := Respond(PublishedToRos(body.handle, sequence));
    }

    method PublishMessage(channel: Channel, body: Body) returns (threw: bool)
      requires queue.Valid()
      modifies this, queue, world
      ensures queue.Valid()
      ensures (View(), threw) == M.PublishMessage(old(View()), channel, body)
    {
      hide DeliveryQueue.Valid;
      Separate();
      if !welcomed || !body.Publish? || !body.current { return true; }
      if !Validation.Identifier(body.handle) || body.handle !in publishers { return true; }
      var publisher := publishers[body.handle];
      var granted := Permitted(publisher.topic, WebToRos);
      if !granted || channel != DataChannel(plan.topics[publisher.topic].reliable) { return true; }
      var sequence := Validation.Sequence(body.sequence);
      if sequence.Err? { return true; }
      var now := Now();
      if now.Err? || sequence.value <= publisher.sequence || now.value < publisher.nextAt || !body.decodes {
        return true;
      }
      threw := Publishing(body, publisher, sequence.value, now.value);
    }

    // ---- Receiving ----

    method ControlRate() returns (limited: bool)
      modifies this, world
      ensures (View(), limited) == M.ControlRate(old(View()))
    {
      var now := Now();
      if now.Err? { return true; }
      var current := (now.value / 1000.0).Floor;
      if current != window { window, count := current, 0; }
      count := count + 1;
      limited := count > limits.maxControlRate;
    }

    method Handle(m: Incoming) returns (threw: bool, id: Option<string>)
      requires queue.Valid()
      modifies this, queue, cache, video, world
      ensures queue.Valid()
      ensures (View(), threw, id) == M.Handle(old(View()), m)
    {
      hide DeliveryQueue.Valid;
      Separate();
      if m.channel.None? { return true, None; }
      if m.channel.value.ControlChannel? {
        var limited := ControlRate();
        if limited { return true, None; }
      }
      if m.envelope.None? { return true, None; }
      var e := m.envelope.value;
      if e.id.Some? && !Validation.Identifier(e.id.value) { return true, None; }
      id := e.id;
      if m.channel.value.ControlChannel? {
        threw := Control(e.id, e.body, e.input);
      } else {
        threw := PublishMessage(m.channel.value, e.body);
      }
    }

    /** Validate and execute one inbound message; a rejection is reported, never thrown on. */
    method Receive(m: Incoming) returns (threw: bool)
      requires queue.Valid()
      modifies this, queue, cache, video, world
      ensures queue.Valid()
      ensures (View(), threw) == M.Receive(old(View()), m)
    {
      hide DeliveryQueue.Valid;
      Separate();
      if closed { return false; }
      var id;
      threw, id := Handle(m);
      if !threw { threw := Flush(); }
      if threw { threw := Error(id); }
    }
  }

  class VideoRouter {
    /** Bindings in the order they were made. */
    var bound: seq<V.Binding>
    var free: seq<V.Slot>

    constructor (slots: seq<V.Slot>)
      ensures View() == V.Initial(slots)
    {
      bound, free := [], slots;
    }

    function View(): V.Video
      reads this
    {
      V.Video(bound, free)
    }

    /** Bind a slot of the wanted profile to a track, or reuse the one already bound. */
    method Bind(track: string, wanted: nat) returns (r: Result<nat>)
      modifies this
      ensures var bound := V.Bind(old(View()), track, wanted);
              && r.Err? == bound.Err? && View() == (if bound.Ok? then bound.value else old(View()))
              && (r.Ok? ==> r.value == V.Position(View().bound, track) && V.Has(View(), track))
    {
      var at := V.Position(bound, track);
      if at < |bound| { return Ok(at); }
      if free == [] { return Err("video_slot_limit"); }
      var index := 0;
      while index < |free| && free[index].profile != wanted
        invariant 0 <= index <= |free| && forall k :: 0 <= k < index ==> free[k].profile != wanted
      {
        index := index + 1;
      }
      if index == |free| { return Err("video_profile_mismatch"); }
      V.PositionAppend(bound, V.Binding(track, free[index], false, false), track);
      bound, free := bound + [V.Binding(track, free[index], false, false)], free[..index] + free[index + 1..];
      r := Ok(at);
    }

    /** Stop delivering a track, keeping its slot; a media plane that is down throws when told to detach. */
    method Release(i: nat, world: Surroundings) returns (threw: bool)
      requires i < |bound|
      modifies this`bound
      ensures View() == V.FlagAt(old(View()), i, false) && threw == (old(bound)[i].attached && world.planeDown)
    {
      threw := bound[i].attached && world.planeDown;
      bound := bound[i := bound[i].(watching := false, attached := false)];
    }

    method Close(router: SessionRouter) returns (threw: bool)
      requires router.video == this
      modifies this`bound
      ensures (router.View(), threw) == M.CloseVideo(old(router.View()), 0)
    {
      var i := 0;
      while i < |bound|
        invariant 0 <= i <= |bound|
        invariant M.CloseVideo(router.View(), i) == M.CloseVideo(old(router.View()), 0)
        decreases |bound| - i
      {
        threw := Release(i, router.world);
        if threw { return true; }
        i := i + 1;
      }
      threw := false;
    }

    /** Re-evaluate authorization for every watched track; losing access detaches and is told. */
    method Revalidate(router: SessionRouter) returns (threw: bool)
      requires router.video == this
      requires router.queue.Valid()
      modifies this, router, router.queue, router.cache, router.world
      ensures router.queue.Valid()
      ensures (router.View(), threw) == M.Revalidate(old(router.View()), 0)
      decreases Load(router.View()), 1
    {
      hide DeliveryQueue.Valid, M.Notice;
      router.Separate();
      ghost var first := router.View();
      var i := 0;
      while i < |bound|
        invariant 0 <= i <= |bound| == |first.video.bound|
        invariant router.queue.Valid() && M.Revalidate(router.View(), i) == M.Revalidate(first, 0)
        invariant Load(router.View()) <= Load(first)
        decreases |bound| - i
      {
        router.Separate();
        if bound[i].watching {
          var allowed := router.Ask();
          if !allowed {
            V.WatchedFlag(View(), i, false);
            threw := Release(i, router.world);
            if threw { return true; }
            threw := State(router, i, Failed);
            if threw { return true; }
          }
        }
        i := i + 1;
      }
      threw := false;
    }

    /** What the viewer of a binding does with a lifecycle change: drop the flags on failure, tell the peer. */
    method State(router: SessionRouter, i: nat, phase: Phase) returns (threw: bool)
      requires router.video == this && i < |bound|
      requires router.queue.Valid()
      modifies this, router, router.queue, router.cache, router.world
      ensures router.queue.Valid()
      ensures (router.View(), threw) == M.Notice(old(router.View()), i, phase)
      decreases Load(router.View()), 5
    {
      hide DeliveryQueue.Valid;
      router.Separate();
      V.WatchedFlag(View(), i, false);
      if phase == Failed { bound := bound[i := bound[i].(watching := false, attached := false)]; }
      threw := router.Event(VideoState(bound[i].track, bound[i].slot.mid, phase));
    }

    /** Everything the media plane announces before an attachment returns. */
    method Announced(router: SessionRouter, i: nat, phases: seq<Phase>) returns (threw: bool)
      requires router.video == this && i < |bound|
      requires router.queue.Valid()
      modifies this, router, router.queue, router.cache, router.world
      ensures router.queue.Valid()
      ensures (router.View(), threw) == M.Announced(old(router.View()), i, phases)
    {
      hide DeliveryQueue.Valid;
      router.Separate();
      var k := 0;
      while k < |phases|
        invariant 0 <= k <= |phases| && i < |bound|
        invariant router.queue.Valid()
        invariant M.Announced(router.View(), i, phases[k..]) == M.Announced(old(router.View()), i, phases)
      {
        router.Separate();
        assert phases[k..][1..] == phases[k + 1..];
        threw := State(router, i, phases[k]);
        if threw { return true; }
        k := k + 1;
      }
      threw := false;
    }

    /** Watch a track; marked watched only once the media plane has accepted the viewer. */
    method Watch(router: SessionRouter, track: string, during: seq<Phase>, id: string) returns (response: Option<Wire>)
      requires router.video == this
      requires router.queue.Valid()
      modifies this, router, router.queue, router.cache, router.world
      ensures router.queue.Valid()
      ensures (router.View(), response) == M.WatchTrack(old(router.View()), track, during, id)
    {
      hide DeliveryQueue.Valid;
      router.Separate();
      if !Validation.Identifier(track) { return None; }
      var granted := router.Ask();
      if !granted || track !in router.limits.profiles { return None; }
      var entry := Bind(track, router.limits.profiles[track]);
      if entry.Err? { return None; }
      var i := entry.value;
      var answer := VideoSubscribed(id, track, bound[i].slot.mid);
      if !bound[i].watching {
        var refused := router.Ask();
        if refused || router.world.planeDown { return None; }
        var threw := Announced(router, i, during);
        router.Separate();
        if threw { return None; }
        bound := bound[i := bound[i].(watching := true, attached := true)];
      }
      response := Some(answer);
    }

    method Unwatch(router: SessionRouter, mid: string, id: string) returns (response: Option<Wire>)
      requires router.video == this
      modifies this
      ensures (router.View(), response) == M.UnwatchTrack(old(router.View()), mid, id)
    {
      var i := V.OnMid(bound, mid);
      if !Validation.Identifier(mid) || i == |bound| { return None; }
      var threw := Release(i, router.world);
      response := if threw then None else Some(VideoUnsubscribed(id));
    }
  }
}
