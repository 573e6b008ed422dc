/**
 * One peer's session as a state machine. What the program asks of its surroundings (does the transport accept,
 * is this allowed, does a callback throw) is answered from a tape; a claim about every tape is a claim about
 * every surrounding. Exceptions are the boolean or `Err` beside the new state.
 */
module RouterModel {
  import opened Basics
  import opened MediaTypes
  import opened QueueModel
  import opened DeliveryModel
  import opened Validation
  import C = CacheModel
  import V = VideoModel
  import Decimal

  /**
   * Answers in the order they are asked for, `false` once they run out; the readings of the clock; and whether
   * the media plane has shut down, after which it throws when told to attach or detach.
   */
  datatype World = World(answers: seq<bool>, ticks: seq<Time>, planeDown: bool)

  datatype Publisher = Publisher(topic: string, guarded: bool, sequence: int, nextAt: Time)

  /** One message accepted for ROS. */
  datatype Published = Published(handle: string, topic: string, sequence: nat, at: Time)

  datatype Limits = Limits(
    maxHandles: Positive, maxControlRate: Positive, ttlMs: Duration, hasVideo: bool, profiles: map<string, nat>)

  datatype Router = Router(
    limits: Limits, core: Core, world: World, cache: C.Cache, video: V.Video, publishers: map<string, Publisher>,
    lastTime: Time, window: int, count: nat, welcomed: bool, published: seq<Published>)

  // ---- A new session ----

  /** The queue of a new session, with its control stream registered. */
  function FirstQueue(maxHandles: Positive, maxBytes: Positive, maxMessageBytes: Positive, maxRequests: Positive)
    : Queue
  {
    Register(QueueModel.Initial(maxHandles + 1, maxBytes, maxMessageBytes), CONTROL, Reliable, maxRequests).0
  }

  function Start(limits: Limits, plan: Plan, queue: Queue, cache: C.Cache, slots: seq<V.Slot>, world: World): Router {
    Router(limits, Core(plan, queue, [], 0, false, [], map[]), world, cache, V.Initial(slots), map[],
           0.0, 0, 0, false, [])
  }

  // ---- Surroundings ----

  function Ask(r: Router): (result: (bool, Router))
    ensures result.1 == r.(world := result.1.world) && result.1.world.planeDown == r.world.planeDown
  {
    var answers := r.world.answers;
    if answers == [] then (false, r) else (answers[0], r.(world := r.world.(answers := answers[1..])))
  }

  /** Read the clock; a reading that goes back or leaves no room for a lifetime is an error. */
  function Now(r: Router): (Result<Time>, Router) {
    var ticks := r.world.ticks;
    var value := if ticks == [] then r.lastTime else ticks[0];
    var read := if ticks == [] then r else r.(world := r.world.(ticks := ticks[1..]));
    if value < r.lastTime || value > MAX_SAFE as real - r.limits.ttlMs then (Err("invalid_clock"), read)
    else (Ok(value), read.(lastTime := value))
  }

  /** Is the topic known, of this direction, and allowed right now? */
  function Permitted(r: Router, topic: string, direction: Direction): (result: (bool, Router))
    ensures result.1 == r.(world := result.1.world) && result.1.world.planeDown == r.world.planeDown
    ensures result.0 ==>
      topic in r.core.plan.topics && r.core.plan.topics[topic].direction == direction && !r.core.closed
  {
    if topic !in r.core.plan.topics || r.core.plan.topics[topic].direction != direction then (false, r)
    else
      var (allowed, asked) := Ask(r);
      (allowed && !r.core.closed, asked)
  }

  // ---- Sending ----

  /** What keeps flushing, reporting and revoking from going on for ever. */
  function Load(r: Router): nat {
    V.Watched(r.video.bound) + |r.core.subs|
  }

  /** The same session at the same time: closed if it was closed, its cache as it was unless that is by now. */
  ghost predicate Continues(r: Router, later: Router) {
    && later.limits == r.limits && later.core.plan == r.core.plan && later.core.nextId == r.core.nextId
    && later.lastTime == r.lastTime && later.published == r.published
    && (r.core.closed ==> later.core.closed)
    && (later.cache == r.cache || (later.core.closed && later.cache == C.Clear(r.cache)))
  }

  /** No more load than before, the same tracks bound, the plane as it was; the rest as it was, or released. */
  ghost predicate Within(r: Router, later: Router) {
    && Continues(r, later)
    && Load(later) <= Load(r) && |later.video.bound| == |r.video.bound|
    && later.world.planeDown == r.world.planeDown && |later.core.subs| <= |r.core.subs|
    && (later.publishers == r.publishers || later.publishers == map[])
  }

  function Respond(r: Router, wire: Wire): (result: (Router, bool))
    ensures result.0 == r.(core := result.0.core) && result.0.core == r.core.(queue := result.0.core.queue)
  {
    if r.core.closed || |r.core.plan.encode(wire)| > r.core.plan.maxBytes then (r, true)
    else
      var (core, threw) := EnqueueControl(r.core, r.core.plan.encode(wire));
      (r.(core := core), threw)
  }

  datatype Drained = Emptied | Blocked | Threw

  function Pending(c: Core, id: string): nat {
    if id in c.queue.streams then |c.queue.streams[id].pending| else 0
  }

  /** Hand over the head of a stream while the transport accepts it. */
  function Drain(r: Router, id: string): (result: (Router, Drained))
    ensures result.0 == r.(core := result.0.core, world := result.0.world)
    ensures result.0.core == r.core.(queue := result.0.core.queue, trace := result.0.core.trace)
    ensures result.0.world.planeDown == r.world.planeDown
    decreases Pending(r.core, id)
  {
    var next := Peek(r.core.queue, id);
    if next.Err? then (r, Threw)
    else if next.value.None? then (r, Emptied)
    else
      var (sent, asked) := Ask(r);
      if !sent then (asked, Blocked) else Drain(asked.(core := HandOver(asked.core, id, next.value.value)), id)
  }

  /** Drain every subscription in order, deciding about each right before. */
  function DrainSubs(r: Router, i: nat): (result: (Router, bool))
    ensures Within(r, result.0)
    decreases Load(r), 1, |r.core.subs| - i
  {
    if i >= |r.core.subs| then (r, false)
    else
      var sub := r.core.subs[i];
      var (granted, asked) := Permitted(r, sub.topic, RosToWeb);
      if !granted then
        var (failed, after) := Ask(asked.(core := Expel(asked.core, sub.id)));
        if failed then (after, true) else Error(after, None)
      else
        var (drained, outcome) := Drain(asked.(core := Grant(asked.core, sub.id)), sub.id);
        if outcome.Emptied? then DrainSubs(drained, i + 1) else (drained, outcome.Threw?)
  }

  /** Losing access to a watched track detaches it and tells the peer. */
  function Revalidate(r: Router, i: nat): (result: (Router, bool))
    ensures Within(r, result.0)
    decreases Load(r), 1, |r.video.bound| - i
  {
    if i >= |r.video.bound| then (r, false)
    else if !r.video.bound[i].watching then Revalidate(r, i + 1)
    else
      var (allowed, asked) := Ask(r);
      if allowed then Revalidate(asked, i + 1)
      else
        V.WatchedFlag(r.video, i, false);
        var (released, threw) := LetGo(asked, i);
        if threw then (released, true)
        else
          var (told, failed) := Notice(released, i, Failed);
          if failed then (told, true) else Revalidate(told, i + 1)
  }

  /** Stop delivering a bound track; a media plane that is down throws when told to detach. */
  function LetGo(r: Router, i: nat): (Router, bool)
    requires i < |r.video.bound|
  {
    (r.(video := V.FlagAt(r.video, i, false)), r.video.bound[i].attached && r.world.planeDown)
  }

  /** A lifecycle notification of the media plane, passed on to the peer. */
  function Notice(r: Router, i: nat, phase: Phase): (result: (Router, bool))
    requires i < |r.video.bound|
    ensures Within(r, result.0)
    decreases Load(r), 5
  {
    V.WatchedFlag(r.video, i, false);
    var told := if phase == Failed then r.(video := V.FlagAt(r.video, i, false)) else r;
    Event(told, VideoState(told.video.bound[i].track, told.video.bound[i].slot.mid, phase))
  }

  /** Deliver an event the peer did not ask for. */
  function Event(r: Router, wire: Wire): (result: (Router, bool))
    ensures Within(r, result.0)
    decreases Load(r), 4
  {
    var (queued, threw) := Respond(r, wire);
    if threw then Error(queued, None)
    else
      var (flushed, failed) := Flush(queued);
      if failed then Error(flushed, None) else (flushed, false)
  }

  /** Report a rejection; if even that fails, close. */
  function Error(r: Router, id: Option<string>): (result: (Router, bool))
    ensures Within(r, result.0)
    decreases Load(r), 3
  {
    if r.core.closed then (r, false)
    else
      var (queued, threw) := Respond(r, Rejected(id));
      if threw then Close(queued)
      else
        var (flushed, failed) := Flush(queued);
        if failed then Close(flushed) else (flushed, false)
  }

  /** Apply revocations, then send control, then data. */
  function Flush(r: Router): (result: (Router, bool))
    ensures Within(r, result.0)
    decreases Load(r), 2
  {
    if r.core.closed then (r, false)
    else
      var (valid, threw) := Revalidate(r, 0);
      if threw then (valid, true)
      else
        var (drained, outcome) := Drain(valid, CONTROL);
        if outcome.Emptied? then DrainSubs(drained, 0) else (drained, outcome.Threw?)
  }

  // ---- Closing ----

  function CloseVideo(r: Router, i: nat): (result: (Router, bool))
    ensures result.0 == r.(video := result.0.video) && Within(r, result.0)
    decreases |r.video.bound| - i
  {
    if i >= |r.video.bound| then (r, false)
    else
      V.WatchedFlag(r.video, i, false);
      var (released, threw) := LetGo(r, i);
      if threw then (released, true) else CloseVideo(released, i + 1)
  }

  /** Detach the ROS listeners; one that fails does not keep the others. */
  function Unlisten(r: Router, listeners: nat): (result: (Router, bool))
    ensures result.0 == r.(world := result.0.world) && result.0.world.planeDown == r.world.planeDown
    decreases listeners
  {
    if listeners == 0 then (r, false)
    else
      var (failed, asked) := Ask(r);
      var (rest, more) := Unlisten(asked, listeners - 1);
      (rest, failed || more)
  }

  function Close(r: Router): (result: (Router, bool))
    ensures Within(r, result.0)
  {
    if r.core.closed then (r, false)
    else
      var (silent, threw) := CloseVideo(r.(core := MarkClosed(r.core)), 0);
      if threw then (silent, true)
      else
        var (quiet, failed) := Unlisten(silent, |silent.core.subs|);
        (quiet.(core := Empty(quiet.core), publishers := map[], cache := C.Clear(quiet.cache)), failed)
  }

  // ---- Samples ----

  /** Give up a subscription: discard it, detach its listener, report. */
  function Drop(r: Router, id: string, denied: bool): (Router, bool) {
    if !Has(r.core, id) then Error(r, None)
    else
      var (failed, after) := Ask(r.(core := if denied then Expel(r.core, id) else Remove(r.core, id)));
      if failed then (after, true) else Error(after, None)
  }

  /** A ROS sample for one subscription; `None` is a sample its codec refuses. */
  function Sample(r: Router, id: string, encoded: Option<Data>): (Router, bool) {
    if !Has(r.core, id) || !r.core.subs[Find(r.core.subs, id)].ready then (r, false)
    else
      var sub := r.core.subs[Find(r.core.subs, id)];
      var (granted, asked) := Permitted(r, sub.topic, RosToWeb);
      if !granted then Drop(asked, id, true)
      else
        var (now, read) := Now(asked);
        if now.Err? then Drop(read, id, false)
        else if now.value < sub.nextAt then (read, false)
        else if Sequence(Decimal.Print(sub.sequence)).Err? || encoded.None? then Drop(read, id, false)
        else
          var (core, threw) := Offer(read.core, id, encoded.value, now.value + r.core.plan.topics[sub.topic].gapMs);
          var offered := read.(core := core);
          if threw then Drop(offered, id, false)
          else
            var (flushed, failed) := Flush(offered);
            if failed then Drop(flushed, id, false) else (flushed, false)
  }

  // ---- Requests ----

  datatype Body =
    /** The topics and tracks this peer is allowed. */
    | Hello(catalog: set<string>, tracks: set<string>)
    | Ready(stream: string)
    | Subscribe(topic: string)
    | Unsubscribe(stream: string)
    /** `guardHandle` is the handle the command guard opens for a guarded topic. */
    | Advertise(topic: string, guardHandle: string)
    | Unadvertise(handle: string)
    | Arm(handle: string)
    /** `during` is what the media plane announces while the viewer is being attached. */
    | VideoSubscribe(track: string, during: seq<Phase>)
    | VideoUnsubscribe(mid: string)
    | Publish(handle: string, current: bool, sequence: string, decodes: bool, leased: bool)
    | Unknown

  /** A parsed envelope; `input` is its canonical text. */
  datatype Envelope = Envelope(id: Option<string>, body: Body, input: string)

  /** `None` for an unknown channel label and for bytes that are no envelope. */
  datatype Incoming = Incoming(channel: Option<Channel>, envelope: Option<Envelope>)

  predicate Registers(c: Core, topic: string)
    requires topic in c.plan.topics
  {
    Register(c.queue, StreamId(c.plan.session, c.nextId + 1), c.plan.topics[topic].policy,
             c.plan.topics[topic].maxMessages).1.Ok?
  }

  function OpenSubscription(r: Router, topic: string, id: string): (Router, Option<Wire>)
    requires topic in r.core.plan.topics
  {
    if !Registers(r.core, topic) then (r.(core := OpenStream(r.core, topic, false).0), None)
    else
      var (failed, asked) := Ask(r);
      var (core, stream) := OpenStream(asked.core, topic, !failed);
      (asked.(core := core), if stream.None? then None else Some(Subscribed(id, stream.value)))
  }

  function OpenPublisher(r: Router, topic: string, id: string, handle: string): (Router, Option<Wire>)
    requires topic in r.core.plan.topics
  {
    if r.core.plan.topics[topic].guarded then
      var (failed, asked) := Ask(r);
      if failed then (asked, None)
      else
        (asked.(publishers := asked.publishers[handle := Publisher(topic, true, -1, 0.0)]),
          Some(Advertised(id, handle)))
    else
      var own := StreamId(r.core.plan.session, r.core.nextId + 1);
      (r.(core := r.core.(nextId := r.core.nextId + 1),
          publishers := r.publishers[own := Publisher(topic, false, -1, 0.0)]), Some(Advertised(id, own)))
  }

  /** Subscribing and advertising share one bound on handles. */
  function OpenHandle(r: Router, body: Body, id: string): (Router, Option<Wire>)
    requires body.Subscribe? || body.Advertise?
  {
    if !Identifier(body.topic) then (r, None)
    else
      var (granted, asked) := Permitted(r, body.topic, if body.Subscribe? then RosToWeb else WebToRos);
      if !granted || |asked.core.subs| + |asked.publishers| >= asked.limits.maxHandles then (asked, None)
      else if body.Subscribe? then OpenSubscription(asked, body.topic, id)
      else OpenPublisher(asked, body.topic, id, body.guardHandle)
  }

  function CloseSubscription(r: Router, stream: string, id: string): (Router, Option<Wire>) {
    if !Identifier(stream) || !Has(r.core, stream) then (r, None)
    else
      var (failed, asked) := Ask(r.(core := Remove(r.core, stream)));
      (asked, if failed then None else Some(Unsubscribed(id)))
  }

  function UseHandle(r: Router, body: Body, id: string): (Router, Option<Wire>)
    requires body.Unadvertise? || body.Arm?
  {
    if !Identifier(body.handle) || body.handle !in r.publishers then (r, None)
    else
      var publisher := r.publishers[body.handle];
      var (granted, asked) := Permitted(r, publisher.topic, WebToRos);
      if !granted || (body.Arm? && !publisher.guarded) then (asked, None)
      else
        var (failed, after) := if publisher.guarded then Ask(asked) else (false, asked);
        if failed then (after, None)
        else if body.Arm? then (after, Some(Lease(id, body.handle)))
        else (after.(publishers := after.publishers - {body.handle}), Some(Unadvertised(id)))
  }

  /** Everything the media plane announces before it returns from an attachment. */
  function Announced(r: Router, i: nat, phases: seq<Phase>): (result: (Router, bool))
    requires i < |r.video.bound|
    ensures |result.0.video.bound| == |r.video.bound|
    decreases |phases|
  {
    if phases == [] then (r, false)
    else
      var (told, threw) := Notice(r, i, phases[0]);
      if threw then (told, true) else Announced(told, i, phases[1..])
  }

  function WatchTrack(r: Router, track: string, during: seq<Phase>, id: string): (Router, Option<Wire>) {
    if !Identifier(track) then (r, None)
    else
      var (granted, asked) := Ask(r);
      if !granted || track !in r.limits.profiles then (asked, None)
      else
        var bound := V.Bind(asked.video, track, r.limits.profiles[track]);
        if bound.Err? then (asked, None)
        else
          var ready := asked.(video := bound.value);
          var i := V.Position(ready.video.bound, track);
          var answer := VideoSubscribed(id, track, ready.video.bound[i].slot.mid);
          if ready.video.bound[i].watching then (ready, Some(answer))
          else
            var (refused, told) := Ask(ready);
            if refused || told.world.planeDown then (told, None)
            else
              var (after, threw) := Announced(told, i, during);
              if threw then (after, None)
              else (after.(video := V.FlagAt(after.video, i, true)), Some(answer))
  }

  function UnwatchTrack(r: Router, mid: string, id: string): (Router, Option<Wire>) {
    var i := V.OnMid(r.video.bound, mid);
    if !Identifier(mid) || i == |r.video.bound| then (r, None)
    else
      var (released, threw) := LetGo(r, i);
      (released, if threw then None else Some(VideoUnsubscribed(id)))
  }

  /** The response to a request with an identifier; `None` when the operation throws. */
  function Operation(r: Router, body: Body, id: string): (Router, Option<Wire>) {
    match body
    case Subscribe(_) => OpenHandle(r, body, id)
    case Advertise(_, _) => OpenHandle(r, body, id)
    case Unsubscribe(stream) => CloseSubscription(r, stream, id)
    case VideoSubscribe(track, during) => if r.limits.hasVideo then WatchTrack(r, track, during, id) else (r, None)
    case VideoUnsubscribe(mid) => if r.limits.hasVideo then UnwatchTrack(r, mid, id) else (r, None)
    case Unadvertise(_) => UseHandle(r, body, id)
    case Arm(_) => UseHandle(r, body, id)
    case _ => (r, None)
  }

  /** Run an operation whose response is reserved for, remember the response, queue it. */
  function Execute(r: Router, body: Body, id: string, input: string, now: Time): (Router, bool) {
    var (done, response) := Operation(r, body, id);
    if response.None? || |r.core.plan.encode(response.value)| > r.core.plan.maxBytes then (done, true)
    else
      var bytes := r.core.plan.encode(response.value);
      var (core, threw) := EnqueueControl(done.core, bytes);
      (done.(cache := C.Store(done.cache, id, input, bytes, now), core := core), threw)
  }

  /** A request with an identifier: replay what is remembered, or reserve and execute. */
  ghost function Request(r: Router, body: Body, id: string, input: string): (Router, bool) {
    var (now, read) := Now(r);
    if now.Err? then (read, true)
    else
      var (cache, found) := C.Lookup(read.cache, id, input, now.value);
      var looked := read.(cache := cache);
      if found.Err? then (looked, true)
      else if found.value.Some? then
        var (core, threw) := EnqueueControl(looked.core, found.value.value);
        (looked.(core := core), threw)
      else if C.Reserve(cache, r.core.plan.maxBytes + 2 * C.Units(input)).Err? then (looked, true)
      else Execute(looked, body, id, input, now.value)
  }

  ghost function Control(r: Router, id: Option<string>, body: Body, input: string): (Router, bool) {
    if body.Hello? then
      if r.welcomed then (r, true)
      else
        var (queued, threw) := Respond(r, Welcome(body.catalog * r.core.plan.topics.Keys, body.tracks));
        (if threw then queued else queued.(welcomed := true), threw)
    else if !r.welcomed then (r, true)
    else if body.Ready? then
      if !Identifier(body.stream) || !Has(r.core, body.stream) then (r, true)
      else
        var at := Find(r.core.subs, body.stream);
        (r.(core := r.core.(subs := r.core.subs[at := r.core.subs[at].(ready := true)])), false)
    else if id.None? then (r, true)
    else Request(r, body, id.value, input)
  }

  // ---- Publishing ----

  /** The message leaves for ROS, if it is still allowed and ROS takes it. */
  function SendToRos(r: Router, topic: string): (result: (Router, bool))
    ensures result.0 == r.(world := result.0.world)
  {
    var (granted, asked) := Permitted(r, topic, WebToRos);
    if !granted then (asked, true)
    else
      var (failed, after) := Ask(asked);
      (after, failed)
  }

  function PublishMessage(r: Router, channel: Channel, body: Body): (Router, bool) {
    if !r.welcomed || !body.Publish? || !body.current then (r, true)
    else if !Identifier(body.handle) || body.handle !in r.publishers then (r, true)
    else
      var publisher := r.publishers[body.handle];
      var (granted, asked) := Permitted(r, publisher.topic, WebToRos);
      if !granted || channel != DataChannel(r.core.plan.topics[publisher.topic].reliable)
         || Sequence(body.sequence).Err? then (asked, true)
      else
        var sequence := Sequence(body.sequence).value;
        var (now, read) := Now(asked);
        if now.Err? || sequence <= publisher.sequence || now.value < publisher.nextAt || !body.decodes then (read, true)
        else Publishing(read, body, publisher, sequence, now.value)
  }

  /** Take a ticket if the topic is guarded, record the sequence, publish, acknowledge. */
  function Publishing(r: Router, body: Body, publisher: Publisher, sequence: nat, now: Time): (Router, bool)
    requires body.Publish? && publisher.topic in r.core.plan.topics
  {
    var (refused, asked) := if publisher.guarded then Ask(r) else (body.leased, r);
    if refused then (asked, true)
    else
      var gap := r.core.plan.topics[publisher.topic].gapMs;
      var recorded := asked.(publishers :=
        asked.publishers[body.handle := publisher.(sequence := sequence, nextAt := now + gap)]);
      var (revoked, current) := if publisher.guarded then Ask(recorded) else (false, recorded);
      if revoked then (current, true)
      else
        var (sent, failed) := SendToRos(current, publisher.topic);
        if failed then (sent, true)
        else
          Respond(sent.(published := sent.published + [Published(body.handle, publisher.topic, sequence, now)]),
                  PublishedToRos(body.handle, sequence))
  }

  // ---- Turns ----

  /** Count control messages in windows of one second. */
  function ControlRate(r: Router): (Router, bool) {
    var (now, read) := Now(r);
    if now.Err? then (read, true)
    else
      var window := (now.value / 1000.0).Floor;
      var count := if window != read.window then 1 else read.count + 1;
      (read.(window := window, count := count), count > r.limits.maxControlRate)
  }

  /** Everything up to the final flush; the identifier is the one a rejection may name. */
  ghost function Handle(r: Router, m: Incoming): (Router, bool, Option<string>) {
    if m.channel.None? then (r, true, None)
    else
      var (rated, limited) := if m.channel.value.ControlChannel? then ControlRate(r) else (r, false);
      if limited || m.envelope.None? then (rated, true, None)
      else
        var e := m.envelope.value;
        if e.id.Some? && !Identifier(e.id.value) then (rated, true, None)
        else
          var (done, threw) :=
            if m.channel.value.ControlChannel? then Control(rated, e.id, e.body, e.input)
            else PublishMessage(rated, m.channel.value, e.body);
          (done, threw, e.id)
  }

  ghost function Receive(r: Router, m: Incoming): (Router, bool) {
    if r.core.closed then (r, false)
    else
      var (done, threw, id) := Handle(r, m);
      if threw then Error(done, id)
      else
        var (flushed, failed) := Flush(done);
        if failed then Error(flushed, id) else (flushed, false)
  }

  datatype Turn =
    | Receives(message: Incoming)
    /** Backpressure cleared. */
    | Flushes
    | Sampled(stream: string, encoded: Option<Data>)
    | Notified(track: string, phase: Phase)
    | Closes
    /** The media plane shuts down. */
    | PlaneCloses

  ghost function Take(r: Router, turn: Turn): Router {
    match turn
    case Receives(m) => Receive(r, m).0
    case Flushes => Flush(r).0
    case Sampled(stream, encoded) => Sample(r, stream, encoded).0
    case Notified(track, phase) =>
      if V.Has(r.video, track) then Notice(r, V.Position(r.video.bound, track), phase).0 else r
    case Closes => Close(r).0
    case PlaneCloses => r.(world := r.world.(planeDown := true))
  }

  ghost function Run(r: Router, turns: seq<Turn>): Router
    decreases |turns|
  {
    if turns == [] then r else Run(Take(r, turns[0]), turns[1..])
  }
}
