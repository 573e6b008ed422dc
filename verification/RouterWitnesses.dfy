/** A concrete session whose close is kept from releasing anything. */
module RouterWitnesses {
  import opened Basics
  import opened MediaTypes
  import opened QueueModel
  import opened DeliveryModel
  import opened RouterModel
  import C = CacheModel
  import RouterSafety
  import V = VideoModel
  import Validation

  const FRONT := "front"
  const LIMITS := Limits(4, 10, 1000.0, true, map[FRONT := 66])
  const PLAN := Plan("session", map[], 100, (wire: Wire) => [0])
  const SLOT := V.Slot("0", 66)

  /** The transport takes nothing; the peer is allowed to watch, and still is when it is asked again. */
  const WORLD := World([false, true, false, true], [], false)

  const GREETS := Receives(Incoming(Some(ControlChannel), Some(Envelope(None, Hello({}, {}), ""))))
  const WATCHES := Receives(Incoming(Some(ControlChannel), Some(Envelope(Some("a"), VideoSubscribe(FRONT, []), ""))))

  function First(): Router {
    Start(LIMITS, PLAN, FirstQueue(LIMITS.maxHandles, 1000, PLAN.maxBytes, 8), C.Initial(4, 1000.0, 1000),
          [SLOT], WORLD)
  }

  /** An open session with only its control stream, which has `n` messages pending. */
  ghost predicate Holding(r: Router, n: nat) {
    && r.limits == LIMITS && r.core.plan.maxBytes == 100 && r.core.plan.encode == PLAN.encode && !r.core.closed
    && r.core.subs == [] && r.core.queue.streams.Keys == {CONTROL} && r.publishers == map[]
    && r.core.queue.maxBytes == 1000 && r.core.queue.maxMessageBytes == 100 && r.core.queue.bytes == n
    && var s := r.core.queue.streams[CONTROL];
       s.policy == Reliable && s.maxMessages == 8 && !s.stopped && |s.pending| == n
  }

  lemma Starts() returns (r: Router)
    ensures r == First() && Holding(r, 0) && r.cache == C.Initial(4, 1000.0, 1000) && r.video == V.Initial([SLOT])
    ensures r.world == WORLD && r.lastTime == 0.0 && r.count == 0 && !r.welcomed
  {
    assert Validation.Identifier(CONTROL);
    r := First();
    assert r.core.queue.streams.Keys == {CONTROL};
  }

  lemma Enqueues(c: Core, bytes: Bytes)
    requires CONTROL in c.queue.streams && |bytes| == 1 <= c.queue.maxMessageBytes && c.queue.bytes < c.queue.maxBytes
    requires var s := c.queue.streams[CONTROL];
             s.policy == Reliable && !s.stopped && |s.pending| < s.maxMessages
    ensures var (later, threw) := EnqueueControl(c, bytes);
            && !threw && later == c.(queue := later.queue)
            && later.queue == c.queue.(streams := later.queue.streams, bytes := c.queue.bytes + 1)
            && later.queue.streams.Keys == c.queue.streams.Keys
            && var s, t := c.queue.streams[CONTROL], later.queue.streams[CONTROL];
               t == s.(pending := s.pending + [bytes], offered := s.offered + [bytes])
  {}

  /** The session queues a control message. */
  lemma Queues(r: Router, n: nat, bytes: Bytes) returns (core: Core)
    requires Holding(r, n) && n < 8 && bytes == [0]
    ensures EnqueueControl(r.core, bytes) == (core, false) && Holding(r.(core := core), n + 1)
  {
    Enqueues(r.core, bytes);
    core := EnqueueControl(r.core, bytes).0;
  }

  /** A flush that the transport does not let through, after a watched track was found still allowed. */
  lemma Flushes(r: Router, n: nat) returns (later: Router)
    requires Holding(r, n) && n > 0
    requires |r.video.bound| <= 1 && (forall i :: 0 <= i < |r.video.bound| ==> r.video.bound[i].watching)
    requires |r.video.bound| == 1 ==> r.world.answers == [true]
    requires |r.video.bound| == 0 ==> |r.world.answers| > 0 && !r.world.answers[0]
    ensures Flush(r) == (later, false) && later == r.(world := later.world)
    ensures later.world.answers == r.world.answers[1..] && later.world.ticks == r.world.ticks
    ensures later.world.planeDown == r.world.planeDown
  {
    var valid := if |r.video.bound| == 1 then Ask(r).1 else r;
    assert Revalidate(valid, |r.video.bound|) == (valid, false);
    assert Revalidate(r, 0) == (valid, false);
    var next := Peek(valid.core.queue, CONTROL);
    assert next.Ok? && next.value.Some?;
    later := Ask(valid).1;
    assert Drain(valid, CONTROL) == (later, Blocked);
  }

  lemma Greets() returns (r: Router)
    ensures r == Take(First(), GREETS) && Holding(r, 1)
    ensures r.cache == C.Initial(4, 1000.0, 1000) && r.video == V.Initial([SLOT]) && r.welcomed
    ensures r.world == World([true, false, true], [], false) && r.lastTime == 0.0 && r.window == 0 && r.count == 1
  {
    hide Flush, First, EnqueueControl;
    var first := Starts();
    var (rated, limited) := ControlRate(first);
    assert !limited && Holding(rated, 0);
    var core := Queues(rated, 0, [0]);
    var welcome := Welcome({} * PLAN.topics.Keys, {});
    assert Respond(rated, welcome) == (rated.(core := core), false);
    var greeted := rated.(core := core, welcomed := true);
    assert Holding(greeted, 1);
    r := Flushes(greeted, 1);
  }

  /** The peer's track bound and watched. */
  const WATCHED := V.Video([V.Binding(FRONT, SLOT, true, true)], [])

  lemma Subscribes(r: Router)
    requires Holding(r, 1) && r.video == V.Initial([SLOT]) && r.world == World([true, false, true], [], false)
    ensures Operation(r, VideoSubscribe(FRONT, []), "a")
            == (r.(video := WATCHED, world := World([true], [], false)), Some(VideoSubscribed("a", FRONT, "0")))
  {
    assert Validation.Identifier(FRONT);
    assert V.Fitting([SLOT], 66) == 0;
    var bound := V.Bind(r.video, FRONT, 66);
    assert [SLOT][..0] + [SLOT][1..] == [];
    assert [] + [V.Binding(FRONT, SLOT, false, false)] == [V.Binding(FRONT, SLOT, false, false)];
    assert bound == Ok(V.Video([V.Binding(FRONT, SLOT, false, false)], []));
    assert V.Position(bound.value.bound, FRONT) == 0;
    assert V.FlagAt(bound.value, 0, true) == WATCHED;
    assert [true, false, true][1..] == [false, true] && [false, true][1..] == [true];
    var told := r.(video := bound.value, world := World([true], [], false));
    assert Ask(Ask(r).1.(video := bound.value)) == (false, told);
    assert Announced(told, 0, []) == (told, false);
  }

  lemma Requests(r: Router) returns (done: Router)
    requires Holding(r, 1) && r.video == V.Initial([SLOT]) && r.world == World([true, false, true], [], false)
    requires r.cache == C.Initial(4, 1000.0, 1000) && r.lastTime == 0.0
    ensures Request(r, VideoSubscribe(FRONT, []), "a", "") == (done, false)
    ensures Holding(done, 2) && done.video == WATCHED && done.world == World([true], [], false)
    ensures "a" in done.cache.entries
    ensures done.lastTime == 0.0 && done.welcomed == r.welcomed
  {
    hide Operation, EnqueueControl;
    assert C.Reclaim(r.cache, 0.0) == r.cache;
    assert Now(r) == (Ok(0.0), r);
    Subscribes(r);
    var core := Queues(r, 1, [0]);
    done := Execute(r, VideoSubscribe(FRONT, []), "a", "", 0.0).0;
  }

  lemma Watches() returns (r: Router)
    ensures r == Take(Take(First(), GREETS), WATCHES) && Holding(r, 2)
    ensures r.video == WATCHED && !r.world.planeDown && "a" in r.cache.entries
  {
    hide Flush, First, Request, Take;
    var greeted := Greets();
    var (rated, limited) := ControlRate(greeted);
    assert !limited && rated == greeted.(window := rated.window, count := rated.count) && Holding(rated, 1);
    assert Validation.Identifier("a");
    var done := Requests(rated);
    r := Flushes(done, 2);
    assert Receive(greeted, WATCHES.message) == (r, false);
    TakesReceived(greeted, WATCHES.message);
  }

  lemma TakesReceived(r: Router, m: Incoming)
    ensures Take(r, Receives(m)) == Receive(r, m).0
  {
    hide Receive;
  }

  lemma FourTurns(r: Router, a: Turn, b: Turn, c: Turn, d: Turn)
    ensures Run(r, [a, b, c, d]) == Take(Take(Take(Take(r, a), b), c), d)
  {
    hide Take;
    assert [a, b, c, d][1..] == [b, c, d] && [b, c, d][1..] == [c, d] && [c, d][1..] == [d] && [d][1..] == [];
    var r1, r2 := Take(r, a), Take(Take(r, a), b);
    var r3, r4 := Take(r2, c), Take(Take(r2, c), d);
    assert Run(r3, [d]) == Run(r4, []);
    assert Run(r2, [c, d]) == Run(r3, [d]);
    assert Run(r1, [b, c, d]) == Run(r2, [c, d]);
  }

  lemma Downs(r: Router)
    ensures Take(r, PlaneCloses) == r.(world := r.world.(planeDown := true)) && Take(r, Closes) == Close(r).0
  {
    hide Close;
  }

  /** The plane shuts down under an attached track: the session closes and holds on to all it had. */
  lemma KeptCloseIsReachable() returns (r: Router)
    ensures r == Run(First(), [GREETS, WATCHES, PlaneCloses, Closes])
    ensures r.core.closed && CONTROL in r.core.queue.streams && r.core.queue.bytes == 2 && "a" in r.cache.entries
  {
    hide Take, Run, Close, First;
    var before := Watches();
    FourTurns(First(), GREETS, WATCHES, PlaneCloses, Closes);
    Downs(before);
    var down := before.(world := before.world.(planeDown := true));
    Downs(down);
    assert down.video.bound[0].attached;
    RouterSafety.CloseExactly(down);
    r := Close(down).0;
  }
}
