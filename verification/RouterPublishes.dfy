/** What a session publishes: in order and no faster than allowed, on every run. */
module RouterPublishes {
  import opened Basics
  import opened MediaTypes
  import opened QueueModel
  import opened DeliveryModel
  import opened RouterModel
  import opened RouterBounds
  import C = CacheModel
  import S = CacheSafety
  import V = VideoModel
  import DeliverySafety
  import Decimal
  import Validation

  // ---- One call ----

  /** One published message, against what its handle recorded before and records after. */
  ghost predicate PublishedOne(r: Router, later: Router, handle: string) {
    && handle in r.publishers && handle in later.publishers
    && |later.published| == |r.published| + 1 && later.published[..|r.published|] == r.published
    && var p, before, after := later.published[|r.published|], r.publishers[handle], later.publishers[handle];
       && p.handle == handle && p.topic == before.topic && p.sequence > before.sequence && p.at >= before.nextAt
       && after.sequence == p.sequence && after.topic == before.topic && after.topic in r.core.plan.topics
       && after.nextAt == p.at + r.core.plan.topics[after.topic].gapMs
  }

  lemma PublishingOne(r: Router, body: Body, publisher: Publisher, sequence: nat, now: Time)
    requires body.Publish? && body.handle in r.publishers && r.publishers[body.handle] == publisher
    requires publisher.topic in r.core.plan.topics && sequence > publisher.sequence && now >= publisher.nextAt
    ensures var later := Publishing(r, body, publisher, sequence, now).0;
            || later.published == r.published
            || (PublishedOne(r, later, body.handle) && later.published[|r.published|].sequence == sequence)
  {
    hide Respond;
  }

  /**
   * A message is published at most once per call, only for a registered handle that is welcome and allowed,
   * with a sequence above and a time past what the handle has recorded, and the handle then records both.
   */
  lemma PublishOnce(r: Router, channel: Channel, body: Body)
    ensures var later := PublishMessage(r, channel, body).0;
            || later.published == r.published
            || (&& body.Publish? && r.welcomed && PublishedOne(r, later, body.handle)
                && body.sequence == Decimal.Print(later.published[|r.published|].sequence))
  {
    hide PublishedOne, Publishing, Validation.Identifier, Validation.Sequence;
    if body.Publish? && body.handle in r.publishers && Validation.Sequence(body.sequence).Ok? {
      var publisher, sequence := r.publishers[body.handle], Validation.Sequence(body.sequence).value;
      var (granted, asked) := Permitted(r, publisher.topic, WebToRos);
      var (now, read) := Now(asked);
      Validation.SequenceExactly(body.sequence, sequence);
      if granted && now.Ok? && sequence > publisher.sequence && now.value >= publisher.nextAt {
        PublishingOne(read, body, publisher, sequence, now.value);
        PublishedSame(r, read, Publishing(read, body, publisher, sequence, now.value).0, body.handle);
      }
    }
  }

  lemma PublishedSame(r: Router, read: Router, later: Router, handle: string)
    requires read.publishers == r.publishers && read.published == r.published && read.core == r.core
    ensures PublishedOne(read, later, handle) ==> |later.published| > |r.published| && PublishedOne(r, later, handle)
  {}

  // ---- Whole runs ----

  /** One published message comes after another of its handle: numbered higher, and past its rate limit. */
  predicate Follows(plan: Plan, earlier: Published, later: Published) {
    && earlier.topic in plan.topics && earlier.sequence < later.sequence
    && later.at >= earlier.at + plan.topics[earlier.topic].gapMs
  }

  predicate Spaced(plan: Plan, published: seq<Published>, handle: string) {
    forall i, j :: 0 <= i < j < |published| && published[i].handle == handle == published[j].handle ==>
      Follows(plan, published[i], published[j])
  }

  /** A publisher has recorded what its handle published. */
  predicate Recorded(r: Router, p: Published) {
    p.handle in r.publishers ==>
      && p.topic in r.core.plan.topics && p.sequence <= r.publishers[p.handle].sequence
      && r.publishers[p.handle].nextAt >= p.at + r.core.plan.topics[p.topic].gapMs
  }

  /** The handle numbered `n` was published on in order, and on nothing before it was given out. */
  ghost predicate Paced(r: Router, plan: Plan, handle: string, n: nat) {
    && r.core.plan == plan && Spaced(plan, r.published, handle)
    && (forall i :: 0 <= i < |r.published| && r.published[i].handle == handle ==>
          Recorded(r, r.published[i]) && n <= r.core.nextId)
    && (handle in r.publishers ==> n <= r.core.nextId)
  }

  lemma NotMorePaced(r: Router, later: Router, plan: Plan, handle: string, n: nat)
    requires Paced(r, plan, handle, n) && NotMore(r, later)
    ensures Paced(later, plan, handle, n)
  {}

  lemma WithinPaced(r: Router, later: Router, plan: Plan, handle: string, n: nat)
    requires Paced(r, plan, handle, n) && Within(r, later)
    ensures Paced(later, plan, handle, n)
  {
    WithinNotMore(r, later);
    NotMorePaced(r, later, plan, handle, n);
  }

  /** The message just published on the handle follows those before it. */
  lemma OnePaced(r: Router, later: Router, plan: Plan, handle: string, n: nat, on: string)
    requires Paced(r, plan, handle, n) && NotMore(r, Unpublished(r, later)) && PublishedOne(r, later, on)
    ensures Paced(later, plan, handle, n)
  {
    var p := later.published[|r.published|];
    NotMorePaced(r, Unpublished(r, later), plan, handle, n);
    assert later.published == r.published + [p];
  }

  lemma PublishPaced(r: Router, channel: Channel, body: Body, plan: Plan, handle: string, n: nat)
    requires Paced(r, plan, handle, n)
    ensures Paced(PublishMessage(r, channel, body).0, plan, handle, n)
  {
    hide Paced, NotMore, PublishMessage, PublishedOne;
    var later := PublishMessage(r, channel, body).0;
    PublishNotMore(r, channel, body);
    PublishOnce(r, channel, body);
    if later.published == r.published {
      NotMorePaced(r, later, plan, handle, n);
    } else {
      OnePaced(r, later, plan, handle, n, body.handle);
    }
  }

  /** Opening a handle gives out a new number, or the handle the command guard opened. */
  lemma OpenHandlePaced(r: Router, body: Body, id: string, plan: Plan, handle: string, n: nat)
    requires (body.Subscribe? || body.Advertise?) && (body.Advertise? ==> body.guardHandle != handle)
    requires Paced(r, plan, handle, n) && handle == StreamId(plan.session, n)
    ensures Paced(OpenHandle(r, body, id).0, plan, handle, n)
  {
    hide StreamId, Spaced, Recorded, Register, CloseStream, Validation.Identifier;
    OpenHandleOnward(r, body, id);
    DeliverySafety.StreamIdFresh(r.core.plan.session, r.core.nextId + 1, n);
    var later := OpenHandle(r, body, id).0;
    assert handle in later.publishers ==>
        later.core.nextId >= n && (handle in r.publishers ==> later.publishers[handle] == r.publishers[handle]);
    assert handle in later.publishers && handle !in r.publishers ==> n == r.core.nextId + 1;
    forall i | 0 <= i < |r.published| && r.published[i].handle == handle ensures Recorded(later, r.published[i]) {
      RecordedStays(r, later, r.published[i]);
    }
  }

  lemma RecordedStays(r: Router, later: Router, p: Published)
    requires Recorded(r, p) && later.core.plan == r.core.plan
    requires p.handle in later.publishers ==>
      p.handle in r.publishers && later.publishers[p.handle] == r.publishers[p.handle]
    ensures Recorded(later, p)
  {}

  lemma OperationPaced(r: Router, body: Body, id: string, plan: Plan, handle: string, n: nat)
    requires body.Advertise? ==> body.guardHandle != handle
    requires Paced(r, plan, handle, n) && handle == StreamId(plan.session, n)
    ensures Paced(Operation(r, body, id).0, plan, handle, n)
  {
    hide Paced, NotMore, OpenHandle, Operation, StreamId;
    if body.Subscribe? || body.Advertise? {
      OperationOpens(r, body, id);
      OpenHandlePaced(r, body, id, plan, handle, n);
    } else {
      QuietOperation(r, body, id);
      NotMorePaced(r, Operation(r, body, id).0, plan, handle, n);
    }
  }

  /** What a publisher is and has published decides; the rest may differ. */
  lemma SamePaced(r: Router, later: Router, plan: Plan, handle: string, n: nat)
    requires Paced(r, plan, handle, n)
    requires later.core.plan == r.core.plan && later.core.nextId == r.core.nextId
    requires later.publishers == r.publishers && later.published == r.published
    ensures Paced(later, plan, handle, n)
  {}

  lemma ExecutePaced(r: Router, body: Body, id: string, input: string, now: Time, plan: Plan, handle: string, n: nat)
    requires body.Advertise? ==> body.guardHandle != handle
    requires Paced(r, plan, handle, n) && handle == StreamId(plan.session, n)
    ensures Paced(Execute(r, body, id, input, now).0, plan, handle, n)
  {
    hide Paced, Operation, StreamId, C.Store, EnqueueControl;
    var (done, response) := Operation(r, body, id);
    OperationPaced(r, body, id, plan, handle, n);
    if response.Some? {
      EnqueueSubs(done.core, r.core.plan.encode(response.value));
      SamePaced(done, Execute(r, body, id, input, now).0, plan, handle, n);
    }
  }

  lemma RequestPaced(r: Router, body: Body, id: string, input: string, plan: Plan, handle: string, n: nat)
    requires body.Advertise? ==> body.guardHandle != handle
    requires Paced(r, plan, handle, n) && handle == StreamId(plan.session, n)
    ensures Paced(Request(r, body, id, input).0, plan, handle, n)
  {
    hide Paced, Execute, StreamId, C.Lookup, C.Units, EnqueueControl;
    var (now, read) := Now(r);
    SamePaced(r, read, plan, handle, n);
    if now.Ok? {
      var (cache, found) := C.Lookup(read.cache, id, input, now.value);
      var looked := read.(cache := cache);
      SamePaced(read, looked, plan, handle, n);
      if found.Ok? && found.value.Some? {
        EnqueueSubs(looked.core, found.value.value);
        SamePaced(looked, looked.(core := EnqueueControl(looked.core, found.value.value).0), plan, handle, n);
      } else {
        ExecutePaced(looked, body, id, input, now.value, plan, handle, n);
      }
    }
  }

  /** The command guard gives out no handle of this name. */
  predicate Unguarded(turn: Turn, handle: string) {
    turn.Receives? && turn.message.envelope.Some? && turn.message.envelope.value.body.Advertise? ==>
      turn.message.envelope.value.body.guardHandle != handle
  }

  lemma ControlPaced(r: Router, e: Envelope, plan: Plan, handle: string, n: nat)
    requires e.body.Advertise? ==> e.body.guardHandle != handle
    requires Paced(r, plan, handle, n) && handle == StreamId(plan.session, n)
    ensures Paced(Control(r, e.id, e.body, e.input).0, plan, handle, n)
  {
    hide Paced, Request, Respond, StreamId, Validation.Identifier;
    if e.id.Some? && !e.body.Hello? && !e.body.Ready? && r.welcomed {
      RequestPaced(r, e.body, e.id.value, e.input, plan, handle, n);
    } else {
      SamePaced(r, Control(r, e.id, e.body, e.input).0, plan, handle, n);
    }
  }

  lemma HandlePaced(r: Router, m: Incoming, plan: Plan, handle: string, n: nat)
    requires Unguarded(Receives(m), handle)
    requires Paced(r, plan, handle, n) && handle == StreamId(plan.session, n)
    ensures Paced(Handle(r, m).0, plan, handle, n)
  {
    hide Paced, Control, PublishMessage, StreamId, Validation.Identifier;
    if m.channel.Some? {
      var (rated, limited) := if m.channel.value.ControlChannel? then ControlRate(r) else (r, false);
      SamePaced(r, rated, plan, handle, n);
      if m.envelope.Some? {
        ControlPaced(rated, m.envelope.value, plan, handle, n);
        PublishPaced(rated, m.channel.value, m.envelope.value.body, plan, handle, n);
      }
    }
  }

  lemma TakePaced(r: Router, turn: Turn, plan: Plan, handle: string, n: nat)
    requires Unguarded(turn, handle) && Paced(r, plan, handle, n) && handle == StreamId(plan.session, n)
    ensures Paced(Take(r, turn), plan, handle, n)
  {
    hide Paced, Within, NotMore, Handle, Flush, Error, Sample, Notice, Close, StreamId;
    match turn
    case Receives(m) =>
      HandlePaced(r, m, plan, handle, n);
      var (done, threw, id) := Handle(r, m);
      WithinPaced(done, Error(done, id).0, plan, handle, n);
      WithinPaced(done, Flush(done).0, plan, handle, n);
      WithinPaced(Flush(done).0, Error(Flush(done).0, id).0, plan, handle, n);
    case Flushes => WithinPaced(r, Flush(r).0, plan, handle, n);
    case Sampled(stream, encoded) =>
      SampleNotMore(r, stream, encoded);
      NotMorePaced(r, Sample(r, stream, encoded).0, plan, handle, n);
    case Notified(track, phase) =>
      if V.Has(r.video, track) {
        WithinPaced(r, Notice(r, V.Position(r.video.bound, track), phase).0, plan, handle, n);
      }
    case Closes => WithinPaced(r, Close(r).0, plan, handle, n);
    case PlaneCloses => SamePaced(r, Take(r, turn), plan, handle, n);
  }

  lemma {:induction false} RunPaced(r: Router, turns: seq<Turn>, plan: Plan, handle: string, n: nat)
    requires forall i :: 0 <= i < |turns| ==> Unguarded(turns[i], handle)
    requires Paced(r, plan, handle, n) && handle == StreamId(plan.session, n)
    ensures Paced(Run(r, turns), plan, handle, n)
    decreases |turns|
  {
    hide Paced, Take, StreamId, Unguarded;
    if turns != [] {
      TakePaced(r, turns[0], plan, handle, n);
      RunPaced(Take(r, turns[0]), turns[1..], plan, handle, n);
    }
  }

  /**
   * On every run of a session: on a handle it gave out itself, messages reach ROS numbered upwards and at least
   * the interval of the topic's rate limit apart, however often the peer repeats or reorders them.
   */
  lemma EveryPublication(limits: Limits, plan: Plan, queue: Queue, cache: C.Cache, slots: seq<V.Slot>, world: World,
                         turns: seq<Turn>, n: nat)
    requires forall i :: 0 <= i < |turns| ==> Unguarded(turns[i], StreamId(plan.session, n))
    ensures var published := Run(Start(limits, plan, queue, cache, slots, world), turns).published;
            Spaced(plan, published, StreamId(plan.session, n))
  {
    hide StreamId, Unguarded, Run;
    RunPaced(Start(limits, plan, queue, cache, slots, world), turns, plan, StreamId(plan.session, n), n);
  }
}
