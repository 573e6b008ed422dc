/** The finite resources of a session. */
module RouterBounds {
  import opened Basics
  import opened MediaTypes
  import opened QueueModel
  import opened DeliveryModel
  import opened RouterModel
  import C = CacheModel
  import S = CacheSafety
  import V = VideoModel
  import Sums
  import Validation

  /** Subscriptions and publishers share the handle bound; the cache accounts for its bytes and keeps its budget. */
  ghost predicate Bounded(r: Router) {
    |r.core.subs| + |r.publishers| <= r.limits.maxHandles && S.Accounted(r.cache)
  }

  lemma ClearAccounted(c: C.Cache)
    ensures S.Accounted(C.Clear(c))
  {}

  lemma WithinBounded(r: Router, later: Router)
    requires Bounded(r) && Within(r, later)
    ensures Bounded(later)
  {
    ClearAccounted(r.cache);
  }

  /**
   * The same session later, nothing published: its cache is as it was unless closed by now, and closing is for
   * good.
   */
  ghost predicate Onward(r: Router, later: Router) {
    && later.core.plan == r.core.plan && r.lastTime <= later.lastTime && r.core.nextId <= later.core.nextId
    && later.published == r.published && (r.core.closed ==> later.core.closed)
    && (later.cache == r.cache || later.core.closed)
  }

  /** Publishers may go, and record a later sequence and time. */
  predicate Raised(publishers: map<string, Publisher>, later: map<string, Publisher>) {
    forall h :: h in later ==>
      && h in publishers && later[h].topic == publishers[h].topic
      && later[h].sequence >= publishers[h].sequence && later[h].nextAt >= publishers[h].nextAt
  }

  /** What no step but opening a handle or storing a response can raise. */
  ghost predicate NotMore(r: Router, later: Router) {
    && Onward(r, later) && later.limits == r.limits && |later.core.subs| <= |r.core.subs|
    && Raised(r.publishers, later.publishers)
    && (later.cache == r.cache || later.cache == C.Clear(r.cache))
  }

  lemma NotMoreBounded(r: Router, later: Router)
    requires Bounded(r) && NotMore(r, later)
    ensures Bounded(later)
  {
    ClearAccounted(r.cache);
    assert later.publishers.Keys <= r.publishers.Keys;
    SubsetSize(later.publishers.Keys, r.publishers.Keys);
  }

  lemma WithinNotMore(r: Router, later: Router)
    requires Within(r, later)
    ensures NotMore(r, later)
  {}

  lemma NotMoreTwice(a: Router, b: Router, c: Router)
    requires NotMore(a, b) && NotMore(b, c)
    ensures NotMore(a, c)
  {}

  lemma DropNotMore(r: Router, id: string, denied: bool)
    ensures NotMore(r, Drop(r, id, denied).0)
  {
    hide Error;
    if !Has(r.core, id) {
      WithinNotMore(r, Error(r, None).0);
    } else {
      var (failed, after) := Ask(r.(core := if denied then Expel(r.core, id) else Remove(r.core, id)));
      if !failed { WithinNotMore(after, Error(after, None).0); }
    }
  }

  lemma OfferNotMore(r: Router, id: string, data: Data, nextAt: Time)
    requires Has(r.core, id)
    ensures NotMore(r, r.(core := Offer(r.core, id, data, nextAt).0))
  {
    hide Enqueue;
  }

  lemma SampleNotMore(r: Router, id: string, encoded: Option<Data>)
    ensures NotMore(r, Sample(r, id, encoded).0)
  {
    hide NotMore, Drop, Flush, Offer, Now, Permitted, Find, Validation.Sequence;
    SameNotMore(r, r);
    if Has(r.core, id) {
      var sub := r.core.subs[Find(r.core.subs, id)];
      var (granted, asked) := Permitted(r, sub.topic, RosToWeb);
      SameNotMore(r, asked);
      ThenDrop(r, asked, id, true);
      var (now, read) := Now(asked);
      NowNotMore(asked);
      NotMoreTwice(r, asked, read);
      ThenDrop(r, read, id, false);
      if granted && now.Ok? && encoded.Some? {
        var nextAt := now.value + r.core.plan.topics[sub.topic].gapMs;
        var offered := read.(core := Offer(read.core, id, encoded.value, nextAt).0);
        OfferNotMore(read, id, encoded.value, nextAt);
        NotMoreTwice(r, read, offered);
        ThenDrop(r, offered, id, false);
        WithinNotMore(offered, Flush(offered).0);
        NotMoreTwice(r, offered, Flush(offered).0);
        ThenDrop(r, Flush(offered).0, id, false);
      }
    }
  }

  lemma NowNotMore(r: Router)
    ensures NotMore(r, Now(r).1) && Now(r).1.core == r.core
  {}

  lemma SameNotMore(r: Router, later: Router)
    requires later.limits == r.limits && later.core == r.core && later.publishers == r.publishers
    requires later.cache == r.cache
    requires r.lastTime <= later.lastTime && later.published == r.published
    ensures NotMore(r, later)
  {}

  lemma ThenDrop(r: Router, next: Router, id: string, denied: bool)
    requires NotMore(r, next)
    ensures NotMore(r, Drop(next, id, denied).0)
  {
    hide Drop, NotMore;
    DropNotMore(next, id, denied);
    NotMoreTwice(r, next, Drop(next, id, denied).0);
  }

  lemma {:induction false} AnnouncedNotMore(r: Router, i: nat, phases: seq<Phase>)
    requires i < |r.video.bound|
    ensures NotMore(r, Announced(r, i, phases).0)
    decreases |phases|
  {
    hide Notice;
    if phases != [] {
      var (told, threw) := Notice(r, i, phases[0]);
      WithinNotMore(r, told);
      if !threw { AnnouncedNotMore(told, i, phases[1..]); }
    }
  }

  lemma WatchTrackNotMore(r: Router, track: string, during: seq<Phase>, id: string)
    ensures NotMore(r, WatchTrack(r, track, during, id).0)
  {
    hide NotMore, Ask, Announced, V.FlagAt, V.Bind, Validation.Identifier;
    SameNotMore(r, r);
    var (granted, asked) := Ask(r);
    SameNotMore(r, asked);
    if track in r.limits.profiles {
      var bound := V.Bind(asked.video, track, r.limits.profiles[track]);
      if bound.Ok? {
        var ready := asked.(video := bound.value);
        var (refused, told) := Ask(ready);
        var i := V.Position(ready.video.bound, track);
        SameNotMore(r, ready);
        SameNotMore(r, told);
        AnnouncedNotMore(told, i, during);
        var after := Announced(told, i, during).0;
        NotMoreTwice(r, told, after);
        SameNotMore(after, after.(video := V.FlagAt(after.video, i, true)));
        NotMoreTwice(r, after, after.(video := V.FlagAt(after.video, i, true)));
      }
    }
  }

  lemma OpenHandleBounded(r: Router, body: Body, id: string)
    requires Bounded(r) && (body.Subscribe? || body.Advertise?)
    ensures Bounded(OpenHandle(r, body, id).0)
    ensures OpenHandle(r, body, id).0.limits == r.limits
  {
    hide S.Accounted, Validation.Identifier, Register, CloseStream;
    var (granted, asked) := Permitted(r, body.topic, if body.Subscribe? then RosToWeb else WebToRos);
    if granted && body.Advertise? { OneMoreKey(asked, body.topic, id, body.guardHandle); }
  }

  lemma OneMoreKey(r: Router, topic: string, id: string, handle: string)
    requires topic in r.core.plan.topics
    ensures |OpenPublisher(r, topic, id, handle).0.publishers| <= |r.publishers| + 1
  {
    var (failed, asked) := Ask(r);
    var own := StreamId(r.core.plan.session, r.core.nextId + 1);
    SubsetSize(r.publishers[handle := Publisher(topic, true, -1, 0.0)].Keys, r.publishers.Keys + {handle});
    SubsetSize(r.publishers[own := Publisher(topic, false, -1, 0.0)].Keys, r.publishers.Keys + {own});
  }

  lemma OpenHandleOnward(r: Router, body: Body, id: string)
    requires body.Subscribe? || body.Advertise?
    ensures var later := OpenHandle(r, body, id).0;
            Onward(r, later) && later.cache == r.cache && later.limits == r.limits
  {
    hide Validation.Identifier, Register, CloseStream;
  }

  lemma OperationOpens(r: Router, body: Body, id: string)
    requires body.Subscribe? || body.Advertise?
    ensures Operation(r, body, id) == OpenHandle(r, body, id)
  {}

  lemma QuietOperation(r: Router, body: Body, id: string)
    requires !body.Subscribe? && !body.Advertise?
    ensures NotMore(r, Operation(r, body, id).0)
  {
    hide OpenHandle, WatchTrack, UnwatchTrack, CloseSubscription, UseHandle, NotMore, Validation.Identifier;
    SameNotMore(r, r);
    match body
    case Unsubscribe(stream) => CloseNotMore(r, stream, id);
    case Unadvertise(_) => UseNotMore(r, body, id);
    case Arm(_) => UseNotMore(r, body, id);
    case VideoSubscribe(track, during) => WatchTrackNotMore(r, track, during, id);
    case VideoUnsubscribe(mid) => UnwatchNotMore(r, mid, id);
    case _ =>
  }

  /** An operation keeps the handle bound and leaves the cache alone, unless it ends up closing the session. */
  lemma OperationBounded(r: Router, body: Body, id: string)
    requires Bounded(r)
    ensures var later := Operation(r, body, id).0;
            && Bounded(later) && Onward(r, later) && later.limits == r.limits
            && (later.cache == r.cache || later.cache == C.Clear(r.cache))
  {
    hide S.Accounted, OpenHandle, WatchTrack, UnwatchTrack, Validation.Identifier;
    if body.Subscribe? || body.Advertise? {
      OpenHandleBounded(r, body, id);
      OpenHandleOnward(r, body, id);
      OperationOpens(r, body, id);
    } else {
      QuietOperation(r, body, id);
      NotMoreBounded(r, Operation(r, body, id).0);
    }
  }

  lemma CloseNotMore(r: Router, stream: string, id: string)
    ensures NotMore(r, CloseSubscription(r, stream, id).0)
  {
    hide CloseStream, Validation.Identifier;
  }

  lemma UseNotMore(r: Router, body: Body, id: string)
    requires body.Unadvertise? || body.Arm?
    ensures NotMore(r, UseHandle(r, body, id).0)
  {
    hide Validation.Identifier;
  }

  lemma UnwatchNotMore(r: Router, mid: string, id: string)
    ensures NotMore(r, UnwatchTrack(r, mid, id).0)
  {}

  lemma LookupAccounted(c: C.Cache, id: string, input: string, now: Time)
    requires S.Accounted(c)
    ensures var (later, found) := C.Lookup(c, id, input, now);
            S.Accounted(later) && (found == Ok(None) ==> id !in later.entries && |later.entries| < later.maxEntries)
  {
    S.Partition(c.entries, now);
  }

  lemma StoreBounded(c: C.Cache, id: string, input: string, output: Bytes, now: Time)
    requires S.Accounted(c) && id !in c.entries && |c.entries| < c.maxEntries
    requires 2 * C.Units(input) + |output| <= c.maxBytes - c.bytes
    ensures S.Accounted(C.Store(c, id, input, output, now)) && S.Accounted(C.Store(C.Clear(c), id, input, output, now))
  {
    ClearAccounted(c);
    S.StoreAccounted(c, id, input, output, now);
    S.StoreAccounted(C.Clear(c), id, input, output, now);
  }

  lemma ExecuteBounded(r: Router, body: Body, id: string, input: string, now: Time)
    requires Bounded(r) && id !in r.cache.entries && |r.cache.entries| < r.cache.maxEntries
    requires C.Reserve(r.cache, r.core.plan.maxBytes + 2 * C.Units(input)).Ok?
    ensures Bounded(Execute(r, body, id, input, now).0)
  {
    hide S.Accounted, Operation, C.Store, C.Units, EnqueueControl;
    OperationBounded(r, body, id);
    var (done, response) := Operation(r, body, id);
    if response.Some? && |r.core.plan.encode(response.value)| <= r.core.plan.maxBytes {
      StoreBounded(r.cache, id, input, r.core.plan.encode(response.value), now);
      EnqueueSubs(done.core, r.core.plan.encode(response.value));
    }
  }

  lemma EnqueueSubs(c: Core, bytes: Bytes)
    ensures EnqueueControl(c, bytes).0 == c.(queue := EnqueueControl(c, bytes).0.queue)
  {}

  lemma RequestBounded(r: Router, body: Body, id: string, input: string)
    requires Bounded(r)
    ensures Bounded(Request(r, body, id, input).0)
  {
    hide S.Accounted, Execute, C.Lookup, C.Units, EnqueueControl;
    var (now, read) := Now(r);
    if now.Ok? {
      LookupAccounted(read.cache, id, input, now.value);
      var (cache, found) := C.Lookup(read.cache, id, input, now.value);
      var looked := read.(cache := cache);
      if found.Ok? && found.value.Some? {
        EnqueueSubs(looked.core, found.value.value);
      } else if found.Ok? && C.Reserve(cache, r.core.plan.maxBytes + 2 * C.Units(input)).Ok? {
        ExecuteBounded(looked, body, id, input, now.value);
      }
    }
  }

  /** The later state but for what was published. */
  function Unpublished(r: Router, later: Router): Router {
    later.(published := r.published)
  }

  lemma PublishingNotMore(r: Router, body: Body, publisher: Publisher, sequence: nat, now: Time)
    requires body.Publish? && body.handle in r.publishers && r.publishers[body.handle] == publisher
    requires publisher.topic in r.core.plan.topics && sequence > publisher.sequence && now >= publisher.nextAt
    ensures NotMore(r, Unpublished(r, Publishing(r, body, publisher, sequence, now).0))
  {
    hide Respond, SendToRos, Raised, C.Clear;
    var recorded := publisher.(sequence := sequence, nextAt := now + r.core.plan.topics[publisher.topic].gapMs);
    RaisedByOne(r.publishers, body.handle, recorded);
  }

  lemma RaisedByOne(publishers: map<string, Publisher>, handle: string, publisher: Publisher)
    requires handle in publishers && publisher.topic == publishers[handle].topic
    requires publisher.sequence >= publishers[handle].sequence && publisher.nextAt >= publishers[handle].nextAt
    ensures Raised(publishers, publishers) && Raised(publishers, publishers[handle := publisher])
  {}

  lemma PublishNotMore(r: Router, channel: Channel, body: Body)
    ensures NotMore(r, Unpublished(r, PublishMessage(r, channel, body).0))
  {
    hide NotMore, Publishing, Validation.Identifier, Validation.Sequence;
    SameNotMore(r, r);
    if body.Publish? && body.handle in r.publishers {
      var publisher := r.publishers[body.handle];
      var (granted, asked) := Permitted(r, publisher.topic, WebToRos);
      SameNotMore(r, asked);
      if granted && Validation.Sequence(body.sequence).Ok? {
        var (now, read) := Now(asked);
        SameNotMore(r, read);
        var sequence := Validation.Sequence(body.sequence).value;
        if now.Ok? && sequence > publisher.sequence && now.value >= publisher.nextAt {
          PublishingNotMore(read, body, publisher, sequence, now.value);
          NotMoreTwice(r, read, Unpublished(r, Publishing(read, body, publisher, sequence, now.value).0));
        }
      }
    }
  }

  lemma SameBounded(r: Router, later: Router)
    requires Bounded(r) && later.limits == r.limits && later.cache == r.cache && later.publishers == r.publishers
    requires |later.core.subs| == |r.core.subs|
    ensures Bounded(later)
  {
    hide S.Accounted;
  }

  lemma ControlBounded(r: Router, e: Envelope)
    requires Bounded(r)
    ensures Bounded(Control(r, e.id, e.body, e.input).0)
  {
    hide Bounded, Request, Respond, Validation.Identifier;
    if e.id.Some? && !e.body.Hello? && !e.body.Ready? && r.welcomed {
      RequestBounded(r, e.body, e.id.value, e.input);
    } else {
      SameBounded(r, Control(r, e.id, e.body, e.input).0);
    }
  }

  lemma HandleBounded(r: Router, m: Incoming)
    requires Bounded(r)
    ensures Bounded(Handle(r, m).0)
  {
    hide Bounded, NotMore, Control, PublishMessage, Validation.Identifier;
    if m.channel.Some? {
      var (rated, limited) := if m.channel.value.ControlChannel? then ControlRate(r) else (r, false);
      SameBounded(r, rated);
      if m.envelope.Some? {
        ControlBounded(rated, m.envelope.value);
        PublishBounded(rated, m.channel.value, m.envelope.value.body);
      }
    }
  }

  lemma PublishBounded(r: Router, channel: Channel, body: Body)
    requires Bounded(r)
    ensures Bounded(PublishMessage(r, channel, body).0)
  {
    hide PublishMessage, S.Accounted, NotMore;
    PublishNotMore(r, channel, body);
    NotMoreBounded(r, Unpublished(r, PublishMessage(r, channel, body).0));
  }

  lemma TakeBounded(r: Router, turn: Turn)
    requires Bounded(r)
    ensures Bounded(Take(r, turn))
  {
    hide Bounded, Within, Handle, Flush, Error, Sample, Notice, Close;
    match turn
    case Receives(m) =>
      HandleBounded(r, m);
      var (done, threw, id) := Handle(r, m);
      WithinBounded(done, Error(done, id).0);
      WithinBounded(done, Flush(done).0);
      WithinBounded(Flush(done).0, Error(Flush(done).0, id).0);
    case Flushes => WithinBounded(r, Flush(r).0);
    case Sampled(stream, encoded) => SampleNotMore(r, stream, encoded); NotMoreBounded(r, Sample(r, stream, encoded).0);
    case Notified(track, phase) =>
      if V.Has(r.video, track) { WithinBounded(r, Notice(r, V.Position(r.video.bound, track), phase).0); }
    case Closes => WithinBounded(r, Close(r).0);
    case PlaneCloses => NotMoreBounded(r, Take(r, turn));
  }

  /** On every run a session stays within its handles, and its request cache within its entries and bytes. */
  lemma {:induction false} RunBounded(r: Router, turns: seq<Turn>)
    requires Bounded(r)
    ensures Bounded(Run(r, turns))
    decreases |turns|
  {
    hide Bounded, Take;
    if turns != [] {
      TakeBounded(r, turns[0]);
      RunBounded(Take(r, turns[0]), turns[1..]);
    }
  }
}
