/** The requests of a session as the idempotent service they are promised to be, on every run. */
module RouterRequests {
  import opened Basics
  import opened MediaTypes
  import opened QueueModel
  import opened DeliveryModel
  import opened RouterModel
  import opened RouterBounds
  import C = CacheModel
  import S = CacheSafety
  import V = VideoModel
  import Validation

  /** What the operation of a request would respond, were it run from this state. */
  function Outcome(r: Router, body: Body, id: string): Option<Bytes> {
    var response := Operation(r, body, id).1;
    if response.None? then None else Some(r.core.plan.encode(response.value))
  }

  /** The state in which the cache has been consulted for a request. */
  ghost function Looked(r: Router, id: string, input: string): Router
    requires Now(r).0.Ok?
  {
    var (now, read) := Now(r);
    read.(cache := C.Lookup(read.cache, id, input, now.value).0)
  }

  /** The same request to the idempotent service. */
  ghost function Asked(r: Router, body: Body, id: string, input: string): S.Request
    requires Now(r).0.Ok?
  {
    S.Request(id, input, Now(r).0.value, Outcome(Looked(r, id, input), body, id))
  }

  /** The service has the cache of an open session. */
  ghost predicate Tracks(r: Router, s: S.Session) {
    r.core.closed || (s.cache == r.cache && s.maxResponse == r.core.plan.maxBytes && s.clock <= r.lastTime)
  }

  lemma OperationOnward(r: Router, body: Body, id: string)
    ensures Onward(r, Operation(r, body, id).0)
  {
    hide Operation, OpenHandle;
    if body.Subscribe? || body.Advertise? {
      OpenHandleOnward(r, body, id);
      OperationOpens(r, body, id);
    } else {
      QuietOperation(r, body, id);
    }
  }

  /** Executing after a lookup that found nothing. */
  lemma ExecuteServes(r: Router, body: Body, id: string, input: string, now: Time, s: S.Session)
    requires s.cache == r.cache && s.maxResponse == r.core.plan.maxBytes && s.clock == now == r.lastTime
    requires C.Reserve(r.cache, r.core.plan.maxBytes + 2 * C.Units(input)).Ok?
    ensures var (served, reply) := S.Execute(s, S.Request(id, input, now, Outcome(r, body, id)));
            var later := Execute(r, body, id, input, now).0;
            && (reply.Executed? || reply.Failed?) && (reply.Failed? ==> later == Operation(r, body, id).0)
            && Tracks(later, served) && (r.core.closed ==> later.core.closed)
  {
    hide Operation, EnqueueControl, C.Units, C.Store;
    OperationOnward(r, body, id);
    var (done, response) := Operation(r, body, id);
    if response.Some? { EnqueueSubs(done.core, r.core.plan.encode(response.value)); }
  }

  /**
   * A request acts on the cache exactly as the idempotent service does; one that is replayed or refused runs
   * no operation at all.
   */
  lemma RequestServes(r: Router, body: Body, id: string, input: string, s: S.Session)
    requires !r.core.closed && Tracks(r, s) && Now(r).0.Ok?
    ensures var looked := Looked(r, id, input);
            var (served, reply) := S.Serve(s, Asked(r, body, id, input));
            var later := Request(r, body, id, input).0;
            && (reply.Replayed? ==> later == looked.(core := EnqueueControl(looked.core, reply.output).0))
            && (reply.Refused? ==> later == looked)
            && (reply.Failed? ==> later == Operation(looked, body, id).0)
            && Tracks(later, served)
  {
    hide C.Lookup, Operation, EnqueueControl, C.Units, Execute, S.Execute, Outcome;
    var looked := Looked(r, id, input);
    var (now, read) := Now(r);
    var found := C.Lookup(r.cache, id, input, now.value).1;
    if found == Ok(None) {
      if C.Reserve(looked.cache, r.core.plan.maxBytes + 2 * C.Units(input)).Ok? {
        ExecuteServes(looked, body, id, input, now.value, S.Session(looked.cache, s.maxResponse, now.value, s.log));
      } else {
        ReserveRefuses(S.Session(looked.cache, s.maxResponse, now.value, s.log), Asked(r, body, id, input));
      }
    } else if found.Ok? {
      EnqueueSubs(looked.core, found.value.value);
    }
  }

  lemma ReserveRefuses(s: S.Session, q: S.Request)
    requires C.Reserve(s.cache, s.maxResponse + 2 * C.Units(q.input)).Err?
    ensures S.Execute(s, q).0 == s && S.Execute(s, q).1.Refused?
  {}

  // ---- Whole runs ----

  /** The request a control message makes once it is let through, if any. */
  ghost function ControlRequest(r: Router, e: Envelope): Option<S.Request> {
    if e.id.None? || e.body.Hello? || e.body.Ready? || !r.welcomed || Now(r).0.Err? then None
    else Some(Asked(r, e.body, e.id.value, e.input))
  }

  /** The request a turn makes, if any. */
  ghost function RequestOf(r: Router, turn: Turn): Option<S.Request> {
    if r.core.closed || !turn.Receives? || turn.message.channel != Some(ControlChannel) then None
    else
      var (rated, limited) := ControlRate(r);
      var envelope := turn.message.envelope;
      if limited || envelope.None? then None
      else if envelope.value.id.Some? && !Validation.Identifier(envelope.value.id.value) then None
      else ControlRequest(rated, envelope.value)
  }

  ghost function After(s: S.Session, request: Option<S.Request>): S.Session {
    if request.None? then s else S.Serve(s, request.value).0
  }

  ghost function Requests(r: Router, turns: seq<Turn>): seq<S.Request>
    decreases |turns|
  {
    if turns == [] then []
    else
      var request := RequestOf(r, turns[0]);
      (if request.None? then [] else [request.value]) + Requests(Take(r, turns[0]), turns[1..])
  }

  lemma ControlServes(r: Router, e: Envelope, s: S.Session)
    requires !r.core.closed && Tracks(r, s)
    ensures Tracks(Control(r, e.id, e.body, e.input).0, After(s, ControlRequest(r, e)))
  {
    hide Request, Asked, Respond, S.Serve, Validation.Identifier;
    if ControlRequest(r, e).Some? {
      RequestServes(r, e.body, e.id.value, e.input, s);
    } else if e.id.Some? && !e.body.Hello? && !e.body.Ready? && r.welcomed {
      assert Request(r, e.body, e.id.value, e.input).0 == Now(r).1 by { ClockFails(r, e.body, e.id.value, e.input); }
    }
  }

  lemma ClockFails(r: Router, body: Body, id: string, input: string)
    requires Now(r).0.Err?
    ensures Request(r, body, id, input).0 == Now(r).1
  {}

  lemma HandleServes(r: Router, m: Incoming, s: S.Session)
    requires !r.core.closed && Tracks(r, s)
    ensures Tracks(Handle(r, m).0, After(s, RequestOf(r, Receives(m))))
  {
    hide Control, ControlRequest, PublishMessage, After, Tracks, NotMore, Validation.Identifier;
    AfterNothing(s);
    if m.channel == Some(ControlChannel) {
      var (rated, limited) := ControlRate(r);
      RateTracks(r, s);
      if !limited && m.envelope.Some? { ControlServes(rated, m.envelope.value, s); }
    } else if m.channel.Some? && m.envelope.Some? {
      PublishTracks(r, m.channel.value, m.envelope.value.body, s);
    }
  }

  lemma PublishTracks(r: Router, channel: Channel, body: Body, s: S.Session)
    requires Tracks(r, s)
    ensures Tracks(PublishMessage(r, channel, body).0, s)
  {
    hide PublishMessage;
    PublishNotMore(r, channel, body);
  }

  lemma AfterNothing(s: S.Session)
    ensures After(s, None) == s
  {}

  lemma RateTracks(r: Router, s: S.Session)
    requires !r.core.closed && Tracks(r, s)
    ensures !ControlRate(r).0.core.closed && Tracks(ControlRate(r).0, s)
  {}

  lemma NotMoreTracks(r: Router, later: Router, s: S.Session)
    requires Tracks(r, s) && NotMore(r, later)
    ensures Tracks(later, s) && (r.core.closed ==> later.core.closed)
  {}

  lemma WithinTracks(r: Router, later: Router, s: S.Session)
    requires Tracks(r, s) && Within(r, later)
    ensures Tracks(later, s)
  {}

  /** Each turn makes at most one request, and moves the cache as the service does. */
  lemma TakeServes(r: Router, turn: Turn, s: S.Session)
    requires Tracks(r, s)
    ensures Tracks(Take(r, turn), After(s, RequestOf(r, turn)))
  {
    hide Tracks, Within, NotMore, After, Handle, Flush, Error, Sample, Notice, Close, RequestOf;
    NoRequest(r, turn, s);
    match turn
    case Receives(m) => ReceiveServes(r, m, s);
    case Flushes => WithinTracks(r, Flush(r).0, s);
    case Sampled(stream, encoded) =>
      SampleNotMore(r, stream, encoded);
      NotMoreTracks(r, Sample(r, stream, encoded).0, s);
    case Notified(track, phase) =>
      if V.Has(r.video, track) { WithinTracks(r, Notice(r, V.Position(r.video.bound, track), phase).0, s); }
    case Closes => WithinTracks(r, Close(r).0, s);
    case PlaneCloses => DownTracks(r, s);
  }

  lemma NoRequest(r: Router, turn: Turn, s: S.Session)
    ensures r.core.closed || !turn.Receives? ==> After(s, RequestOf(r, turn)) == s
  {}

  lemma DownTracks(r: Router, s: S.Session)
    requires Tracks(r, s)
    ensures Tracks(r.(world := r.world.(planeDown := true)), s)
  {}

  lemma ReceiveServes(r: Router, m: Incoming, s: S.Session)
    requires Tracks(r, s)
    ensures Tracks(Receive(r, m).0, After(s, RequestOf(r, Receives(m))))
  {
    hide Tracks, Within, After, Handle, Flush, Error, RequestOf;
    NoRequest(r, Receives(m), s);
    if !r.core.closed {
      HandleServes(r, m, s);
      var (done, threw, id) := Handle(r, m);
      var served := After(s, RequestOf(r, Receives(m)));
      WithinTracks(done, Error(done, id).0, served);
      WithinTracks(done, Flush(done).0, served);
      WithinTracks(Flush(done).0, Error(Flush(done).0, id).0, served);
    }
  }

  lemma {:induction false} RunServes(r: Router, turns: seq<Turn>, s: S.Session)
    requires Tracks(r, s)
    ensures Tracks(Run(r, turns), S.Run(s, Requests(r, turns)))
    decreases |turns|
  {
    hide Tracks, Take, RequestOf, S.Serve;
    if turns != [] {
      TakeServes(r, turns[0], s);
      RunServes(Take(r, turns[0]), turns[1..], After(s, RequestOf(r, turns[0])));
      ServeFirst(s, RequestOf(r, turns[0]), Requests(Take(r, turns[0]), turns[1..]));
    }
  }

  lemma ServeFirst(s: S.Session, request: Option<S.Request>, rest: seq<S.Request>)
    ensures S.Run(s, (if request.None? then [] else [request.value]) + rest) == S.Run(After(s, request), rest)
  {
    hide S.Serve;
    if request.None? {
      assert [] + rest == rest;
    } else {
      assert ([request.value] + rest)[1..] == rest;
    }
  }

  /**
   * On every run of a session that is still open: a request that comes again within the lifetime of its stored
   * execution runs no operation. The same content is answered with the same bytes, any other is refused.
   */
  lemma NothingRunsTwice(limits: Limits, plan: Plan, queue: Queue, maxEntries: Positive, ttlMs: Duration,
                         maxBytes: Positive, slots: seq<V.Slot>, world: World, turns: seq<Turn>, k: nat,
                         body: Body, input: string)
    ensures var first := Start(limits, plan, queue, C.Initial(maxEntries, ttlMs, maxBytes), slots, world);
            var r := Run(first, turns);
            var log := S.Run(S.Start(maxEntries, ttlMs, maxBytes, plan.maxBytes), Requests(first, turns)).log;
            !r.core.closed && Now(r).0.Ok? && k < |log| && Now(r).0.value < log[k].at + ttlMs ==>
              var looked := Looked(r, log[k].id, input);
              Request(r, body, log[k].id, input).0
              == if input == log[k].input then looked.(core := EnqueueControl(looked.core, log[k].output).0) else looked
  {
    hide Looked, Request, EnqueueControl, S.Serve, Requests, RouterModel.Run, S.Run;
    var first := Start(limits, plan, queue, C.Initial(maxEntries, ttlMs, maxBytes), slots, world);
    var s := S.Start(maxEntries, ttlMs, maxBytes, plan.maxBytes);
    RunServes(first, turns, s);
    var r, end := RouterModel.Run(first, turns), S.Run(s, Requests(first, turns));
    SettingsStay(s, Requests(first, turns));
    if !r.core.closed && Now(r).0.Ok? && k < |end.log| && Now(r).0.value < end.log[k].at + ttlMs {
      RequestServes(r, body, end.log[k].id, input, end);
      S.EveryRun(maxEntries, ttlMs, maxBytes, plan.maxBytes, Requests(first, turns), k,
        Asked(r, body, end.log[k].id, input));
    }
  }

  lemma {:induction false} SettingsStay(s: S.Session, requests: seq<S.Request>)
    ensures S.Run(s, requests).cache.ttlMs == s.cache.ttlMs
    decreases |requests|
  {
    if requests != [] { SettingsStay(S.Serve(s, requests[0]).0, requests[1..]); }
  }
}
