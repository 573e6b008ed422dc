/** The finite cache that keeps a retransmitted request from running its operation twice. */
module CacheModel {
  import opened Basics
  import opened Sums

  type Bytes = seq<Byte>

  datatype Cached = Cached(input: string, output: Bytes, expires: Time, bytes: nat)

  datatype Cache = Cache(
    maxEntries: Positive, ttlMs: Duration, maxBytes: Positive, entries: map<string, Cached>, bytes: int)

  const OCCUPIED: Cached -> nat := (cached: Cached) => cached.bytes

  /** String length in 16-bit code units: a character outside the basic plane takes two. */
  function Units(text: string): nat {
    if text == "" then 0 else (if text[0] as int < 0x1_0000 then 1 else 2) + Units(text[1..])
  }

  function Initial(maxEntries: Positive, ttlMs: Duration, maxBytes: Positive): Cache {
    Cache(maxEntries, ttlMs, maxBytes, map[], 0)
  }

  function Fresh(entries: map<string, Cached>, now: Time): map<string, Cached> {
    map id | id in entries && now < entries[id].expires :: entries[id]
  }

  function Expired(entries: map<string, Cached>, now: Time): map<string, Cached> {
    map id | id in entries && now >= entries[id].expires :: entries[id]
  }

  ghost function Reclaim(c: Cache, now: Time): Cache {
    c.(entries := Fresh(c.entries, now), bytes := c.bytes - Sum(Expired(c.entries, now), OCCUPIED))
  }

  /** The answer of a cache without expired entries. */
  function Find(c: Cache, id: string, input: string): Result<Option<Bytes>> {
    if id in c.entries then
      if c.entries[id].input != input then Err("request_conflict") else Ok(Some(c.entries[id].output))
    else if |c.entries| >= c.maxEntries then Err("request_limit")
    else Ok(None)
  }

  ghost function Lookup(c: Cache, id: string, input: string, now: Time): (Cache, Result<Option<Bytes>>) {
    (Reclaim(c, now), Find(Reclaim(c, now), id, input))
  }

  function Reserve(c: Cache, size: nat): Result<()> {
    if size > c.maxBytes - c.bytes then Err("cache_limit") else Ok(())
  }

  function Store(c: Cache, id: string, input: string, output: Bytes, now: Time): Cache {
    var bytes := 2 * Units(input) + |output|;
    c.(entries := c.entries[id := Cached(input, output, now + c.ttlMs, bytes)], bytes := c.bytes + bytes)
  }

  function Clear(c: Cache): Cache {
    c.(entries := map[], bytes := 0)
  }
}

/** Idempotence of requests over every run of one session. */
module CacheSafety {
  import opened Basics
  import opened CacheModel
  import opened Sums

  /** A request and what its operation would respond if it ran; `None` when it throws. */
  datatype Request = Request(id: string, input: string, at: Time, outcome: Option<Bytes>)

  datatype Reply = Replayed(output: Bytes) | Executed(output: Bytes) | Failed | Refused(reason: string)

  /** One stored execution. */
  datatype Record = Record(id: string, input: string, output: Bytes, at: Time)

  datatype Session = Session(cache: Cache, maxResponse: nat, clock: Time, log: seq<Record>)

  function Ceiling(s: Session, r: Request): nat {
    s.maxResponse + 2 * Units(r.input)
  }

  /** Reserve for the largest response, execute, store. */
  function Execute(s: Session, r: Request): (Session, Reply) {
    var reserved := Reserve(s.cache, Ceiling(s, r));
    if reserved.Err? then (s, Refused(reserved.reason))
    else if r.outcome.None? || |r.outcome.value| > s.maxResponse then (s, Failed)
    else
      var output := r.outcome.value;
      (s.(cache := Store(s.cache, r.id, r.input, output, r.at), log := s.log + [Record(r.id, r.input, output, r.at)]),
       Executed(output))
  }

  ghost function Serve(s: Session, r: Request): (Session, Reply) {
    if r.at < s.clock then (s, Refused("invalid_clock"))
    else
      var (cache, found) := Lookup(s.cache, r.id, r.input, r.at);
      var looked := s.(cache := cache, clock := r.at);
      if found.Err? then (looked, Refused(found.reason))
      else if found.value.Some? then (looked, Replayed(found.value.value))
      else Execute(looked, r)
  }

  ghost function Run(s: Session, requests: seq<Request>): Session
    decreases |requests|
  {
    if requests == [] then s else Run(Serve(s, requests[0]).0, requests[1..])
  }

  ghost predicate Accounted(c: Cache) {
    c.bytes == Sum(c.entries, OCCUPIED) && c.bytes <= c.maxBytes && |c.entries| <= c.maxEntries
  }

  predicate Entered(c: Cache, record: Record) {
    && record.id in c.entries
    && c.entries[record.id].input == record.input && c.entries[record.id].output == record.output
    && c.entries[record.id].expires == record.at + c.ttlMs
  }

  /** Every execution younger than the lifetime is in the cache, and executions of one id are a lifetime apart. */
  predicate Remembered(s: Session) {
    && (forall k :: 0 <= k < |s.log| ==> s.log[k].at <= s.clock)
    && (forall k :: 0 <= k < |s.log| && s.clock < s.log[k].at + s.cache.ttlMs ==> Entered(s.cache, s.log[k]))
  }

  predicate Apart(log: seq<Record>, ttlMs: Duration) {
    forall i, j :: 0 <= i < j < |log| && log[i].id == log[j].id ==> log[j].at - log[i].at >= ttlMs
  }

  ghost predicate Safe(s: Session) {
    Accounted(s.cache) && Remembered(s) && Apart(s.log, s.cache.ttlMs)
  }

  lemma WithoutOne(entries: map<string, Cached>, now: Time, id: string)
    ensures Fresh(entries - {id}, now) == Fresh(entries, now) - {id}
    ensures Expired(entries - {id}, now) == Expired(entries, now) - {id}
  {}

  /** Taking one entry out of a part of the entries that may hold it. */
  lemma SumLess(entries: map<string, Cached>, id: string)
    ensures Sum(entries, OCCUPIED) ==
            Sum(entries - {id}, OCCUPIED) + if id in entries then entries[id].bytes else 0
  {
    if id in entries {
      SumWithout(entries, OCCUPIED, id);
    } else {
      assert entries - {id} == entries;
    }
  }

  lemma CountLess(entries: map<string, Cached>, id: string)
    ensures |entries| == |entries - {id}| + if id in entries then 1 else 0
  {
    if id in entries {
      assert entries.Keys == (entries - {id}).Keys + {id};
    } else {
      assert entries - {id} == entries;
    }
  }

  /** The expired entries account for exactly what reclaiming gives back. */
  lemma {:induction false} Partition(entries: map<string, Cached>, now: Time)
    ensures Sum(entries, OCCUPIED) == Sum(Fresh(entries, now), OCCUPIED) + Sum(Expired(entries, now), OCCUPIED)
    ensures |Fresh(entries, now)| <= |entries|
    decreases |entries|
  {
    if entries == map[] {
      assert Fresh(entries, now) == entries && Expired(entries, now) == entries;
    } else {
      var id :| id in entries;
      SumLess(entries, id);
      WithoutOne(entries, now, id);
      Partition(entries - {id}, now);
      SumLess(Fresh(entries, now), id);
      SumLess(Expired(entries, now), id);
      CountLess(entries, id);
      CountLess(Fresh(entries, now), id);
    }
  }

  lemma ReclaimSafe(s: Session, now: Time)
    requires Safe(s) && now >= s.clock
    ensures Safe(s.(cache := Reclaim(s.cache, now), clock := now))
  {
    Partition(s.cache.entries, now);
  }

  lemma StoreAccounted(c: Cache, id: string, input: string, output: Bytes, now: Time)
    requires Accounted(c) && id !in c.entries && |c.entries| < c.maxEntries
    requires 2 * Units(input) + |output| <= c.maxBytes - c.bytes
    ensures Accounted(Store(c, id, input, output, now))
  {
    var later := Store(c, id, input, output, now);
    SumUpdate(c.entries, OCCUPIED, id, later.entries[id]);
    assert later.entries.Keys == c.entries.Keys + {id};
  }

  lemma ExecuteSafe(s: Session, r: Request)
    requires Safe(s) && r.at == s.clock && r.id !in s.cache.entries && |s.cache.entries| < s.cache.maxEntries
    ensures Safe(Execute(s, r).0)
  {
    if Execute(s, r).1.Executed? {
      StoreAccounted(s.cache, r.id, r.input, r.outcome.value, r.at);
    }
  }

  lemma ServeSafe(s: Session, r: Request)
    requires Safe(s)
    ensures Safe(Serve(s, r).0)
  {
    if r.at >= s.clock {
      ReclaimSafe(s, r.at);
      var (cache, found) := Lookup(s.cache, r.id, r.input, r.at);
      if found == Ok(None) { ExecuteSafe(s.(cache := cache, clock := r.at), r); }
    }
  }

  lemma {:induction false} RunSafe(s: Session, requests: seq<Request>)
    requires Safe(s)
    ensures Safe(Run(s, requests))
    decreases |requests|
  {
    if requests != [] {
      ServeSafe(s, requests[0]);
      RunSafe(Serve(s, requests[0]).0, requests[1..]);
    }
  }

  ghost function Start(maxEntries: Positive, ttlMs: Duration, maxBytes: Positive, maxResponse: nat): Session {
    Session(Initial(maxEntries, ttlMs, maxBytes), maxResponse, 0.0, [])
  }

  /**
   * After any requests: the byte count is the sum of the entries and within the budget; two stored
   * executions of one id are at least the lifetime apart; and a retransmission within the lifetime runs
   * nothing, replaying the identical bytes for identical content and refusing any other.
   */
  lemma EveryRun(maxEntries: Positive, ttlMs: Duration, maxBytes: Positive, maxResponse: nat,
                 requests: seq<Request>, k: nat, r: Request)
    ensures var s := Run(Start(maxEntries, ttlMs, maxBytes, maxResponse), requests);
            var (later, reply) := Serve(s, r);
            && Accounted(s.cache) && Apart(s.log, s.cache.ttlMs)
            && (k < |s.log| && r.id == s.log[k].id && s.clock <= r.at < s.log[k].at + s.cache.ttlMs ==>
                  && later.log == s.log
                  && reply == (if r.input == s.log[k].input then Replayed(s.log[k].output)
                               else Refused("request_conflict")))
  {
    var s := Run(Start(maxEntries, ttlMs, maxBytes, maxResponse), requests);
    RunSafe(Start(maxEntries, ttlMs, maxBytes, maxResponse), requests);
    if k < |s.log| && r.id == s.log[k].id && s.clock <= r.at < s.log[k].at + s.cache.ttlMs {
      ReclaimSafe(s, r.at);
      assert Entered(Reclaim(s.cache, r.at), s.log[k]);
    }
  }

  /** An operation runs only when its largest response is sure to fit, so storing it cannot break the budget. */
  lemma ReservedBeforeRunning(s: Session, r: Request)
    requires Safe(s)
    ensures Serve(s, r).1.Executed? || Serve(s, r).1.Failed? ==>
              Reclaim(s.cache, r.at).bytes + Ceiling(s, r) <= s.cache.maxBytes
    ensures Serve(s, r).1.Executed? <==> Serve(s, r).0.log != s.log
  {
  }

  /**
   * Sending a request again within its lifetime: what was stored or replayed is replayed, and only an
   * operation that failed runs a second time.
   */
  lemma Retransmission(s: Session, r: Request, again: Request)
    requires Safe(s) && s.clock <= r.at <= again.at && again.id == r.id && again.input == r.input
    ensures var (first, reply) := Serve(s, r);
            && (reply.Executed? && again.at < r.at + s.cache.ttlMs ==>
                  Serve(first, again).1 == Replayed(reply.output) && Serve(first, again).0.log == first.log)
            && (reply.Failed? ==> !Serve(first, again).1.Replayed?)
  {
    ServeSafe(s, r);
    var (first, reply) := Serve(s, r);
    if reply.Executed? { assert Entered(first.cache, first.log[|first.log| - 1]); }
  }
}
