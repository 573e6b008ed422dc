/** The request cache as an object: expired entries are deleted one by one while looking up. */
module RequestCaches {
  import opened Basics
  import C = CacheModel
  import opened CacheModel
  import opened Sums

  class RequestCache {
    const maxEntries: Positive
    const ttlMs: Duration
    const maxBytes: Positive
    var entries: map<string, Cached>
    var bytes: int

    function View(): Cache
      reads this
    {
      Cache(maxEntries, ttlMs, maxBytes, entries, bytes)
    }

    constructor (maxEntries: Positive, ttlMs: Duration, maxBytes: Positive)
      ensures View() == Initial(maxEntries, ttlMs, maxBytes)
    {
      this.maxEntries, this.ttlMs, this.maxBytes := maxEntries, ttlMs, maxBytes;
      entries, bytes := map[], 0;
    }

    /** Reclaim expired entries. */
    method Reclaim(now: Time)
      modifies this
      ensures View() == C.Reclaim(old(View()), now)
    {
      var all, pending := entries, entries.Keys;
      assert Expired(Outside(all, pending), now) == map[];
      while pending != {}
        invariant pending <= all.Keys
        invariant entries == map id | id in all && (id in pending || now < all[id].expires) :: all[id]
        invariant bytes == old(bytes) - Sum(Expired(Outside(all, pending), now), OCCUPIED)
        decreases pending
      {
        var id :| id in pending;
        ghost var before := pending;
        pending := pending - {id};
        VisitOne(all, pending, id, now);
        assert pending + {id} == before;
        if now >= all[id].expires {
          bytes := bytes - all[id].bytes;
          entries := entries - {id};
        }
      }
      assert Outside(all, pending) == all;
      assert entries == Fresh(all, now);
    }

    method Lookup(id: string, input: string, now: Time) returns (found: Result<Option<Bytes>>)
      modifies this
      ensures (View(), found) == C.Lookup(old(View()), id, input, now)
    {
      Reclaim(now);
      if id in entries {
        if entries[id].input != input { return Err("request_conflict"); }
        return Ok(Some(entries[id].output));
      }
      if |entries| >= maxEntries { return Err("request_limit"); }
      found := Ok(None);
    }

    method Reserve(maxResponseBytes: nat) returns (r: Result<()>)
      ensures r == C.Reserve(View(), maxResponseBytes)
    {
      if maxResponseBytes > maxBytes - bytes { return Err("cache_limit"); }
      r := Ok(());
    }

    method Store(id: string, input: string, output: Bytes, now: Time)
      modifies this
      ensures View() == C.Store(old(View()), id, input, output, now)
    {
      var size := Units(input) * 2 + |output|;
      entries := entries[id := Cached(input, output, now + ttlMs, size)];
      bytes := bytes + size;
    }

    method Clear()
      modifies this
      ensures View() == C.Clear(old(View()))
    {
      entries, bytes := map[], 0;
    }
  }

  /** The part of the entries no longer pending. */
  ghost function Outside(all: map<string, Cached>, pending: set<string>): map<string, Cached> {
    map id | id in all && id !in pending :: all[id]
  }

  /** Visiting one more entry adds its bytes to what is given back, if it has expired. */
  lemma VisitOne(all: map<string, Cached>, pending: set<string>, id: string, now: Time)
    requires id in all && id !in pending
    ensures Sum(Expired(Outside(all, pending), now), OCCUPIED) ==
            Sum(Expired(Outside(all, pending + {id}), now), OCCUPIED)
            + if now >= all[id].expires then all[id].bytes else 0
  {
    var before, after := Expired(Outside(all, pending + {id}), now), Expired(Outside(all, pending), now);
    if now >= all[id].expires {
      assert after == before[id := all[id]];
      SumUpdate(before, OCCUPIED, id, all[id]);
    } else {
      assert after == before;
    }
  }
}
