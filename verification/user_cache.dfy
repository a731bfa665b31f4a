/**
 * The server's in-process user cache: a map from user id to the last fetched
 * user together with the time it was stored. Entries older than the TTL are
 * evicted lazily by `Get` and in bulk by the periodic sweep. The clock is an
 * explicit `now` (milliseconds); the sweep's timer is not modelled, only its body.
 */
module UserCache {
  import opened Wrappers
  import opened Schemas

  /** One minute, in milliseconds. */
  const TTL: int := 60000

  datatype CachedUser = CachedUser(user: UserResponse, timestamp: int)

  type Cache = map<string, CachedUser>

  /** An entry is stale once strictly more than the TTL has passed since it was stored. */
  predicate Expired(e: CachedUser, now: int) {
    now - e.timestamp > TTL
  }

  /** What `get` returns, together with the cache it leaves behind. */
  datatype Lookup = Lookup(user: Option<UserResponse>, cache: Cache)

  /** `set`: stores the user under `id`, replacing any earlier entry, stamped with `now`. */
  function Set(c: Cache, id: string, u: UserResponse, now: int): (r: Cache)
    ensures r.Keys == c.Keys + {id}
    ensures r[id].user == u && r[id].timestamp == now
    ensures forall k :: k in c && k != id ==> r[k] == c[k]
  {
    c[id := CachedUser(u, now)]
  }

  /**
   * `get`: a hit exactly when the entry exists and is not expired. An expired
   * entry is deleted, and no other; a miss on an absent id or a hit changes nothing.
   */
  function Get(c: Cache, id: string, now: int): (r: Lookup)
    ensures r.user.Some? <==> id in c && now - c[id].timestamp <= TTL
    ensures r.user.Some? ==> r.user.value == c[id].user
    ensures r.cache.Keys == if id in c && Expired(c[id], now) then c.Keys - {id} else c.Keys
    ensures forall k :: k in r.cache ==> r.cache[k] == c[k]
  {
    if id !in c then Lookup(None, c)
    else if Expired(c[id], now) then Lookup(None, c - {id})
    else Lookup(Some(c[id].user), c)
  }

  /** `invalidate`: removes `id` and leaves every other entry as it was. */
  function Invalidate(c: Cache, id: string): (r: Cache)
    ensures r.Keys == c.Keys - {id}
    ensures forall k :: k in r ==> r[k] == c[k]
  {
    c - {id}
  }

  /** `clear`: the cache is empty afterwards. */
  function Clear(c: Cache): (r: Cache)
    ensures forall id :: id !in r
  {
    map[]
  }

  /** The entries the sweep at time `now` keeps: exactly the unexpired ones, unchanged. */
  function Sweep(c: Cache, now: int): (r: Cache)
    ensures forall k :: k in r <==> k in c && !Expired(c[k], now)
    ensures forall k :: k in r ==> r[k] == c[k]
  {
    map k | k in c && !Expired(c[k], now) :: c[k]
  }

  /** The body of the timer in `startCleanup`: walk the entries, deleting the expired ones. */
  method SweepEntries(c: Cache, now: int) returns (r: Cache)
    ensures r == Sweep(c, now)
  {
    r := c;
    var pending := c.Keys;
    while pending != {}
      invariant pending <= c.Keys
      invariant r.Keys <= c.Keys
      invariant forall k :: k in r ==> r[k] == c[k]
      invariant forall k :: k in c && k !in pending ==> (k in r <==> !Expired(c[k], now))
      invariant forall k :: k in pending ==> k in r
      decreases pending
    {
      var k :| k in pending;
      if now - c[k].timestamp > TTL {
        r := r - {k};
      }
      pending := pending - {k};
    }
  }

  // ---------------------------------------------------------------------------
  // Properties relating the operations

  /** A `get` after a `set` returns the stored user for the whole TTL, at the same time included. */
  lemma GetAfterSet(c: Cache, id: string, u: UserResponse, now: int, later: int)
    requires now <= later <= now + TTL
    ensures Get(Set(c, id, u, now), id, later).user == Some(u)
    ensures Get(Set(c, id, u, now), id, later).cache == Set(c, id, u, now)
  {
  }

  /** Past the TTL the same `get` misses and the entry is gone. */
  lemma GetAfterSetExpires(c: Cache, id: string, u: UserResponse, now: int, later: int)
    requires later > now + TTL
    ensures Get(Set(c, id, u, now), id, later).user == None
    ensures id !in Get(Set(c, id, u, now), id, later).cache
  {
  }

  /** The expiry boundary: aged exactly 60000 ms still hits, aged 60001 ms misses. */
  lemma ExpiryBoundary(c: Cache, id: string, u: UserResponse, t: int)
    ensures Get(Set(c, id, u, t), id, t + 60000).user == Some(u)
    ensures Get(Set(c, id, u, t), id, t + 60001).user == None
  {
  }

  /** An id never set, or invalidated since, misses and leaves the cache as it was. */
  lemma GetAbsent(c: Cache, id: string, now: int)
    ensures id !in c ==> Get(c, id, now) == Lookup(None, c)
    ensures Get(Invalidate(c, id), id, now) == Lookup(None, Invalidate(c, id))
    ensures Get(Clear(c), id, now).user == None
  {
  }

  /** A `set` of one id does not disturb what `get` returns for another. */
  lemma SetIsolated(c: Cache, id: string, other: string, u: UserResponse, now: int, at: int)
    requires other != id
    ensures Get(Set(c, id, u, now), other, at).user == Get(c, other, at).user
  {
  }

  /** The sweep is invisible to `get` at the same time: it only removes what `get` would miss. */
  lemma SweepAgreesWithGet(c: Cache, id: string, now: int)
    ensures Get(Sweep(c, now), id, now).user == Get(c, id, now).user
  {
  }

  /** Lazy eviction followed by the sweep is the sweep alone; sweeping twice is sweeping once. */
  lemma SweepAbsorbsGet(c: Cache, id: string, now: int)
    ensures Sweep(Get(c, id, now).cache, now) == Sweep(c, now)
    ensures Sweep(Sweep(c, now), now) == Sweep(c, now)
  {
  }
}
