/**
 * `CacheService`: a two-level read-through cache, with an in-memory map
 * (L1) and, when Redis answered at start-up, a Redis store (L2). The cache
 * key is the data spec with the keyword arguments; L2 holds it under
 * `jra:<key>` next to whatever other keys the Redis server has. A Redis
 * call that fails is the parameter `fault`: the error is swallowed.
 */
module Cache {
  import opened Wrappers

  /** What `_make_key` hashes: the data spec and the keyword arguments, as
      a map because `json.dumps(sort_keys=True)` ignores their order. */
  datatype CacheKey = CacheKey(dataspec: string, args: map<string, string>)

  /** A Redis key: one of this cache's `jra:` keys, or any other, whose
      name may still begin with `jra:`. */
  datatype RedisKey = Jra(key: CacheKey) | OtherKey(name: string)

  /** The keys `scan_iter("jra:*")` yields: this cache's own, and any
      other whose name begins with `jra:`. */
  predicate InJraScan(k: RedisKey) {
    k.Jra? || (|k.name| >= 4 && k.name[..4] == "jra:")
  }

  /** A value in Redis with the TTL it was stored with. */
  datatype Stored<V> = Stored(value: V, ttl: nat)

  datatype CacheState<V> = CacheState(memory: map<CacheKey, V>, redis: map<RedisKey, Stored<V>>, hasRedis: bool)

  /** `_get_ttl`: one minute for real-time specs (`0B…`), a day for the
      master data `RACE`, `HOSE` and `HOYU`, ten minutes otherwise. */
  function GetTtl(dataspec: string): (t: nat)
    ensures |dataspec| >= 2 && dataspec[..2] == "0B" ==> t == 60
    ensures !(|dataspec| >= 2 && dataspec[..2] == "0B") && dataspec in {"RACE", "HOSE", "HOYU"} ==> t == 86400
    ensures !(|dataspec| >= 2 && dataspec[..2] == "0B") && dataspec !in {"RACE", "HOSE", "HOYU"} ==> t == 600
  {
    if |dataspec| >= 2 && dataspec[..2] == "0B" then 60
    else if dataspec in ["RACE", "HOSE", "HOYU"] then 86400
    else 600
  }

  /** `get`: an L1 hit is returned as is; on an L1 miss an L2 hit is copied
      into L1 and returned; otherwise, or when Redis fails, `None`. */
  function CacheGet<V>(s: CacheState<V>, key: CacheKey, fault: bool): (r: (CacheState<V>, Option<V>))
    ensures key in s.memory ==> r == (s, Some(s.memory[key]))
    ensures r.1.Some? ==> key in r.0.memory && r.0.memory[key] == r.1.value
    ensures r.0.redis == s.redis && r.0.hasRedis == s.hasRedis
    ensures r.1.None? ==> r.0 == s
  {
    if key in s.memory then (s, Some(s.memory[key]))
    else if s.hasRedis && !fault && Jra(key) in s.redis then
      var v := s.redis[Jra(key)].value;
      (s.(memory := s.memory[key := v]), Some(v))
    else (s, None)
  }

  /** `set`: always into L1; into L2 as well, with the spec's TTL, when Redis
      is there and does not fail. */
  function CacheSet<V>(s: CacheState<V>, data: V, key: CacheKey, fault: bool): (r: CacheState<V>)
    ensures key in r.memory && r.memory[key] == data
    ensures r.hasRedis == s.hasRedis
    ensures forall k :: k != key ==> (k in r.memory <==> k in s.memory)
    ensures !s.hasRedis || fault ==> r.redis == s.redis
  {
    var memory := s.memory[key := data];
    if s.hasRedis && !fault then
      s.(memory := memory, redis := s.redis[Jra(key) := Stored(data, GetTtl(key.dataspec))])
    else s.(memory := memory)
  }

  /** `clear`: empties L1 and, when Redis is there, deletes every key the
      `jra:*` scan yields. A failure part way leaves some of them, those in
      `kept`. */
  function CacheClear<V>(s: CacheState<V>, fault: bool, kept: set<RedisKey>): (r: CacheState<V>)
    ensures r.memory == map[] && r.hasRedis == s.hasRedis
    ensures !s.hasRedis ==> r.redis == s.redis
    ensures forall k :: k in s.redis && !InJraScan(k) ==> k in r.redis && r.redis[k] == s.redis[k]
    ensures s.hasRedis ==> forall k :: k in r.redis && InJraScan(k) ==> fault && k in kept
    ensures forall k :: k in r.redis ==> k in s.redis && r.redis[k] == s.redis[k]
  {
    if !s.hasRedis then s.(memory := map[])
    else
      var survivors := set k | k in s.redis && (!InJraScan(k) || (fault && k in kept));
      s.(memory := map[], redis := map k | k in survivors :: s.redis[k])
  }

  // ---------------------------------------------------------------- properties

  /** What was set is what is got back, from L1, whatever Redis does. */
  lemma GetAfterSet<V>(s: CacheState<V>, data: V, key: CacheKey, setFault: bool, getFault: bool)
    ensures CacheGet(CacheSet(s, data, key, setFault), key, getFault).1 == Some(data)
  {
  }

  /** With Redis there and working, a value set survives the loss of L1:
      once L1 is gone, `get` reads it from L2 and puts it back into L1. */
  lemma SetReachesL2<V>(s: CacheState<V>, data: V, key: CacheKey)
    requires s.hasRedis
    ensures var s1 := CacheSet(s, data, key, false);
      CacheGet(s1.(memory := map[]), key, false) == (s1.(memory := map[key := data]), Some(data))
  {
    var s1 := CacheSet(s, data, key, false);
    assert map[][key := data] == map[key := data];
  }

  /** A promoted value is served from L1 next time, even if Redis fails. */
  lemma PromotionServesFromL1<V>(s: CacheState<V>, key: CacheKey, fault: bool)
    requires CacheGet(s, key, false).1.Some?
    ensures var (s1, v) := CacheGet(s, key, false); CacheGet(s1, key, fault) == (s1, v)
  {
  }

  /** Without Redis, nothing survives `clear`. */
  lemma ClearForgets<V>(s: CacheState<V>, key: CacheKey, fault: bool, kept: set<RedisKey>, getFault: bool)
    requires !s.hasRedis || !fault
    ensures CacheGet(CacheClear(s, fault, kept), key, getFault).1 == None
  {
  }

  /** Real-time data never gets the master-data TTL: the `0B` test comes
      first, and the TTL is always one of the three. */
  lemma TtlChoices(dataspec: string)
    ensures GetTtl(dataspec) in {60, 600, 86400}
    ensures GetTtl("0B" + dataspec) == 60
  {
    assert ("0B" + dataspec)[..2] == "0B";
  }

  // ---------------------------------------------------------------- the service

  class CacheService<V> {
    var memory: map<CacheKey, V>
    var redis: map<RedisKey, Stored<V>>
    var hasRedis: bool

    function State(): CacheState<V>
      reads this
    {
      CacheState(memory, redis, hasRedis)
    }

    /** `__init__` with `_init_redis`: L1 empty, Redis used only when its
        `ping` succeeds; `redis` is what the server already holds. */
    constructor(pingOk: bool, server: map<RedisKey, Stored<V>>)
      ensures memory == map[] && redis == server && hasRedis == pingOk
    {
      memory := map[];
      redis := server;
      hasRedis := pingOk;
    }

    method Get(dataspec: string, args: map<string, string>, fault: bool) returns (r: Option<V>)
      modifies this
      ensures (State(), r) == CacheGet(old(State()), CacheKey(dataspec, args), fault)
    {
      var key := CacheKey(dataspec, args);
      if key in memory {
        return Some(memory[key]);
      }
      if hasRedis && !fault && Jra(key) in redis {
        var value := redis[Jra(key)].value;
        memory := memory[key := value];
        return Some(value);
      }
      return None;
    }

    method Set(data: V, dataspec: string, args: map<string, string>, fault: bool)
      modifies this
      ensures State() == CacheSet(old(State()), data, CacheKey(dataspec, args), fault)
    {
      var key := CacheKey(dataspec, args);
      var ttl := GetTtl(dataspec);
      memory := memory[key := data];
      if hasRedis && !fault {
        redis := redis[Jra(key) := Stored(data, ttl)];
      }
    }

    method Clear(fault: bool, kept: set<RedisKey>)
      modifies this
      ensures State() == CacheClear(old(State()), fault, kept)
    {
      memory := map[];
      if hasRedis {
        var survivors := set k | k in redis && (!InJraScan(k) || (fault && k in kept));
        redis := map k | k in survivors :: redis[k];
      }
    }
  }
}
