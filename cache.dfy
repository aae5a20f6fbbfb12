/** The Redis cache in front of the Hatch API: key naming, TTL selection and the
    rule that every failure (cache disabled, a Redis error or timeout, text that is not
    JSON, a value of the wrong shape) is a miss on read and a no-op on write. The Redis
    server is an expiring map; whether request `n` errors or times out is the oracle
    `fails(n)`, and the server clock is passed in as `now` (seconds). */
module Cache {
  import opened Wrappers
  import opened Json
  import Decimal

  const LoginTtl: int := 50 * 60

  // ---- keys ----

  const LoginKey: string := "hatch:login"

  /** The key of a baby's cached Grow data: the Grow prefix, the id, the `data` suffix. */
  function GrowDataKey(babyId: Value): (k: string)
    ensures |k| == 16 + |Show(babyId)| && k[..11] == "hatch:grow:" && k[|k| - 5..] == ":data"
  {
    "hatch:grow:" + Show(babyId) + ":data"
  }

  /** The key of a baby's cached photos: the Grow prefix, the id, the `photos` suffix. */
  function PhotosKey(babyId: Value): (k: string)
    ensures |k| == 18 + |Show(babyId)| && k[..11] == "hatch:grow:" && k[|k| - 7..] == ":photos"
  {
    "hatch:grow:" + Show(babyId) + ":photos"
  }

  /** The text between a fixed prefix and a fixed suffix determines the whole. */
  lemma Infix(p: string, a: string, b: string, q: string)
    requires p + a + q == p + b + q
    ensures a == b
  {
    assert a == (p + a + q)[|p|..|p| + |a|];
    assert b == (p + b + q)[|p|..|p| + |b|];
  }

  /** Same key, same baby id (among integer ids, and among text ids). */
  lemma {:induction false} KeysInjective(a: Value, b: Value)
    requires (a.Int? && b.Int?) || (a.Str? && b.Str?)
    ensures GrowDataKey(a) == GrowDataKey(b) ==> a == b
    ensures PhotosKey(a) == PhotosKey(b) ==> a == b
  {
    if GrowDataKey(a) == GrowDataKey(b) || PhotosKey(a) == PhotosKey(b) {
      if GrowDataKey(a) == GrowDataKey(b) {
        Infix("hatch:grow:", Show(a), Show(b), ":data");
      } else {
        Infix("hatch:grow:", Show(a), Show(b), ":photos");
      }
      if a.Int? {
        Decimal.IntToStringInjective(a.i, b.i);
      }
    }
  }

  /** The login key, the data keys and the photo keys never collide, whatever the ids. */
  lemma {:induction false} KeyFamiliesDisjoint(a: Value, b: Value)
    ensures LoginKey != GrowDataKey(a) && LoginKey != PhotosKey(a)
    ensures GrowDataKey(a) != PhotosKey(b)
  {
    var d, p := GrowDataKey(a), PhotosKey(a);
    assert d[6] == 'g' && p[6] == 'g' && LoginKey[6] == 'l';
    var d', p' := GrowDataKey(a), PhotosKey(b);
    assert d'[|d'| - 1] == 'a' && p'[|p'| - 1] == 's';
  }

  /** `ttl_seconds or default`: None and 0 both select the default. */
  function ChooseTtl(ttl: Option<int>, default: int): (r: int)
    ensures ttl.None? || ttl == Some(0) ==> r == default
    ensures ttl.Some? && ttl.value != 0 ==> r == ttl.value
  {
    if ttl.Some? && ttl.value != 0 then ttl.value else default
  }

  // ---- the store ----

  datatype Stored = Stored(text: Text, expiresAt: int)

  type Store = map<string, Stored>

  /** Redis `GET key` at time `now`: the value, unless absent or expired. */
  function Lookup(store: Store, key: string, now: int): Option<Text>
  {
    if key in store && now < store[key].expiresAt then Some(store[key].text) else None
  }

  /** Redis `SET key text EX ttl` at time `now`. */
  function Put(store: Store, key: string, text: Text, ttl: int, now: int): (r: Store)
    requires ttl > 0
    ensures forall t :: now <= t < now + ttl ==> Lookup(r, key, t) == Some(text)
    ensures forall t :: t >= now + ttl ==> Lookup(r, key, t) == None
    ensures forall k, t :: k != key ==> Lookup(r, k, t) == Lookup(store, k, t)
  {
    store[key := Stored(text, now + ttl)]
  }

  /** What `get_cached_json` makes of a raw reply: absent text and undecodable text
      are both None. */
  function Decoded(raw: Option<Text>): (v: Value)
    ensures raw.None? ==> v == Null
    ensures raw.Some? && raw.value.Malformed? ==> v == Null
    ensures raw.Some? && raw.value.Encoded? ==> v == raw.value.v
  {
    match raw
    case None => Null
    case Some(t) => match Loads(t) case Some(v) => v case None => Null
  }

  /** A value written by `set_cached_json` with a positive TTL reads back unchanged
      until it expires, and is gone afterwards; other keys are unaffected. */
  lemma {:induction false} SetThenGetJson(store: Store, key: string, v: Value, ttl: int, now: int, t: int, other: string)
    requires Encodable(v) && ttl > 0 && other != key
    ensures var after := Put(store, key, Dumps(v).value, ttl, now);
      && (now <= t < now + ttl ==> Decoded(Lookup(after, key, t)) == v)
      && (t >= now + ttl ==> Decoded(Lookup(after, key, t)) == Null)
      && Lookup(after, other, t) == Lookup(store, other, t)
  {
    DumpsLoads(v);
  }

  /** The typed getters' shape checks: only a dict (login, grow data) or only a list
      (photos) is returned. */
  function AsObject(v: Value): (r: Option<Object>)
    ensures r.Some? <==> v.Dict?
    ensures r.Some? ==> v == Dict(r.value)
  {
    if v.Dict? then Some(v.fields) else None
  }

  function AsList(v: Value): (r: Option<seq<Value>>)
    ensures r.Some? <==> v.List?
    ensures r.Some? ==> v == List(r.value)
  {
    if v.List? then Some(v.items) else None
  }

  /** The module-level Redis client: `enabled` is `_cache_enabled and _redis is not None`,
      `dataTtl` is `HATCH_CACHE_TTL_SECONDS` as read at import time. */
  class RedisCache {
    var store: Store
    var requests: nat
    const enabled: bool
    const fails: nat -> bool
    const dataTtl: int

    constructor(enabled: bool, store0: Store, fails: nat -> bool, dataTtl: int)
      ensures this.enabled == enabled && store == store0 && this.fails == fails
      ensures this.dataTtl == dataTtl && requests == 0
    {
      this.enabled, this.fails, this.dataTtl := enabled, fails, dataTtl;
      store, requests := store0, 0;
    }

    /** Whether the next request to the server answers in time. */
    function NextOk(): bool
      reads this
    {
      enabled && !fails(requests)
    }

    /** `_get` (and `get_cached`): a miss when disabled or on any error or timeout. */
    method Get(key: string, now: int) returns (r: Option<Text>)
      modifies this
      ensures store == old(store)
      ensures requests == old(requests) + (if enabled then 1 else 0)
      ensures r == (if old(NextOk()) then Lookup(store, key, now) else None)
    {
      if !enabled {
        return None;
      }
      var ok := !fails(requests);
      requests := requests + 1;
      if !ok {
        return None;
      }
      r := Lookup(store, key, now);
    }

    /** `_set` (and `set_cached`): a no-op when disabled or on any error or timeout;
        Redis rejects an `EX` that is not positive, which is such an error. */
    method Set(key: string, text: Text, ttl: int, now: int)
      modifies this
      ensures requests == old(requests) + (if enabled then 1 else 0)
      ensures store == if old(NextOk()) && ttl > 0 then Put(old(store), key, text, ttl, now) else old(store)
    {
      if !enabled {
        return;
      }
      var ok := !fails(requests);
      requests := requests + 1;
      if ok && ttl > 0 {
        store := Put(store, key, text, ttl, now);
      }
    }

    /** `get_cached_json`: undecodable text is a miss (None). */
    method GetJson(key: string, now: int) returns (v: Value)
      modifies this
      ensures store == old(store)
      ensures requests == old(requests) + (if enabled then 1 else 0)
      ensures v == Decoded(if old(NextOk()) then Lookup(store, key, now) else None)
    {
      var raw := Get(key, now);
      v := Decoded(raw);
    }

    /** `set_cached_json`: a value `json.dumps` rejects is never written. */
    method SetJson(key: string, v: Value, ttl: int, now: int)
      modifies this
      ensures !Encodable(v) ==> store == old(store) && requests == old(requests)
      ensures Encodable(v) ==> requests == old(requests) + (if enabled then 1 else 0)
      ensures Encodable(v) ==>
        store == if old(NextOk()) && ttl > 0 then Put(old(store), key, Encoded(v), ttl, now) else old(store)
    {
      var text := Dumps(v);
      if text.None? {
        return;
      }
      Set(key, text.value, ttl, now);
    }

    method GetCachedLogin(now: int) returns (r: Option<Object>)
      modifies this
      ensures store == old(store)
      ensures requests == old(requests) + (if enabled then 1 else 0)
      ensures r == AsObject(Decoded(if old(NextOk()) then Lookup(store, LoginKey, now) else None))
    {
      var data := GetJson(LoginKey, now);
      r := AsObject(data);
    }

    method SetCachedLogin(loginData: Object, ttl: Option<int>, now: int)
      modifies this
      ensures requests == old(requests) + (if enabled && Encodable(Dict(loginData)) then 1 else 0)
      ensures var t := ChooseTtl(ttl, LoginTtl);
        Encodable(Dict(loginData)) && old(NextOk()) && t > 0 ==>
        store == Put(old(store), LoginKey, Encoded(Dict(loginData)), t, now)
      ensures !(Encodable(Dict(loginData)) && old(NextOk()) && ChooseTtl(ttl, LoginTtl) > 0) ==> store == old(store)
    {
      SetJson(LoginKey, Dict(loginData), ChooseTtl(ttl, LoginTtl), now);
    }

    method GetCachedGrowData(babyId: Value, now: int) returns (r: Option<Object>)
      modifies this
      ensures store == old(store)
      ensures requests == old(requests) + (if enabled then 1 else 0)
      ensures r == AsObject(Decoded(if old(NextOk()) then Lookup(store, GrowDataKey(babyId), now) else None))
    {
      var data := GetJson(GrowDataKey(babyId), now);
      r := AsObject(data);
    }

    method SetCachedGrowData(babyId: Value, data: Object, ttl: Option<int>, now: int)
      modifies this
      ensures requests == old(requests) + (if enabled && Encodable(Dict(data)) then 1 else 0)
      ensures var t := ChooseTtl(ttl, dataTtl);
        Encodable(Dict(data)) && old(NextOk()) && t > 0 ==>
        store == Put(old(store), GrowDataKey(babyId), Encoded(Dict(data)), t, now)
      ensures !(Encodable(Dict(data)) && old(NextOk()) && ChooseTtl(ttl, dataTtl) > 0) ==> store == old(store)
    {
      SetJson(GrowDataKey(babyId), Dict(data), ChooseTtl(ttl, dataTtl), now);
    }

    method GetCachedPhotos(babyId: Value, now: int) returns (r: Option<seq<Value>>)
      modifies this
      ensures store == old(store)
      ensures requests == old(requests) + (if enabled then 1 else 0)
      ensures r == AsList(Decoded(if old(NextOk()) then Lookup(store, PhotosKey(babyId), now) else None))
    {
      var data := GetJson(PhotosKey(babyId), now);
      r := AsList(data);
    }

    method SetCachedPhotos(babyId: Value, photos: seq<Value>, ttl: Option<int>, now: int)
      modifies this
      ensures requests == old(requests) + (if enabled && Encodable(List(photos)) then 1 else 0)
      ensures var t := ChooseTtl(ttl, dataTtl);
        Encodable(List(photos)) && old(NextOk()) && t > 0 ==>
        store == Put(old(store), PhotosKey(babyId), Encoded(List(photos)), t, now)
      ensures !(Encodable(List(photos)) && old(NextOk()) && ChooseTtl(ttl, dataTtl) > 0) ==> store == old(store)
    {
      SetJson(PhotosKey(babyId), List(photos), ChooseTtl(ttl, dataTtl), now);
    }

    /** `redis_health`. */
    method RedisHealth() returns (s: string)
      modifies this
      ensures store == old(store)
      ensures !enabled ==> s == "disabled" && requests == old(requests)
      ensures enabled ==> s == (if fails(old(requests)) then "unavailable" else "ok") && requests == old(requests) + 1
    {
      if !enabled {
        return "disabled";
      }
      var ok := !fails(requests);
      requests := requests + 1;
      s := if ok then "ok" else "unavailable";
    }
  }
}
