/** The Hatch Grow API client's handling of responses: the status checks of `login`
    and `_fetch`, and how each `fetch_*` turns a payload into a list of records. The
    HTTP exchange itself is an input: the decoded JSON body, or an exception. A Python
    exception that escapes a function is an `Err`. */
module Grow {
  import opened Wrappers
  import opened Json

  /** What awaiting the request and `resp.json()` produced. */
  datatype HttpReply = Raised | Body(data: Value)

  predicate Succeeded(reply: HttpReply)
  {
    reply.Body? && reply.data.Dict? && Get(reply.data.fields, "status") == Str("success")
  }

  /** `login`: the whole response when its status is "success"; otherwise the call
      raises (RuntimeError for another status, the underlying error for a failed
      request or a body that is not a JSON object). */
  function Login(reply: HttpReply): (r: Result<Object>)
    ensures r.Ok? <==> Succeeded(reply)
    ensures r.Ok? ==> reply.data == Dict(r.value)
  {
    if Succeeded(reply) then Ok(reply.data.fields)
    else if reply.Body? && reply.data.Dict? then Err("Login failed: " + Show(Get(reply.data.fields, "message")))
    else Err("login request failed")
  }

  /** `_fetch`: the `payload` of a successful response, None (Null) otherwise; every
      exception, including a body that is not an object, is swallowed. */
  function Payload(reply: HttpReply): (p: Value)
    ensures Succeeded(reply) ==> p == Get(reply.data.fields, "payload")
    ensures !Succeeded(reply) ==> p == Null
  {
    if Succeeded(reply) then Get(reply.data.fields, "payload") else Null
  }

  /** Python's `key in container`: a dict key, a list element, a substring;
      anything else is not iterable (TypeError). */
  function Contains(container: Value, key: string): (r: Result<bool>)
    ensures container.Dict? ==> r == Ok(key in container.fields)
    ensures container.List? ==> r == Ok(Str(key) in container.items)
    ensures r.Err? <==> !(container.Dict? || container.List? || container.Str?)
  {
    match container
    case Dict(fields) => Ok(key in fields)
    case List(items) => Ok(Str(key) in items)
    case Str(s) => Ok(exists i, j :: 0 <= i <= j <= |s| && s[i..j] == key)
    case _ => Err("argument is not iterable")
  }

  predicate IsDeleted(record: Value)
  {
    record.Dict? && Truthy(Get(record.fields, "deleted"))
  }

  predicate AllRecords(items: seq<Value>)
  {
    forall i :: 0 <= i < |items| ==> items[i].Dict?
  }

  /** `[f for f in items if not f.get("deleted")]`: fails on an element that is not a
      dict, otherwise keeps exactly the records not marked deleted. */
  function KeepLive(items: seq<Value>): (r: Result<seq<Value>>)
    ensures r.Ok? <==> AllRecords(items)
    ensures r.Ok? ==> |r.value| <= |items|
  {
    if items == [] then Ok([])
    else if !items[0].Dict? then Err("object has no attribute 'get'")
    else
      var rest :- KeepLive(items[1..]);
      Ok(if IsDeleted(items[0]) then rest else [items[0]] + rest)
  }

  /** The records kept are exactly those not marked deleted. */
  lemma {:induction false} KeepLiveMembers(items: seq<Value>)
    requires AllRecords(items)
    ensures forall x :: x in KeepLive(items).value <==> x in items && !IsDeleted(x)
  {
    if items != [] {
      KeepLiveMembers(items[1..]);
      assert items == [items[0]] + items[1..];
    }
  }

  /** The filter keeps the original order: it distributes over concatenation. */
  lemma {:induction false} KeepLiveAppend(a: seq<Value>, b: seq<Value>)
    requires AllRecords(a) && AllRecords(b)
    ensures KeepLive(a + b).Ok?
    ensures KeepLive(a + b).value == KeepLive(a).value + KeepLive(b).value
  {
    assert AllRecords(a + b);
    if a != [] {
      assert (a + b)[0] == a[0] && (a + b)[1..] == a[1..] + b;
      KeepLiveAppend(a[1..], b);
      var rest := KeepLive(a[1..] + b).value;
      assert KeepLive(a + b).value == if IsDeleted(a[0]) then rest else [a[0]] + rest;
      assert KeepLive(a).value == if IsDeleted(a[0]) then KeepLive(a[1..]).value else [a[0]] + KeepLive(a[1..]).value;
    } else {
      assert a + b == b;
    }
  }

  /** Filtering twice is filtering once. */
  lemma {:induction false} KeepLiveIdempotent(items: seq<Value>)
    requires AllRecords(items)
    ensures AllRecords(KeepLive(items).value)
    ensures KeepLive(KeepLive(items).value) == KeepLive(items)
  {
    var r := KeepLive(items).value;
    KeepLiveMembers(items);
    forall i | 0 <= i < |r| ensures r[i].Dict? {
      assert r[i] in r;
      var j :| 0 <= j < |items| && items[j] == r[i];
    }
    if items != [] {
      KeepLiveIdempotent(items[1..]);
      var rest := KeepLive(items[1..]).value;
      if !IsDeleted(items[0]) {
        assert r == [items[0]] + rest;
        assert r[1..] == rest;
      }
    }
  }

  /** Iterating a value in a comprehension: a list yields its elements; an empty
      string or dict yields nothing; a non-empty string or dict yields strings, which
      have no `get`; anything else is not iterable. */
  function Records(v: Value): (r: Result<seq<Value>>)
    ensures v.List? ==> r == Ok(v.items)
    ensures r.Ok? ==> v.List? || v == Str("") || v == Dict(map[])
  {
    match v
    case List(items) => Ok(items)
    case Str(s) => if s == "" then Ok([]) else Err("'str' object has no attribute 'get'")
    case Dict(fields) => if fields == map[] then Ok([]) else Err("'str' object has no attribute 'get'")
    case _ => Err("object is not iterable")
  }

  /** `fetch_feedings` (list key "feedings") and `fetch_diapers` ("diapers"): the
      list of the payload with deleted records removed, or `[]` when the payload is
      missing, empty or lacks the key. */
  function FetchLive(reply: HttpReply, listKey: string): (r: Result<seq<Value>>)
    ensures var p := Payload(reply);
      !Truthy(p) || (p.Dict? && listKey !in p.fields) ==> r == Ok([])
    ensures var p := Payload(reply);
      p.Dict? && listKey in p.fields && p.fields[listKey].List? ==> r == KeepLive(p.fields[listKey].items)
  {
    var payload := Payload(reply);
    if !Truthy(payload) then Ok([])
    else
      var present :- Contains(payload, listKey);
      if !present then Ok([])
      else if !payload.Dict? then Err("payload is not subscriptable by a string")
      else
        var items :- Records(payload.fields[listKey]);
        KeepLive(items)
  }

  /** `fetch_sleep` ("sleeps"), `fetch_weight` ("weights") and `fetch_photos`
      ("photos"): the payload's value under the key as it is (deleted records
      included), with a falsy value replaced by `[]`. */
  function FetchAll(reply: HttpReply, listKey: string): (r: Result<Value>)
    ensures var p := Payload(reply);
      !Truthy(p) || (p.Dict? && listKey !in p.fields) ==> r == Ok(List([]))
    ensures var p := Payload(reply);
      p.Dict? && listKey in p.fields ==> r == Ok(Or(p.fields[listKey], List([])))
    ensures r.Ok? ==> Truthy(r.value) || r.value == List([])
  {
    var payload := Payload(reply);
    if !Truthy(payload) then Ok(List([]))
    else
      var present :- Contains(payload, listKey);
      if !present then Ok(List([]))
      else if !payload.Dict? then Err("object has no attribute 'get'")
      else Ok(Or(Get(payload.fields, listKey), List([])))
  }
}
