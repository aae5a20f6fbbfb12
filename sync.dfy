/** The de-duplicating sync from Hatch Grow records to Google Calendar events. The
    state maps `baby_{id}_{kind}` to the set of record ids already turned into events.
    Each pass walks every baby's four record lists in order. It skips records with no
    id or a seen id and creates an event for the others. A success marks the id seen;
    a failure records an error and the walk goes on. The state is saved once, at the end. */
module Sync {
  import opened Wrappers
  import opened Json
  import opened Time
  import Decimal
  import Strings
  import Gcal
  import Cache
  import Grow
  import Api

  // ---- record kinds ----

  datatype Kind = Diaper | Feeding | Sleep | Weight

  /** The `data_type` part of a state key. */
  function Name(kind: Kind): string
  {
    match kind
    case Diaper => "diaper"
    case Feeding => "feeding"
    case Sleep => "sleep"
    case Weight => "weight"
  }

  /** The word that opens an error message about one record. */
  function Label(kind: Kind): string
  {
    match kind
    case Diaper => "Diaper"
    case Feeding => "Feeding"
    case Sleep => "Sleep"
    case Weight => "Weight"
  }

  /** The converter for the kind. */
  function Convert(kind: Kind, entry: Object, now: Instant): Result<Gcal.Event>
  {
    match kind
    case Diaper => Gcal.DiaperToEvent(entry, now)
    case Feeding => Gcal.FeedingToEvent(entry, now)
    case Sleep => Gcal.SleepToEvent(entry, now)
    case Weight => Gcal.WeightToEvent(entry, now)
  }

  // ---- the state ----

  /** The sync state, as `_load_state` returns it; a stored list is read back as a set. */
  type State = map<string, set<Value>>

  /** What the state file holds: nothing, something `json.load` rejects, or a state. */
  datatype StateFile = Missing | Unreadable | Saved(state: State)

  /** `_load_state`: a missing or unreadable file is the empty state. */
  function LoadState(file: StateFile): (s: State)
    ensures file.Saved? ==> s == file.state
    ensures !file.Saved? ==> s == map[]
  {
    if file.Saved? then file.state else map[]
  }

  /** `_state_key`. */
  function StateKey(babyId: Value, kind: Kind): (k: string)
    ensures |k| == 6 + |Show(babyId)| + |Name(kind)| && k[..5] == "baby_"
    ensures k[|k| - |Name(kind)| - 1..] == "_" + Name(kind)
  {
    "baby_" + Show(babyId) + "_" + Name(kind)
  }

  /** The kind names end in four different letters. */
  lemma NameLastLetter(k1: Kind, k2: Kind)
    requires Name(k1)[|Name(k1)| - 1] == Name(k2)[|Name(k2)| - 1]
    ensures k1 == k2
  {
  }

  lemma KeyTail(x: string, y: string, n1: string, n2: string)
    requires n1 != [] && n2 != [] && "baby_" + x + "_" + n1 == "baby_" + y + "_" + n2
    ensures n1[|n1| - 1] == n2[|n2| - 1]
  {
    var s := "baby_" + x + "_" + n1;
    assert s[|s| - 1] == n1[|n1| - 1];
    assert ("baby_" + y + "_" + n2)[|s| - 1] == n2[|n2| - 1];
  }

  /** Equal state keys have the same kind, fixed by the key's last letter, and the same
      baby text. */
  lemma StateKeyParts(x: string, y: string, k1: Kind, k2: Kind)
    requires "baby_" + x + "_" + Name(k1) == "baby_" + y + "_" + Name(k2)
    ensures k1 == k2 && x == y
  {
    KeyTail(x, y, Name(k1), Name(k2));
    NameLastLetter(k1, k2);
    var n := Name(k1);
    assert "baby_" + x + "_" + n == "baby_" + x + ("_" + n);
    assert "baby_" + y + "_" + n == "baby_" + y + ("_" + n);
    Cache.Infix("baby_", x, y, "_" + n);
  }

  /** A state key names one baby and one kind: the kind is fixed by the key's last
      letter and the baby's `str` by what lies between. So for integer ids, distinct
      (baby, kind) pairs have distinct keys. */
  lemma {:induction false} StateKeyInjective(a: Value, b: Value, k1: Kind, k2: Kind)
    requires StateKey(a, k1) == StateKey(b, k2)
    ensures k1 == k2 && Show(a) == Show(b)
    ensures a.Int? && b.Int? ==> a == b
  {
    StateKeyParts(Show(a), Show(b), k1, k2);
    if a.Int? && b.Int? {
      Decimal.IntToStringInjective(a.i, b.i);
    }
  }

  /** `_get_seen_ids`. */
  function SeenIds(state: State, babyId: Value, kind: Kind): (ids: set<Value>)
    ensures StateKey(babyId, kind) !in state ==> ids == {}
    ensures StateKey(babyId, kind) in state ==> ids == state[StateKey(babyId, kind)]
  {
    var key := StateKey(babyId, kind);
    if key in state then state[key] else {}
  }

  /** `_set_seen_ids`. */
  function SetSeenIds(state: State, babyId: Value, kind: Kind, ids: set<Value>): (s: State)
    ensures SeenIds(s, babyId, kind) == ids
    ensures s.Keys == state.Keys + {StateKey(babyId, kind)}
    ensures forall key :: key in state && key != StateKey(babyId, kind) ==> s[key] == state[key]
  {
    state[StateKey(babyId, kind) := ids]
  }

  /** Writing one (baby, kind) leaves the seen ids of every other integer baby and every
      other kind as they were. */
  lemma {:induction false} SetSeenIdsFrame(state: State, a: Value, k1: Kind, ids: set<Value>, b: Value, k2: Kind)
    requires a.Int? && b.Int? && (a != b || k1 != k2)
    ensures SeenIds(SetSeenIds(state, a, k1, ids), b, k2) == SeenIds(state, b, k2)
  {
    if StateKey(a, k1) == StateKey(b, k2) {
      StateKeyInjective(a, b, k1, k2);
    }
  }

  // ---- one kind of one baby: specification ----

  /** A record the loop can look at without raising: a dict whose `id` is None or
      usable as a set element. */
  predicate WellFormed(record: Value)
  {
    record.Dict? && (Get(record.fields, "id") == Null || Hashable(Get(record.fields, "id")))
  }

  function IdOf(record: Value): Value
    requires record.Dict?
  {
    Get(record.fields, "id")
  }

  /** Progress through one record list: the seen set, the next Google request's
      number, the events created (with their record ids) and the failures (record id
      and exception text), in order. */
  datatype Tally = Tally(seen: set<Value>, requests: nat, made: seq<(Value, Gcal.Event)>,
                         failures: seq<(Value, string)>)

  function Start(seen: set<Value>, requests: nat): Tally
  {
    Tally(seen, requests, [], [])
  }

  /** How a record of a kind becomes an event (the four converters, at a fixed "now"). */
  type Converter = (Kind, Object) -> Result<Gcal.Event>

  /** One iteration of a `for` loop over records. */
  function Step(kind: Kind, record: Value, t: Tally, fails: nat -> bool, convert: Converter): (r: Result<Tally>)
    ensures r.Ok? <==> WellFormed(record)
    ensures WellFormed(record) && (IdOf(record) == Null || IdOf(record) in t.seen) ==> r == Ok(t)
  {
    if !record.Dict? then Err("object has no attribute 'get'")
    else
      var rid := IdOf(record);
      if rid == Null then Ok(t)
      else if !Hashable(rid) then Err("unhashable type")
      else if rid in t.seen then Ok(t)
      else match convert(kind, record.fields)
        case Err(e) => Ok(t.(failures := t.failures + [(rid, e)]))
        case Ok(ev) =>
          if fails(t.requests) then Ok(t.(requests := t.requests + 1, failures := t.failures + [(rid, Gcal.InsertFailed)]))
          else Ok(t.(requests := t.requests + 1, made := t.made + [(rid, ev)], seen := t.seen + {rid}))
  }

  /** The loop over `records` from tally `start`; `Err` when the loop raises. */
  function Run(kind: Kind, records: seq<Value>, start: Tally, fails: nat -> bool, convert: Converter): Result<Tally>
    decreases |records|
  {
    if records == [] then Ok(start)
    else
      var t :- Run(kind, records[..|records| - 1], start, fails, convert);
      Step(kind, records[|records| - 1], t, fails, convert)
  }

  /** The loop raises exactly when some record is not a dict or has an id that cannot
      go in a set. */
  lemma {:induction false} RunOkIff(kind: Kind, records: seq<Value>, start: Tally, fails: nat -> bool, convert: Converter)
    ensures Run(kind, records, start, fails, convert).Ok? <==> forall i :: 0 <= i < |records| ==> WellFormed(records[i])
  {
    if records != [] {
      var init := records[..|records| - 1];
      RunOkIff(kind, init, start, fails, convert);
      assert forall i :: 0 <= i < |init| ==> init[i] == records[i];
    }
  }

  /** The record ids of a list of created events. */
  function Ids(made: seq<(Value, Gcal.Event)>): (ids: set<Value>)
    ensures forall i :: 0 <= i < |made| ==> made[i].0 in ids
  {
    if made == [] then {} else Ids(made[..|made| - 1]) + {made[|made| - 1].0}
  }

  /** The record ids of a list of failures. */
  function FailedIds(failures: seq<(Value, string)>): (ids: set<Value>)
    ensures forall i :: 0 <= i < |failures| ==> failures[i].0 in ids
  {
    if failures == [] then {} else FailedIds(failures[..|failures| - 1]) + {failures[|failures| - 1].0}
  }

  /** What one step does to a tally: nothing, for a record with no id or a seen id;
      otherwise one failure for that id, with or without a request; or one new event
      for that id, with one request, the id becoming seen. */
  lemma StepCases(kind: Kind, record: Value, t: Tally, fails: nat -> bool, convert: Converter)
    requires WellFormed(record)
    ensures var r := Step(kind, record, t, fails, convert).value; var x := IdOf(record);
      || (r == t && (x == Null || x in t.seen))
      || (x != Null && x !in t.seen && r.seen == t.seen && r.made == t.made &&
          |r.failures| == |t.failures| + 1 && r.failures[..|t.failures|] == t.failures &&
          r.failures[|t.failures|].0 == x && t.requests <= r.requests <= t.requests + 1)
      || (x != Null && x !in t.seen && r.seen == t.seen + {x} && r.failures == t.failures &&
          |r.made| == |t.made| + 1 && r.made[..|t.made|] == t.made && r.made[|t.made|].0 == x &&
          r.requests == t.requests + 1)
  {
    var r := Step(kind, record, t, fails, convert).value;
    if r.failures != t.failures {
      assert r.failures[..|t.failures|] == t.failures;
    }
    if r.made != t.made {
      assert r.made[..|t.made|] == t.made;
    }
  }

  lemma RunNext(kind: Kind, records: seq<Value>, i: nat, start: Tally, fails: nat -> bool, convert: Converter)
    requires i < |records| && Run(kind, records[..i], start, fails, convert).Ok?
    ensures Run(kind, records[..i + 1], start, fails, convert)
         == Step(kind, records[i], Run(kind, records[..i], start, fails, convert).value, fails, convert)
  {
    assert records[..i + 1][..i] == records[..i];
    assert records[..i + 1][i] == records[i];
  }

  /** The last step of a loop that did not raise. */
  lemma RunLast(kind: Kind, records: seq<Value>, start: Tally, fails: nat -> bool, convert: Converter)
    requires records != [] && Run(kind, records, start, fails, convert).Ok?
    ensures var init := records[..|records| - 1];
      && Run(kind, init, start, fails, convert).Ok?
      && WellFormed(records[|records| - 1])
      && Step(kind, records[|records| - 1], Run(kind, init, start, fails, convert).value, fails, convert)
         == Run(kind, records, start, fails, convert)
  {
  }

  /** What the loop keeps true of its tally, from a start with seen set `seen0` and
      request number `n`: the seen set grows by exactly the created ids, each created
      id was unseen at the start and is created once, and every request made either
      created an event or failed. */
  predicate SeenSoFar(seen0: set<Value>, n: nat, t: Tally)
  {
    && t.seen == seen0 + Ids(t.made)
    && (forall i :: 0 <= i < |t.made| ==> t.made[i].0 !in seen0)
    && (forall i, j :: 0 <= i < j < |t.made| ==> t.made[i].0 != t.made[j].0)
    && n + |t.made| <= t.requests <= n + |t.made| + |t.failures|
  }

  /** One step keeps `SeenSoFar`. */
  lemma SeenStep(kind: Kind, record: Value, t: Tally, seen0: set<Value>, n: nat, fails: nat -> bool, convert: Converter)
    requires WellFormed(record) && SeenSoFar(seen0, n, t)
    ensures SeenSoFar(seen0, n, Step(kind, record, t, fails, convert).value)
  {
    var r := Step(kind, record, t, fails, convert).value;
    StepCases(kind, record, t, fails, convert);
    if r.made != t.made {
      var x := IdOf(record);
      assert r.made == t.made + [r.made[|t.made|]] by {
        assert r.made[..|t.made|] == t.made;
      }
      assert Ids(r.made) == Ids(t.made) + {x} by {
        assert r.made[..|r.made| - 1] == t.made;
      }
      forall i, j | 0 <= i < j < |r.made| ensures r.made[i].0 != r.made[j].0 {
        if j == |t.made| {
          assert r.made[i] == t.made[i];
        } else {
          assert r.made[i] == t.made[i] && r.made[j] == t.made[j];
        }
      }
      forall i | 0 <= i < |r.made| ensures r.made[i].0 !in seen0 {
        if i < |t.made| {
          assert r.made[i] == t.made[i];
        }
      }
    }
  }

  /** After the loop, the seen set is the old one plus exactly the ids whose event was
      created. Every created id was unseen before, and no id is created twice. Every
      request made either created an event or failed. */
  lemma {:induction false} RunSeen(kind: Kind, records: seq<Value>, seen0: set<Value>, n: nat,
                                   fails: nat -> bool, convert: Converter)
    requires Run(kind, records, Start(seen0, n), fails, convert).Ok?
    ensures SeenSoFar(seen0, n, Run(kind, records, Start(seen0, n), fails, convert).value)
  {
    if records != [] {
      var init := records[..|records| - 1];
      RunLast(kind, records, Start(seen0, n), fails, convert);
      RunSeen(kind, init, seen0, n, fails, convert);
      SeenStep(kind, records[|records| - 1], Run(kind, init, Start(seen0, n), fails, convert).value, seen0, n, fails, convert);
    }
  }

  /** A list in which every record has no id or a seen id makes no request and
      changes nothing. */
  lemma {:induction false} RunNothingNew(kind: Kind, records: seq<Value>, t: Tally, fails: nat -> bool, convert: Converter)
    requires forall i :: 0 <= i < |records| ==>
      WellFormed(records[i]) && (IdOf(records[i]) == Null || IdOf(records[i]) in t.seen)
    ensures Run(kind, records, t, fails, convert) == Ok(t)
  {
    if records != [] {
      RunNothingNew(kind, records[..|records| - 1], t, fails, convert);
    }
  }

  /** Every record's id ends up either seen or among the failures. */
  lemma {:induction false} RunCovers(kind: Kind, records: seq<Value>, start: Tally, fails: nat -> bool, convert: Converter)
    requires Run(kind, records, start, fails, convert).Ok?
    ensures var r := Run(kind, records, start, fails, convert).value;
      start.seen <= r.seen &&
      forall i :: 0 <= i < |records| && records[i].Dict? && IdOf(records[i]) != Null ==>
        IdOf(records[i]) in r.seen || IdOf(records[i]) in FailedIds(r.failures)
  {
    if records != [] {
      var init := records[..|records| - 1];
      RunLast(kind, records, start, fails, convert);
      RunCovers(kind, init, start, fails, convert);
      var t := Run(kind, init, start, fails, convert).value;
      var r := Run(kind, records, start, fails, convert).value;
      StepCases(kind, records[|records| - 1], t, fails, convert);
      assert FailedIds(t.failures) <= FailedIds(r.failures) by {
        if r.failures != t.failures {
          assert r.failures[..|r.failures| - 1] == t.failures;
        }
      }
      forall i | 0 <= i < |records| && records[i].Dict? && IdOf(records[i]) != Null
        ensures IdOf(records[i]) in r.seen || IdOf(records[i]) in FailedIds(r.failures)
      {
        if i < |init| {
          assert records[i] == init[i];
        }
      }
    }
  }

  /** One step creates or fails only for the record's id, and only when that id is
      not yet seen. */
  lemma StepWithin(kind: Kind, record: Value, t: Tally, allowed: set<Value>, fails: nat -> bool, convert: Converter)
    requires WellFormed(record) && (IdOf(record) == Null || IdOf(record) in t.seen || IdOf(record) in allowed)
    ensures var r := Step(kind, record, t, fails, convert).value;
      && t.seen <= r.seen && t.made <= r.made && t.failures <= r.failures
      && (forall i :: |t.made| <= i < |r.made| ==> r.made[i].0 in allowed)
      && (forall i :: |t.failures| <= i < |r.failures| ==> r.failures[i].0 in allowed)
  {
  }

  /** A pass over records whose ids are each unset, seen, or in `allowed` creates
      events and failures only for ids in `allowed`. */
  lemma {:induction false} RunWithin(kind: Kind, records: seq<Value>, t: Tally, allowed: set<Value>,
                                     fails: nat -> bool, convert: Converter)
    requires forall i :: 0 <= i < |records| ==>
      (WellFormed(records[i]) && (IdOf(records[i]) == Null || IdOf(records[i]) in t.seen || IdOf(records[i]) in allowed))
    ensures Run(kind, records, t, fails, convert).Ok?
    ensures var r := Run(kind, records, t, fails, convert).value;
      && t.seen <= r.seen && t.made <= r.made && t.failures <= r.failures
      && (forall i :: |t.made| <= i < |r.made| ==> r.made[i].0 in allowed)
      && (forall i :: |t.failures| <= i < |r.failures| ==> r.failures[i].0 in allowed)
  {
    if records != [] {
      var init := records[..|records| - 1];
      assert forall i :: 0 <= i < |init| ==> init[i] == records[i];
      RunWithin(kind, init, t, allowed, fails, convert);
      var m := Run(kind, init, t, fails, convert).value;
      StepWithin(kind, records[|records| - 1], m, allowed, fails, convert);
    }
  }

  /** A second pass over the same records, from any state that includes what the first
      pass marked seen, only tries ids whose attempt failed in the first pass. */
  lemma {:induction false} SecondPassRetriesOnlyFailures(kind: Kind, records: seq<Value>, first: Tally, second: Tally,
                                                        fails: nat -> bool, fails2: nat -> bool, convert: Converter, convert2: Converter)
    requires Run(kind, records, first, fails, convert).Ok?
    requires Run(kind, records, first, fails, convert).value.seen <= second.seen
    ensures Run(kind, records, second, fails2, convert2).Ok?
    ensures var r1 := Run(kind, records, first, fails, convert).value;
            var r2 := Run(kind, records, second, fails2, convert2).value;
      second.seen <= r2.seen &&
      (forall i :: |second.made| <= i < |r2.made| ==> r2.made[i].0 in FailedIds(r1.failures)) &&
      (forall i :: |second.failures| <= i < |r2.failures| ==> r2.failures[i].0 in FailedIds(r1.failures))
  {
    RunCovers(kind, records, first, fails, convert);
    RunOkIff(kind, records, first, fails, convert);
    var r1 := Run(kind, records, first, fails, convert).value;
    RunWithin(kind, records, second, FailedIds(r1.failures), fails2, convert2);
  }

  /** Idempotence: when a pass had no failures, re-running it on the state it left
      behind creates nothing and makes no request. */
  lemma {:induction false} RerunCreatesNothing(kind: Kind, records: seq<Value>, first: Tally, second: Tally,
                                               fails: nat -> bool, fails2: nat -> bool, convert: Converter, convert2: Converter)
    requires Run(kind, records, first, fails, convert).Ok?
    requires Run(kind, records, first, fails, convert).value.failures == []
    requires Run(kind, records, first, fails, convert).value.seen <= second.seen
    ensures Run(kind, records, second, fails2, convert2) == Ok(second)
  {
    var r1 := Run(kind, records, first, fails, convert).value;
    RunCovers(kind, records, first, fails, convert);
    RunOkIff(kind, records, first, fails, convert);
    forall i | 0 <= i < |records|
      ensures IdOf(records[i]) == Null || IdOf(records[i]) in second.seen
    {
    }
    RunNothingNew(kind, records, second, fails2, convert2);
  }

  /** Once the loop has raised, it stays raised with the same exception. */
  lemma {:induction false} RunErrPersists(kind: Kind, records: seq<Value>, k: nat, start: Tally,
                                          fails: nat -> bool, convert: Converter)
    requires k <= |records| && Run(kind, records[..k], start, fails, convert).Err?
    ensures Run(kind, records, start, fails, convert) == Run(kind, records[..k], start, fails, convert)
    decreases |records| - k
  {
    if k < |records| {
      assert records[..k + 1][..k] == records[..k];
      RunErrPersists(kind, records, k + 1, start, fails, convert);
    } else {
      assert records[..k] == records;
    }
  }

  // ---- one kind of one baby: the loop ----

  /** The calendar inserts of a list of created events, in order. */
  function Inserted(calendarId: string, made: seq<(Value, Gcal.Event)>): (r: seq<Gcal.Created>)
    ensures |r| == |made|
    ensures forall i :: 0 <= i < |made| ==> r[i] == Gcal.Created(calendarId, made[i].1)
  {
    if made == [] then [] else Inserted(calendarId, made[..|made| - 1]) + [Gcal.Created(calendarId, made[|made| - 1].1)]
  }

  /** The (state key, record id) each created event was made for. */
  function Origins(key: string, made: seq<(Value, Gcal.Event)>): (r: seq<(string, Value)>)
    ensures |r| == |made|
    ensures forall i :: 0 <= i < |made| ==> r[i] == (key, made[i].0)
  {
    if made == [] then [] else Origins(key, made[..|made| - 1]) + [(key, made[|made| - 1].0)]
  }

  lemma MadeOneMore(calendarId: string, key: string, made: seq<(Value, Gcal.Event)>, x: (Value, Gcal.Event))
    ensures Inserted(calendarId, made + [x]) == Inserted(calendarId, made) + [Gcal.Created(calendarId, x.1)]
    ensures Origins(key, made + [x]) == Origins(key, made) + [(key, x.0)]
  {
    assert (made + [x])[..|made|] == made;
  }

  /** One iteration: look at one record and, when it is new, convert it and insert
      the event. `events0` and `origins0` are the service's lists before the loop. */
  method SyncRecord(service: Gcal.CalendarService, calendarId: string, key: string, kind: Kind,
                    record: Value, t: Tally, convert: Converter,
                    ghost events0: seq<Gcal.Created>, ghost origins0: seq<(string, Value)>) returns (r: Result<Tally>)
    requires service.Valid() && service.requests == t.requests
    requires service.events == events0 + Inserted(calendarId, t.made)
    requires service.origins == origins0 + Origins(key, t.made)
    modifies service
    ensures service.Valid()
    ensures r == Step(kind, record, t, service.fails, convert)
    ensures service.calendars == old(service.calendars) && service.acl == old(service.acl)
    ensures r.Ok? ==> service.requests == r.value.requests
    ensures r.Ok? ==> service.events == events0 + Inserted(calendarId, r.value.made)
    ensures r.Ok? ==> service.origins == origins0 + Origins(key, r.value.made)
  {
    ghost var step := Step(kind, record, t, service.fails, convert);
    if !record.Dict? {
      return Err("object has no attribute 'get'");
    }
    var rid := IdOf(record);
    if rid != Null && !Hashable(rid) {
      return Err("unhashable type");
    }
    if rid == Null || rid in t.seen {
      assert step == Ok(t);
      return Ok(t);
    }
    var converted := convert(kind, record.fields);
    if converted.Err? {
      assert step == Ok(t.(failures := t.failures + [(rid, converted.msg)]));
      return Ok(t.(failures := t.failures + [(rid, converted.msg)]));
    }
    assert step == if service.fails(t.requests)
      then Ok(t.(requests := t.requests + 1, failures := t.failures + [(rid, Gcal.InsertFailed)]))
      else Ok(t.(requests := t.requests + 1, made := t.made + [(rid, converted.value)], seen := t.seen + {rid}));
    var next := Insert(service, calendarId, key, rid, converted.value, t, events0, origins0);
    r := Ok(next);
  }

  /** `create_event` for a converted record whose id `rid` is new. */
  method Insert(service: Gcal.CalendarService, calendarId: string, key: string, rid: Value, ev: Gcal.Event,
                t: Tally, ghost events0: seq<Gcal.Created>, ghost origins0: seq<(string, Value)>) returns (r: Tally)
    requires service.Valid() && service.requests == t.requests
    requires service.events == events0 + Inserted(calendarId, t.made)
    requires service.origins == origins0 + Origins(key, t.made)
    modifies service
    ensures service.Valid() && service.requests == r.requests
    ensures r == if old(service.fails(service.requests))
      then t.(requests := t.requests + 1, failures := t.failures + [(rid, Gcal.InsertFailed)])
      else t.(requests := t.requests + 1, made := t.made + [(rid, ev)], seen := t.seen + {rid})
    ensures service.calendars == old(service.calendars) && service.acl == old(service.acl)
    ensures service.events == events0 + Inserted(calendarId, r.made)
    ensures service.origins == origins0 + Origins(key, r.made)
  {
    var created := service.CreateEvent(calendarId, ev, (key, rid));
    if created.Ok? {
      MadeOneMore(calendarId, key, t.made, (rid, ev));
      r := t.(requests := t.requests + 1, made := t.made + [(rid, ev)], seen := t.seen + {rid});
    } else {
      r := t.(requests := t.requests + 1, failures := t.failures + [(rid, created.msg)]);
    }
  }

  lemma AppendAssoc<T>(a: seq<T>, b: seq<T>, c: seq<T>)
    ensures a + b + c == a + (b + c)
  {
  }

  lemma PrefixOfAppend<T>(a: seq<T>, b: seq<T>)
    ensures a <= a + b
  {
    assert (a + b)[..|a|] == a;
  }

  /** The body of one `for` loop of `run_sync` over the records of one kind. */
  method SyncKind(service: Gcal.CalendarService, calendarId: string, babyId: Value, kind: Kind,
                  records: seq<Value>, seen0: set<Value>, convert: Converter) returns (r: Result<Tally>)
    requires service.Valid()
    modifies service
    ensures service.Valid()
    ensures r == Run(kind, records, Start(seen0, old(service.requests)), service.fails, convert)
    ensures service.calendars == old(service.calendars) && service.acl == old(service.acl)
    ensures r.Ok? ==> service.requests == r.value.requests
    ensures r.Ok? ==> service.events == old(service.events) + Inserted(calendarId, r.value.made)
    ensures r.Ok? ==> service.origins == old(service.origins) + Origins(StateKey(babyId, kind), r.value.made)
  {
    var t := Start(seen0, service.requests);
    ghost var start := t;
    var key := StateKey(babyId, kind);
    var i := 0;
    while i < |records|
      invariant 0 <= i <= |records|
      invariant Run(kind, records[..i], start, service.fails, convert) == Ok(t)
      invariant service.Valid() && service.requests == t.requests
      invariant service.calendars == old(service.calendars) && service.acl == old(service.acl)
      invariant service.events == old(service.events) + Inserted(calendarId, t.made)
      invariant service.origins == old(service.origins) + Origins(key, t.made)
    {
      RunNext(kind, records, i, start, service.fails, convert);
      var next := SyncRecord(service, calendarId, key, kind, records[i], t, convert,
                             old(service.events), old(service.origins));
      if next.Err? {
        RunErrPersists(kind, records, i + 1, start, service.fails, convert);
        return next;
      }
      t := next.value;
      i := i + 1;
    }
    assert records[..i] == records;
    r := Ok(t);
  }

  // ---- the state/calendar invariant ----

  /** Every event the sync created is recorded as seen under its (baby, kind) key, and
      no (key, record id) pair has two events. */
  ghost predicate Consistent(state: State, origins: seq<(string, Value)>)
  {
    && (forall i :: 0 <= i < |origins| ==> origins[i].0 in state && origins[i].1 in state[origins[i].0])
    && (forall i, j :: 0 <= i < j < |origins| ==> origins[i] != origins[j])
  }

  /** Processing one kind keeps the invariant: the new events' ids were unseen, are
      distinct, and are now seen. */
  lemma {:induction false} KindKeepsConsistent(state: State, origins: seq<(string, Value)>, babyId: Value, kind: Kind,
                                               records: seq<Value>, n: nat, fails: nat -> bool, convert: Converter)
    requires Consistent(state, origins)
    requires Run(kind, records, Start(SeenIds(state, babyId, kind), n), fails, convert).Ok?
    ensures var r := Run(kind, records, Start(SeenIds(state, babyId, kind), n), fails, convert).value;
      Consistent(SetSeenIds(state, babyId, kind, r.seen), origins + Origins(StateKey(babyId, kind), r.made))
  {
    var seen0 := SeenIds(state, babyId, kind);
    var r := Run(kind, records, Start(seen0, n), fails, convert).value;
    RunSeen(kind, records, seen0, n, fails, convert);
    var key := StateKey(babyId, kind);
    var s' := SetSeenIds(state, babyId, kind, r.seen);
    var o' := origins + Origins(key, r.made);
    var added := Origins(key, r.made);
    forall i | 0 <= i < |o'| ensures o'[i].0 in s' && o'[i].1 in s'[o'[i].0]
    {
      if i < |origins| {
        assert o'[i] == origins[i];
      } else {
        assert o'[i] == (key, r.made[i - |origins|].0);
      }
    }
    forall i, j | 0 <= i < j < |o'| ensures o'[i] != o'[j]
    {
      if j >= |origins| {
        assert o'[j] == (key, r.made[j - |origins|].0);
        if i < |origins| {
          assert o'[i] == origins[i];
          if origins[i].0 == key {
            assert origins[i].1 in seen0;
          }
        } else {
          assert o'[i] == (key, r.made[i - |origins|].0);
        }
      } else {
        assert o'[i] == origins[i] && o'[j] == origins[j];
      }
    }
  }

  // ---- one baby ----

  /** The counters `run_sync` reports. */
  datatype Summary = Summary(eventsCreated: nat, errors: seq<string>)

  /** `f"{Kind} event {rid}: {e}"` for each failure, in order. */
  function Messages(kind: Kind, failures: seq<(Value, string)>): (r: seq<string>)
    ensures |r| == |failures|
    ensures forall i :: 0 <= i < |failures| ==>
      r[i] == Label(kind) + " event " + Show(failures[i].0) + ": " + failures[i].1
  {
    if failures == [] then []
    else Messages(kind, failures[..|failures| - 1])
         + [Label(kind) + " event " + Show(failures[|failures| - 1].0) + ": " + failures[|failures| - 1].1]
  }

  /** The key of a kind's list in a Grow payload and in the cached bundle. */
  function ListKey(kind: Kind): string
  {
    match kind
    case Diaper => "diapers"
    case Feeding => "feedings"
    case Sleep => "sleeps"
    case Weight => "weights"
  }

  /** The word that opens a fetch error message. */
  function FetchLabel(kind: Kind): string
  {
    match kind
    case Diaper => "Diapers"
    case Feeding => "Feedings"
    case Sleep => "Sleep"
    case Weight => "Weight"
  }

  /** The `fetch_*` call for a kind. */
  function Fetch(kind: Kind, reply: Grow.HttpReply): Result<Value>
  {
    match kind
    case Diaper => var l :- Grow.FetchLive(reply, ListKey(kind)); Ok(List(l))
    case Feeding => var l :- Grow.FetchLive(reply, ListKey(kind)); Ok(List(l))
    case Sleep => Grow.FetchAll(reply, ListKey(kind))
    case Weight => Grow.FetchAll(reply, ListKey(kind))
  }

  const Kinds: seq<Kind> := [Diaper, Feeding, Sleep, Weight]

  /** Every kind has a list. */
  predicate Complete(lists: map<Kind, Value>)
  {
    Diaper in lists && Feeding in lists && Sleep in lists && Weight in lists
  }

  /** The Hatch API as the sync sees it: the response to each (baby id, list key) fetch. */
  type Replies = (Value, string) -> Grow.HttpReply

  /** What a fetch inside its `try` leaves in the list: the result, or `[]` if it raised. */
  function Fetched(kind: Kind, reply: Grow.HttpReply): (v: Value)
    ensures Fetch(kind, reply).Ok? ==> v == Fetch(kind, reply).value
    ensures Fetch(kind, reply).Err? ==> v == List([])
  {
    var f := Fetch(kind, reply);
    if f.Ok? then f.value else List([])
  }

  /** The error message a fetch that raised adds, if any. */
  function FetchError(kind: Kind, reply: Grow.HttpReply): (r: seq<string>)
    ensures Fetch(kind, reply).Ok? <==> r == []
  {
    var f := Fetch(kind, reply);
    if f.Err? then [FetchLabel(kind) + " fetch: " + f.msg] else []
  }

  /** The cached bundle `get_cached_grow_data` returns for the baby, on the cache as it is. */
  function CachedBundle(cache: Cache.RedisCache, babyId: Value, now: Instant): Option<Object>
    reads cache
  {
    Cache.AsObject(Cache.Decoded(if cache.NextOk() then Cache.Lookup(cache.store, Cache.GrowDataKey(babyId), now) else None))
  }

  /** The bundle a cache miss writes back: each list as fetched, under its key. */
  function FetchedBundle(babyId: Value, replies: Replies): (b: Object)
    ensures b.Keys == {"diapers", "feedings", "sleeps", "weights"}
    ensures forall kind: Kind :: b[ListKey(kind)] == Fetched(kind, replies(babyId, ListKey(kind)))
  {
    map[ListKey(Diaper) := Fetched(Diaper, replies(babyId, ListKey(Diaper))),
        ListKey(Feeding) := Fetched(Feeding, replies(babyId, ListKey(Feeding))),
        ListKey(Sleep) := Fetched(Sleep, replies(babyId, ListKey(Sleep))),
        ListKey(Weight) := Fetched(Weight, replies(babyId, ListKey(Weight)))]
  }

  /** The four lists of a baby: from the cached bundle when there is a non-empty one
      (a falsy entry reads as `[]`), else fetched one by one, a failed fetch adding an
      error and reading as `[]`, and the bundle then written back to the cache. */
  method GrowLists(cache: Cache.RedisCache, babyId: Value, replies: Replies, summary0: Summary, now: Instant)
    returns (lists: map<Kind, Value>, summary: Summary)
    modifies cache
    ensures Complete(lists) && summary.eventsCreated == summary0.eventsCreated
    ensures var hit := old(CachedBundle(cache, babyId, now));
      hit.Some? && hit.value != map[] ==>
        summary == summary0 && forall kind :: kind in lists && lists[kind] == Or(Get(hit.value, ListKey(kind)), List([]))
    ensures var hit := old(CachedBundle(cache, babyId, now));
      !(hit.Some? && hit.value != map[]) ==>
        && summary.errors == summary0.errors + FetchError(Diaper, replies(babyId, ListKey(Diaper)))
             + FetchError(Feeding, replies(babyId, ListKey(Feeding))) + FetchError(Sleep, replies(babyId, ListKey(Sleep)))
             + FetchError(Weight, replies(babyId, ListKey(Weight)))
        && forall kind :: kind in lists && lists[kind] == Fetched(kind, replies(babyId, ListKey(kind)))
    ensures var hit := old(CachedBundle(cache, babyId, now));
      hit.Some? && hit.value != map[] ==>
        cache.store == old(cache.store) && cache.requests == old(cache.requests) + 1
    ensures var hit := old(CachedBundle(cache, babyId, now));
      var bundle := Dict(FetchedBundle(babyId, replies));
      !(hit.Some? && hit.value != map[]) ==>
        && cache.requests == old(cache.requests) + (if cache.enabled then 1 + (if Encodable(bundle) then 1 else 0) else 0)
        && cache.store == if cache.enabled && !cache.fails(old(cache.requests) + 1) && Encodable(bundle)
                             && cache.dataTtl > 0
                          then Cache.Put(old(cache.store), Cache.GrowDataKey(babyId), Encoded(bundle), cache.dataTtl, now)
                          else old(cache.store)
  {
    summary := summary0;
    var cached := cache.GetCachedGrowData(babyId, now);
    if cached.Some? && cached.value != map[] {
      lists := map kind: Kind :: Or(Get(cached.value, ListKey(kind)), List([]));
      return;
    }
    var diapers := Fetched(Diaper, replies(babyId, ListKey(Diaper)));
    summary := summary.(errors := summary.errors + FetchError(Diaper, replies(babyId, ListKey(Diaper))));
    var feedings := Fetched(Feeding, replies(babyId, ListKey(Feeding)));
    summary := summary.(errors := summary.errors + FetchError(Feeding, replies(babyId, ListKey(Feeding))));
    var sleeps := Fetched(Sleep, replies(babyId, ListKey(Sleep)));
    summary := summary.(errors := summary.errors + FetchError(Sleep, replies(babyId, ListKey(Sleep))));
    var weights := Fetched(Weight, replies(babyId, ListKey(Weight)));
    summary := summary.(errors := summary.errors + FetchError(Weight, replies(babyId, ListKey(Weight))));
    lists := map[Diaper := diapers, Feeding := feedings, Sleep := sleeps, Weight := weights];
    forall kind ensures kind in lists && lists[kind] == Fetched(kind, replies(babyId, ListKey(kind))) {
      match kind
      case Diaper =>
      case Feeding =>
      case Sleep =>
      case Weight =>
    }
    cache.SetCachedGrowData(babyId, FetchedBundle(babyId, replies), None, now);
  }

  // ---- how the state grows ----

  /** The ids stored under a key, or none. */
  function SeenAt(state: State, key: string): set<Value>
  {
    if key in state then state[key] else {}
  }

  /** The record ids of the created events made for state key `key`. */
  function IdsUnder(key: string, origins: seq<(string, Value)>): set<Value>
  {
    if origins == [] then {}
    else IdsUnder(key, origins[..|origins| - 1])
         + (if origins[|origins| - 1].0 == key then {origins[|origins| - 1].1} else {})
  }

  /** Under every key, the seen ids are the old ones plus exactly the record ids of the
      events created for that key: a record whose insert failed stays unseen. */
  ghost predicate SeenGrowth(state0: State, state: State, added: seq<(string, Value)>)
  {
    forall key :: SeenAt(state, key) == SeenAt(state0, key) + IdsUnder(key, added)
  }

  lemma {:induction false} IdsUnderAppend(key: string, a: seq<(string, Value)>, b: seq<(string, Value)>)
    ensures IdsUnder(key, a + b) == IdsUnder(key, a) + IdsUnder(key, b)
    decreases |b|
  {
    if b == [] {
      assert a + b == a;
    } else {
      IdsUnderAppend(key, a, b[..|b| - 1]);
      assert (a + b)[..|a + b| - 1] == a + b[..|b| - 1];
    }
  }

  /** The created events of one loop are made for its own key, with the created ids. */
  lemma {:induction false} IdsUnderOrigins(key: string, k: string, made: seq<(Value, Gcal.Event)>)
    ensures IdsUnder(key, Origins(k, made)) == if key == k then Ids(made) else {}
    decreases |made|
  {
    if made != [] {
      IdsUnderOrigins(key, k, made[..|made| - 1]);
      assert Origins(k, made)[..|made| - 1] == Origins(k, made[..|made| - 1]);
    }
  }

  lemma SeenGrowthNone(state: State)
    ensures SeenGrowth(state, state, [])
  {
  }

  /** Writing a kind's seen set after its loop keeps `SeenGrowth`. */
  lemma GrowthStep(state0: State, state: State, added: seq<(string, Value)>, babyId: Value, kind: Kind,
                   made: seq<(Value, Gcal.Event)>, seen: set<Value>)
    requires SeenGrowth(state0, state, added) && seen == SeenIds(state, babyId, kind) + Ids(made)
    ensures SeenGrowth(state0, SetSeenIds(state, babyId, kind, seen), added + Origins(StateKey(babyId, kind), made))
  {
    var k := StateKey(babyId, kind);
    var next := SetSeenIds(state, babyId, kind, seen);
    forall key ensures SeenAt(next, key) == SeenAt(state0, key) + IdsUnder(key, added + Origins(k, made)) {
      IdsUnderAppend(key, added, Origins(k, made));
      IdsUnderOrigins(key, k, made);
      assert SeenAt(state, key) == SeenAt(state0, key) + IdsUnder(key, added);
    }
  }

  /** `SeenGrowth` composes: two passes in a row add what each added. */
  lemma GrowthTrans(s0: State, s1: State, s2: State, o0: seq<(string, Value)>, o1: seq<(string, Value)>,
                    o2: seq<(string, Value)>)
    requires o0 <= o1 <= o2
    requires SeenGrowth(s0, s1, o1[|o0|..]) && SeenGrowth(s1, s2, o2[|o1|..])
    ensures SeenGrowth(s0, s2, o2[|o0|..])
  {
    assert o2[|o0|..] == o1[|o0|..] + o2[|o1|..];
    forall key ensures SeenAt(s2, key) == SeenAt(s0, key) + IdsUnder(key, o2[|o0|..]) {
      IdsUnderAppend(key, o1[|o0|..], o2[|o1|..]);
      assert SeenAt(s1, key) == SeenAt(s0, key) + IdsUnder(key, o1[|o0|..]);
      assert SeenAt(s2, key) == SeenAt(s1, key) + IdsUnder(key, o2[|o1|..]);
    }
  }

  // ---- the four kinds of one baby: specification ----

  /** The converters at a fixed "now". */
  function ConvertAt(now: Instant): Converter
  {
    (kind, entry) => Convert(kind, entry, now)
  }

  /** The loop of a kind over `list`, which raises when it is not iterable. */
  function KindPass(kind: Kind, list: Value, seen0: set<Value>, n: nat, fails: nat -> bool, convert: Converter)
    : Result<Tally>
  {
    var records :- Grow.Records(list);
    Run(kind, records, Start(seen0, n), fails, convert)
  }

  /** The number of the request after the passes `ps`, the first starting at `n`. */
  function NextRequest(ps: seq<Tally>, n: nat): nat
  {
    if ps == [] then n else ps[|ps| - 1].requests
  }

  /** The first `j` of a baby's four loops. Each starts from the ids the initial state
      holds for its kind (no loop reads another kind's key) and from the request number
      the previous loop left; the first to raise ends them. */
  function Passes(j: nat, babyId: Value, lists: map<Kind, Value>, state: State, n: nat,
                  fails: nat -> bool, convert: Converter): (r: Result<seq<Tally>>)
    requires j <= 4 && Complete(lists)
    ensures r.Ok? ==> |r.value| == j
  {
    if j == 0 then Ok([])
    else
      var ps :- Passes(j - 1, babyId, lists, state, n, fails, convert);
      var kind := Kinds[j - 1];
      var t :- KindPass(kind, lists[kind], SeenIds(state, babyId, kind), NextRequest(ps, n), fails, convert);
      Ok(ps + [t])
  }

  /** A raise ends the remaining loops. */
  lemma {:induction false} PassesErr(j: nat, babyId: Value, lists: map<Kind, Value>, state: State, n: nat,
                                     fails: nat -> bool, convert: Converter)
    requires j <= 4 && Complete(lists) && Passes(j, babyId, lists, state, n, fails, convert).Err?
    ensures Passes(4, babyId, lists, state, n, fails, convert) == Passes(j, babyId, lists, state, n, fails, convert)
    decreases 4 - j
  {
    if j < 4 {
      PassesErr(j + 1, babyId, lists, state, n, fails, convert);
    }
  }

  /** The state after the loops `ps`: each writes its kind's seen set. */
  function PassState(state: State, babyId: Value, ps: seq<Tally>): State
    requires |ps| <= 4
  {
    if ps == [] then state
    else SetSeenIds(PassState(state, babyId, ps[..|ps| - 1]), babyId, Kinds[|ps| - 1], ps[|ps| - 1].seen)
  }

  /** The error messages of the loops `ps`, in order. */
  function PassMessages(ps: seq<Tally>): seq<string>
    requires |ps| <= 4
  {
    if ps == [] then [] else PassMessages(ps[..|ps| - 1]) + Messages(Kinds[|ps| - 1], ps[|ps| - 1].failures)
  }

  /** The calendar inserts of the loops `ps`, in order. */
  function PassInserted(calendarId: string, ps: seq<Tally>): seq<Gcal.Created>
  {
    if ps == [] then [] else PassInserted(calendarId, ps[..|ps| - 1]) + Inserted(calendarId, ps[|ps| - 1].made)
  }

  /** The (key, record id) of each event the loops `ps` created, in order. */
  function PassOrigins(babyId: Value, ps: seq<Tally>): seq<(string, Value)>
    requires |ps| <= 4
  {
    if ps == [] then [] else PassOrigins(babyId, ps[..|ps| - 1]) + Origins(StateKey(babyId, Kinds[|ps| - 1]), ps[|ps| - 1].made)
  }

  /** The loops before the `j`-th leave its kind's key as it was. */
  lemma {:induction false} PassStateUnread(state: State, babyId: Value, ps: seq<Tally>, j: nat)
    requires |ps| <= j < 4
    ensures SeenIds(PassState(state, babyId, ps), babyId, Kinds[j]) == SeenIds(state, babyId, Kinds[j])
  {
    if ps != [] {
      var init := ps[..|ps| - 1];
      PassStateUnread(state, babyId, init, j);
      if StateKey(babyId, Kinds[|ps| - 1]) == StateKey(babyId, Kinds[j]) {
        StateKeyInjective(babyId, babyId, Kinds[|ps| - 1], Kinds[j]);
      }
    }
  }

  /** One more loop extends each of the functions above by its own part. */
  lemma PassesOneMore(state: State, babyId: Value, calendarId: string, ps: seq<Tally>, t: Tally)
    requires |ps| < 4
    ensures PassState(state, babyId, ps + [t]) == SetSeenIds(PassState(state, babyId, ps), babyId, Kinds[|ps|], t.seen)
    ensures PassMessages(ps + [t]) == PassMessages(ps) + Messages(Kinds[|ps|], t.failures)
    ensures PassInserted(calendarId, ps + [t]) == PassInserted(calendarId, ps) + Inserted(calendarId, t.made)
    ensures PassOrigins(babyId, ps + [t]) == PassOrigins(babyId, ps) + Origins(StateKey(babyId, Kinds[|ps|]), t.made)
  {
    assert (ps + [t])[..|ps|] == ps;
  }

  /** What the passes of `SyncKinds` have done after the first `j` loops `ps`: they are
      the specified loops, and the state, the error list, the calendar's events and
      their origins, and the request number are what those loops leave. */
  ghost predicate KindsSoFar(j: nat, babyId: Value, lists: map<Kind, Value>, state0: State, errors0: seq<string>,
                             n0: nat, fails: nat -> bool, convert: Converter, calendarId: string,
                             events0: seq<Gcal.Created>, origins0: seq<(string, Value)>, ps: seq<Tally>,
                             state: State, errors: seq<string>, events: seq<Gcal.Created>,
                             origins: seq<(string, Value)>, requests: nat)
    requires j <= 4 && Complete(lists)
  {
    && Passes(j, babyId, lists, state0, n0, fails, convert) == Ok(ps)
    && state == PassState(state0, babyId, ps)
    && errors == errors0 + PassMessages(ps)
    && events == events0 + PassInserted(calendarId, ps)
    && origins == origins0 + PassOrigins(babyId, ps)
    && requests == NextRequest(ps, n0)
  }

  /** One more loop, from the state the earlier ones left, keeps `KindsSoFar`. */
  lemma KindsStep(j: nat, babyId: Value, lists: map<Kind, Value>, state0: State, errors0: seq<string>,
                  n0: nat, fails: nat -> bool, convert: Converter, calendarId: string,
                  events0: seq<Gcal.Created>, origins0: seq<(string, Value)>, ps: seq<Tally>,
                  state: State, errors: seq<string>, events: seq<Gcal.Created>,
                  origins: seq<(string, Value)>, requests: nat, records: seq<Value>, t: Tally)
    requires j < 4 && Complete(lists)
    requires KindsSoFar(j, babyId, lists, state0, errors0, n0, fails, convert, calendarId, events0, origins0, ps,
                        state, errors, events, origins, requests)
    requires Grow.Records(lists[Kinds[j]]) == Ok(records)
    requires Run(Kinds[j], records, Start(SeenIds(state, babyId, Kinds[j]), requests), fails, convert) == Ok(t)
    ensures KindsSoFar(j + 1, babyId, lists, state0, errors0, n0, fails, convert, calendarId, events0, origins0,
                       ps + [t], SetSeenIds(state, babyId, Kinds[j], t.seen),
                       errors + Messages(Kinds[j], t.failures), events + Inserted(calendarId, t.made),
                       origins + Origins(StateKey(babyId, Kinds[j]), t.made), t.requests)
  {
    var kind := Kinds[j];
    PassStateUnread(state0, babyId, ps, j);
    assert KindPass(kind, lists[kind], SeenIds(state0, babyId, kind), NextRequest(ps, n0), fails, convert) == Ok(t);
    assert Passes(j + 1, babyId, lists, state0, n0, fails, convert) == Ok(ps + [t]);
    PassesOneMore(state0, babyId, calendarId, ps, t);
    assert NextRequest(ps + [t], n0) == t.requests;
    AppendAssoc(events0, PassInserted(calendarId, ps), Inserted(calendarId, t.made));
    AppendAssoc(origins0, PassOrigins(babyId, ps), Origins(StateKey(babyId, kind), t.made));
    AppendAssoc(errors0, PassMessages(ps), Messages(kind, t.failures));
  }

  /** A loop that raises after the first `j` ends the passes with its error. */
  lemma KindsErr(j: nat, babyId: Value, lists: map<Kind, Value>, state0: State, n0: nat, fails: nat -> bool,
                 convert: Converter, ps: seq<Tally>, state: State, requests: nat, e: string)
    requires j < 4 && Complete(lists)
    requires Passes(j, babyId, lists, state0, n0, fails, convert) == Ok(ps)
    requires state == PassState(state0, babyId, ps) && requests == NextRequest(ps, n0)
    requires KindPass(Kinds[j], lists[Kinds[j]], SeenIds(state, babyId, Kinds[j]), requests, fails, convert) == Err(e)
    ensures Passes(4, babyId, lists, state0, n0, fails, convert) == Err(e)
  {
    PassStateUnread(state0, babyId, ps, j);
    PassesErr(j + 1, babyId, lists, state0, n0, fails, convert);
  }

  /** The first `j` passes are the first `j - 1` and one more loop, run from the initial
      state's ids for its kind. */
  lemma PassesLast(j: nat, babyId: Value, lists: map<Kind, Value>, state0: State, n0: nat,
                   fails: nat -> bool, convert: Converter)
    requires 0 < j <= 4 && Complete(lists) && Passes(j, babyId, lists, state0, n0, fails, convert).Ok?
    ensures Passes(j - 1, babyId, lists, state0, n0, fails, convert).Ok?
    ensures Grow.Records(lists[Kinds[j - 1]]).Ok?
    ensures var init, ps := Passes(j - 1, babyId, lists, state0, n0, fails, convert).value,
                            Passes(j, babyId, lists, state0, n0, fails, convert).value;
      && ps == init + [ps[j - 1]]
      && Run(Kinds[j - 1], Grow.Records(lists[Kinds[j - 1]]).value,
             Start(SeenIds(state0, babyId, Kinds[j - 1]), NextRequest(init, n0)), fails, convert) == Ok(ps[j - 1])
  {
  }

  /** One more loop, run from the initial state's ids for its kind, keeps `Consistent`. */
  lemma PassConsistent(state0: State, babyId: Value, init: seq<Tally>, t: Tally, records: seq<Value>, n: nat,
                       fails: nat -> bool, convert: Converter, origins0: seq<(string, Value)>)
    requires |init| < 4
    requires Consistent(PassState(state0, babyId, init), origins0 + PassOrigins(babyId, init))
    requires Run(Kinds[|init|], records, Start(SeenIds(state0, babyId, Kinds[|init|]), n), fails, convert) == Ok(t)
    ensures Consistent(PassState(state0, babyId, init + [t]), origins0 + PassOrigins(babyId, init + [t]))
  {
    var kind := Kinds[|init|];
    var st, og := PassState(state0, babyId, init), origins0 + PassOrigins(babyId, init);
    PassStateUnread(state0, babyId, init, |init|);
    KindKeepsConsistent(st, og, babyId, kind, records, n, fails, convert);
    PassesOneMore(state0, babyId, "", init, t);
    AppendAssoc(origins0, PassOrigins(babyId, init), Origins(StateKey(babyId, kind), t.made));
  }

  /** One more loop, run from the initial state's ids for its kind, keeps `SeenGrowth`. */
  lemma PassGrowth(state0: State, babyId: Value, init: seq<Tally>, t: Tally, records: seq<Value>, n: nat,
                   fails: nat -> bool, convert: Converter)
    requires |init| < 4
    requires SeenGrowth(state0, PassState(state0, babyId, init), PassOrigins(babyId, init))
    requires Run(Kinds[|init|], records, Start(SeenIds(state0, babyId, Kinds[|init|]), n), fails, convert) == Ok(t)
    ensures SeenGrowth(state0, PassState(state0, babyId, init + [t]), PassOrigins(babyId, init + [t]))
  {
    var kind := Kinds[|init|];
    var st, og := PassState(state0, babyId, init), PassOrigins(babyId, init);
    PassStateUnread(state0, babyId, init, |init|);
    RunSeen(kind, records, SeenIds(state0, babyId, kind), n, fails, convert);
    GrowthStep(state0, st, og, babyId, kind, t.made, t.seen);
    PassesOneMore(state0, babyId, "", init, t);
  }

  /** The passes grow the state by exactly the events they create. */
  lemma {:induction false} PassesGrowth(j: nat, babyId: Value, lists: map<Kind, Value>, state0: State, n0: nat,
                                        fails: nat -> bool, convert: Converter)
    requires j <= 4 && Complete(lists) && Passes(j, babyId, lists, state0, n0, fails, convert).Ok?
    ensures var ps := Passes(j, babyId, lists, state0, n0, fails, convert).value;
      SeenGrowth(state0, PassState(state0, babyId, ps), PassOrigins(babyId, ps))
  {
    if j == 0 {
      SeenGrowthNone(state0);
    } else {
      PassesLast(j, babyId, lists, state0, n0, fails, convert);
      PassesGrowth(j - 1, babyId, lists, state0, n0, fails, convert);
      var init, t := Passes(j - 1, babyId, lists, state0, n0, fails, convert).value, Passes(j, babyId, lists, state0, n0, fails, convert).value[j - 1];
      PassGrowth(state0, babyId, init, t, Grow.Records(lists[Kinds[j - 1]]).value, NextRequest(init, n0), fails, convert);
    }
  }

  /** The passes keep the state/calendar invariant. */
  lemma {:induction false} PassesConsistent(j: nat, babyId: Value, lists: map<Kind, Value>, state0: State, n0: nat,
                                            fails: nat -> bool, convert: Converter, origins0: seq<(string, Value)>)
    requires j <= 4 && Complete(lists) && Passes(j, babyId, lists, state0, n0, fails, convert).Ok?
    requires Consistent(state0, origins0)
    ensures var ps := Passes(j, babyId, lists, state0, n0, fails, convert).value;
      Consistent(PassState(state0, babyId, ps), origins0 + PassOrigins(babyId, ps))
  {
    if j > 0 {
      PassesLast(j, babyId, lists, state0, n0, fails, convert);
      PassesConsistent(j - 1, babyId, lists, state0, n0, fails, convert, origins0);
      var init, t := Passes(j - 1, babyId, lists, state0, n0, fails, convert).value, Passes(j, babyId, lists, state0, n0, fails, convert).value[j - 1];
      PassConsistent(state0, babyId, init, t, Grow.Records(lists[Kinds[j - 1]]).value, NextRequest(init, n0),
                     fails, convert, origins0);
      assert Passes(j, babyId, lists, state0, n0, fails, convert).value == init + [t];
    }
  }

  /** What the four completed loops add up to: the logs only grow, and the seen sets grow
      by exactly the ids logged under their keys, keeping the state consistent with the log. */
  lemma KindsDone(babyId: Value, lists: map<Kind, Value>, state0: State, n0: nat, fails: nat -> bool,
                  convert: Converter, calendarId: string, events0: seq<Gcal.Created>,
                  origins0: seq<(string, Value)>, ps: seq<Tally>, state: State,
                  events: seq<Gcal.Created>, origins: seq<(string, Value)>)
    requires Complete(lists) && Passes(4, babyId, lists, state0, n0, fails, convert) == Ok(ps)
    requires state == PassState(state0, babyId, ps)
    requires events == events0 + PassInserted(calendarId, ps) && origins == origins0 + PassOrigins(babyId, ps)
    ensures events0 <= events && origins0 <= origins
    ensures SeenGrowth(state0, state, origins[|origins0|..])
    ensures Consistent(state0, origins0) ==> Consistent(state, origins)
  {
    PassesGrowth(4, babyId, lists, state0, n0, fails, convert);
    if Consistent(state0, origins0) {
      PassesConsistent(4, babyId, lists, state0, n0, fails, convert, origins0);
    }
    PrefixOfAppend(events0, PassInserted(calendarId, ps));
    PrefixOfAppend(origins0, PassOrigins(babyId, ps));
    assert origins[|origins0|..] == PassOrigins(babyId, ps);
  }

  /** The body of the `j`-th record loop of `SyncKinds`: list the kind's records and run
      the loop over them from the seen ids the state holds for the kind. */
  method NextKind(service: Gcal.CalendarService, calendarId: string, babyId: Value, lists: map<Kind, Value>,
                  j: nat, ghost state0: State, ghost errors0: seq<string>, ghost n0: nat, convert: Converter,
                  ghost events0: seq<Gcal.Created>, ghost origins0: seq<(string, Value)>, ghost ps: seq<Tally>,
                  state: State, summary: Summary) returns (r: Result<(State, Summary)>, ghost ps1: seq<Tally>)
    requires j < 4 && Complete(lists) && service.Valid()
    requires KindsSoFar(j, babyId, lists, state0, errors0, n0, service.fails, convert, calendarId, events0, origins0,
                        ps, state, summary.errors, service.events, service.origins, service.requests)
    modifies service
    ensures service.Valid()
    ensures service.calendars == old(service.calendars) && service.acl == old(service.acl)
    ensures r.Err? ==> Passes(4, babyId, lists, state0, n0, service.fails, convert) == Err(r.msg)
    ensures r.Ok? ==> KindsSoFar(j + 1, babyId, lists, state0, errors0, n0, service.fails, convert, calendarId,
                                 events0, origins0, ps1, r.value.0, r.value.1.errors,
                                 service.events, service.origins, service.requests)
    ensures r.Ok? ==> r.value.1.eventsCreated == summary.eventsCreated + |service.events| - |old(service.events)|
  {
    ps1 := ps;
    var kind := Kinds[j];
    var records := Grow.Records(lists[kind]);
    if records.Err? {
      KindsErr(j, babyId, lists, state0, n0, service.fails, convert, ps, state, service.requests, records.msg);
      return Err(records.msg), ps1;
    }
    ghost var n, events, origins := service.requests, service.events, service.origins;
    var pass := SyncKind(service, calendarId, babyId, kind, records.value, SeenIds(state, babyId, kind), convert);
    if pass.Err? {
      KindsErr(j, babyId, lists, state0, n0, service.fails, convert, ps, state, n, pass.msg);
      return Err(pass.msg), ps1;
    }
    KindsStep(j, babyId, lists, state0, errors0, n0, service.fails, convert, calendarId, events0, origins0,
              ps, state, summary.errors, events, origins, n, records.value, pass.value);
    r := Ok((SetSeenIds(state, babyId, kind, pass.value.seen),
             Summary(summary.eventsCreated + |pass.value.made|, summary.errors + Messages(kind, pass.value.failures))));
    ps1 := ps + [pass.value];
  }

  /** The four record loops of one baby, in the order diaper, feeding, sleep, weight,
      each record converted by `convert`. */
  method SyncKinds(service: Gcal.CalendarService, calendarId: string, babyId: Value, lists: map<Kind, Value>,
                   state0: State, summary0: Summary, convert: Converter) returns (r: Result<(State, Summary)>)
    requires service.Valid() && Complete(lists)
    modifies service
    ensures service.Valid()
    ensures service.calendars == old(service.calendars) && service.acl == old(service.acl)
    ensures var p := Passes(4, babyId, lists, state0, old(service.requests), service.fails, convert);
      (r.Err? <==> p.Err?) && (r.Err? ==> r.msg == p.msg)
    ensures r.Ok? ==> var ps := Passes(4, babyId, lists, state0, old(service.requests), service.fails, convert).value;
      && r.value.0 == PassState(state0, babyId, ps)
      && r.value.1.errors == summary0.errors + PassMessages(ps)
      && service.events == old(service.events) + PassInserted(calendarId, ps)
      && service.origins == old(service.origins) + PassOrigins(babyId, ps)
      && service.requests == NextRequest(ps, old(service.requests))
    ensures r.Ok? ==> old(service.events) <= service.events && old(service.origins) <= service.origins
    ensures r.Ok? ==> r.value.1.eventsCreated == summary0.eventsCreated + |service.events| - |old(service.events)|
    ensures r.Ok? ==> SeenGrowth(state0, r.value.0, service.origins[|old(service.origins)|..])
    ensures r.Ok? && Consistent(state0, old(service.origins)) ==> Consistent(r.value.0, service.origins)
  {
    var state, summary := state0, summary0;
    ghost var n0 := service.requests;
    ghost var ps: seq<Tally> := [];
    for j := 0 to 4
      invariant service.Valid()
      invariant service.calendars == old(service.calendars) && service.acl == old(service.acl)
      invariant KindsSoFar(j, babyId, lists, state0, summary0.errors, n0, service.fails, convert, calendarId,
                           old(service.events), old(service.origins), ps, state, summary.errors,
                           service.events, service.origins, service.requests)
      invariant summary.eventsCreated == summary0.eventsCreated + |service.events| - |old(service.events)|
    {
      var next;
      next, ps := NextKind(service, calendarId, babyId, lists, j, state0, summary0.errors, n0, convert,
                           old(service.events), old(service.origins), ps, state, summary);
      if next.Err? {
        return Err(next.msg);
      }
      state, summary := next.value.0, next.value.1;
    }
    KindsDone(babyId, lists, state0, n0, service.fails, convert, calendarId, old(service.events),
              old(service.origins), ps, state, service.events, service.origins);
    assert Passes(4, babyId, lists, state0, n0, service.fails, convert) == Ok(ps);
    r := Ok((state, summary));
  }

  /** The loops leave every key that is not one of the baby's four as it was. */
  lemma {:induction false} PassStateFrame(state: State, babyId: Value, ps: seq<Tally>, key: string)
    requires |ps| <= 4 && forall kind :: key != StateKey(babyId, kind)
    ensures key in PassState(state, babyId, ps) <==> key in state
    ensures key in state ==> PassState(state, babyId, ps)[key] == state[key]
  {
    if ps != [] {
      PassStateFrame(state, babyId, ps[..|ps| - 1], key);
      assert key != StateKey(babyId, Kinds[|ps| - 1]);
    }
  }

  /** The body of `for baby in babies`: get the calendar, get the lists, run the four
      record loops. `Err` means the body raised. */
  method SyncBaby(service: Gcal.CalendarService, cache: Cache.RedisCache, baby: Value, state0: State,
                  summary0: Summary, shareEmail: string, replies: Replies, now: Instant)
    returns (r: Result<(State, Summary)>)
    requires service.Valid()
    modifies service, cache
    ensures service.Valid()
    ensures !baby.Dict? || "id" !in baby.fields ==> r.Err?
    ensures baby.Dict? && "id" in baby.fields ==>
      var name := Show(GetOr(baby.fields, "name", Str("Baby")));
      var e := old(Gcal.LookupError(service.calendars, service.acl, name, shareEmail, service.requests,
                                    service.fails, service.assignedIds));
      e.Some? ==>
        && r == Ok((state0, summary0.(errors := summary0.errors + ["Calendar for " + name + ": " + e.value])))
        && service.events == old(service.events) && service.origins == old(service.origins)
    ensures r.Ok? ==> old(service.events) <= service.events && old(service.origins) <= service.origins
    ensures r.Ok? ==> r.value.1.eventsCreated == summary0.eventsCreated + |service.events| - |old(service.events)|
    ensures r.Ok? ==> summary0.errors <= r.value.1.errors
    ensures r.Ok? ==> SeenGrowth(state0, r.value.0, service.origins[|old(service.origins)|..])
    ensures r.Ok? && Consistent(state0, old(service.origins)) ==> Consistent(r.value.0, service.origins)
    ensures r.Ok? && baby.Dict? && "id" in baby.fields ==>
      forall key :: key in state0 && (forall kind :: key != StateKey(baby.fields["id"], kind)) ==>
        key in r.value.0 && r.value.0[key] == state0[key]
  {
    if !baby.Dict? || "id" !in baby.fields {
      return Err("KeyError: 'id'");
    }
    var babyId := baby.fields["id"];
    var name := GetOr(baby.fields, "name", Str("Baby"));
    var calendar := service.GetOrCreateBabyCalendar(Show(name), shareEmail);
    if calendar.Err? {
      PrefixOfAppend(summary0.errors, ["Calendar for " + Show(name) + ": " + calendar.msg]);
      SeenGrowthNone(state0);
      assert service.origins[|old(service.origins)|..] == [];
      return Ok((state0, summary0.(errors := summary0.errors + ["Calendar for " + Show(name) + ": " + calendar.msg])));
    }
    var lists, summary := GrowLists(cache, babyId, replies, summary0, now);
    assert summary0.errors <= summary.errors;
    ghost var n := service.requests;
    r := SyncKinds(service, calendar.value, babyId, lists, state0, summary, ConvertAt(now));
    if r.Ok? {
      ghost var ps := Passes(4, babyId, lists, state0, n, service.fails, ConvertAt(now)).value;
      PrefixOfAppend(summary.errors, PassMessages(ps));
      forall key | key in state0 && (forall kind :: key != StateKey(babyId, kind))
        ensures key in r.value.0 && r.value.0[key] == state0[key]
      {
        PassStateFrame(state0, babyId, ps, key);
      }
    }
  }

  // ---- one pass ----

  /** The environment `run_sync` reads: `HATCH_EMAIL`, `HATCH_PASSWORD`,
      `GOOGLE_CALENDAR_SHARE_EMAIL`, and whether the service-account file it settles on
      exists. */
  datatype Env = Env(email: Option<string>, password: Option<string>, shareEmail: Option<string>,
                     serviceAccountFound: bool)

  predicate Present(v: Option<string>) { v.Some? && v.value != "" }

  /** How a pass ends: it raised (nothing saved), or it returned its summary, having
      saved the given state or, on an early exit, nothing. */
  datatype Outcome = Raised(error: string) | Finished(summary: Summary, saved: Option<State>)

  /** The login payload: the cached one when there is a non-empty one, else a fresh
      login, which is then cached. `Err` carries the login error. */
  method LoginData(cache: Cache.RedisCache, loginReply: Grow.HttpReply, now: Instant) returns (r: Result<Object>)
    modifies cache
    ensures var cached := Cache.AsObject(Cache.Decoded(
              if old(cache.NextOk()) then Cache.Lookup(old(cache.store), Cache.LoginKey, now) else None));
      r == Api.LoginData(cached, Grow.Login(loginReply))
    ensures var cached := Cache.AsObject(Cache.Decoded(
              if old(cache.NextOk()) then Cache.Lookup(old(cache.store), Cache.LoginKey, now) else None));
      var login := Grow.Login(loginReply);
      cache.store == if !(cached.Some? && cached.value != map[]) && login.Ok? && cache.enabled
                        && !cache.fails(old(cache.requests) + 1) && Encodable(Dict(login.value))
                     then Cache.Put(old(cache.store), Cache.LoginKey, Encoded(Dict(login.value)), Cache.LoginTtl, now)
                     else old(cache.store)
  {
    var cached := cache.GetCachedLogin(now);
    if cached.Some? && cached.value != map[] {
      return Ok(cached.value);
    }
    r := Grow.Login(loginReply);
    if r.Ok? {
      cache.SetCachedLogin(r.value, None, now);
    }
  }

  /** `for baby in babies`: the babies in order, each leaving its state and summary
      to the next. `Err` means a baby's body raised. */
  method SyncBabies(service: Gcal.CalendarService, cache: Cache.RedisCache, babies: seq<Value>, state0: State,
                    shareEmail: string, replies: Replies, now: Instant) returns (r: Result<(State, Summary)>)
    requires service.Valid()
    modifies service, cache
    ensures service.Valid()
    ensures r.Ok? ==> old(service.events) <= service.events && old(service.origins) <= service.origins
    ensures r.Ok? ==> r.value.1.eventsCreated == |service.events| - |old(service.events)|
    ensures r.Ok? ==> SeenGrowth(state0, r.value.0, service.origins[|old(service.origins)|..])
    ensures r.Ok? && Consistent(state0, old(service.origins)) ==> Consistent(r.value.0, service.origins)
  {
    var state, summary := state0, Summary(0, []);
    SeenGrowthNone(state0);
    for b := 0 to |babies|
      invariant service.Valid()
      invariant old(service.events) <= service.events && old(service.origins) <= service.origins
      invariant summary.eventsCreated == |service.events| - |old(service.events)|
      invariant SeenGrowth(state0, state, service.origins[|old(service.origins)|..])
      invariant Consistent(state0, old(service.origins)) ==> Consistent(state, service.origins)
    {
      ghost var origins := service.origins;
      var step := SyncBaby(service, cache, babies[b], state, summary, shareEmail, replies, now);
      if step.Err? {
        return Err(step.msg);
      }
      GrowthTrans(state0, state, step.value.0, old(service.origins), origins, service.origins);
      state, summary := step.value.0, step.value.1;
    }
    r := Ok((state, summary));
  }

  /** `run_sync`. `calendarAuth` is what `get_calendar_service` did and `loginReply`
      the response to a Hatch login. */
  method RunSync(env: Env, stateFile: StateFile, calendarAuth: Result<()>, service: Gcal.CalendarService,
                 cache: Cache.RedisCache, loginReply: Grow.HttpReply, replies: Replies, now: Instant)
    returns (outcome: Outcome)
    requires service.Valid()
    modifies service, cache
    ensures service.Valid()
    ensures outcome.Finished? ==> old(service.events) <= service.events
    ensures !Present(env.email) || !Present(env.password) ==>
      outcome == Finished(Summary(0, ["HATCH_EMAIL and HATCH_PASSWORD required"]), None) &&
      service.requests == old(service.requests) && cache.store == old(cache.store)
    ensures Present(env.email) && Present(env.password) && !env.serviceAccountFound ==>
      outcome == Finished(Summary(0, ["GOOGLE_SERVICE_ACCOUNT_FILE not set or file missing"]), None) &&
      service.requests == old(service.requests)
    ensures Present(env.email) && Present(env.password) && env.serviceAccountFound && calendarAuth.Err? ==>
      outcome == Finished(Summary(0, ["Google Calendar auth: " + calendarAuth.msg]), None) &&
      service.requests == old(service.requests)
    ensures var cached := Cache.AsObject(Cache.Decoded(
              if old(cache.NextOk()) then Cache.Lookup(old(cache.store), Cache.LoginKey, now) else None));
      Present(env.email) && Present(env.password) && env.serviceAccountFound && calendarAuth.Ok? &&
      !(cached.Some? && cached.value != map[]) && Grow.Login(loginReply).Err? ==>
        outcome == Finished(Summary(0, ["Hatch login: " + Grow.Login(loginReply).msg]), None) &&
        service.requests == old(service.requests)
    ensures outcome.Finished? && outcome.saved.None? ==> service.events == old(service.events)
    ensures outcome.Finished? ==> outcome.summary.eventsCreated == |service.events| - |old(service.events)|
    ensures outcome.Finished? ==> old(service.origins) <= service.origins
    ensures outcome.Finished? && outcome.saved.Some? ==>
      SeenGrowth(LoadState(stateFile), outcome.saved.value, service.origins[|old(service.origins)|..])
    ensures outcome.Finished? && outcome.saved.Some? && Consistent(LoadState(stateFile), old(service.origins)) ==>
      Consistent(outcome.saved.value, service.origins)
  {
    var summary := Summary(0, []);
    if !Present(env.email) || !Present(env.password) {
      return Finished(summary.(errors := ["HATCH_EMAIL and HATCH_PASSWORD required"]), None);
    }
    var shareEmail := Strings.Strip(if env.shareEmail.Some? then env.shareEmail.value else "");
    if !env.serviceAccountFound {
      return Finished(summary.(errors := ["GOOGLE_SERVICE_ACCOUNT_FILE not set or file missing"]), None);
    }
    var state := LoadState(stateFile);
    if calendarAuth.Err? {
      return Finished(summary.(errors := ["Google Calendar auth: " + calendarAuth.msg]), None);
    }

    var login := LoginData(cache, loginReply, now);
    if login.Err? {
      return Finished(summary.(errors := ["Hatch login: " + login.msg]), None);
    }
    if "token" !in login.value {
      return Raised("KeyError: 'token'");
    }
    var payload := GetOr(login.value, "payload", Dict(map[]));
    if !payload.Dict? {
      return Raised("AttributeError: 'get'");
    }
    var babies := Grow.Records(GetOr(payload.fields, "babies", List([])));
    if babies.Err? {
      return Raised(babies.msg);
    }
    var pass := SyncBabies(service, cache, babies.value, state, shareEmail, replies, now);
    if pass.Err? {
      return Raised(pass.msg);
    }
    outcome := Finished(pass.value.1, Some(pass.value.0));
  }
}
