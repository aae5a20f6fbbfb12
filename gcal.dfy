/** Google Calendar side of the sync: turning Hatch Grow records into calendar events
    (`_parse_hatch_dt`, `_add_minutes`, the four `*_to_event` converters) and the
    calendar service the sync writes to (find-or-create the baby's calendar, share it,
    insert events), with each Google API request either succeeding or failing. */
module Gcal {
  import opened Wrappers
  import opened Json
  import opened Time
  import Strings
  import Decimal

  /** `(summary, description, start, end)` of one calendar event. */
  datatype Event = Event(summary: string, description: string, start: Instant, end: Instant)

  /** The first `n` characters (`s[:n]`). */
  function Take(s: string, n: nat): (r: string)
    ensures |r| <= n && |r| <= |s| && r == s[..|r|]
    ensures |s| >= n ==> |r| == n
  {
    if |s| <= n then s else s[..n]
  }

  /** `s.strip().replace("Z", "").replace("T", " ")`. */
  function Normalise(s: string): string
  {
    Strings.ReplaceChar(Strings.RemoveChar(Strings.Strip(s), 'Z'), 'T', ' ')
  }

  /** `_parse_hatch_dt`: an empty string is "now"; otherwise the normalised text is tried
      against `"%Y-%m-%d %H:%M:%S"` on its first 19 characters, then `"%Y-%m-%d %H:%M"`
      on its first 16, then `"%Y-%m-%d"` on its first 10, and "now" when none matches. */
  function ParseHatchDt(s: string, now: Instant): (t: Instant)
    ensures ValidInstant(now) ==> ValidInstant(t)
  {
    if s == "" then now
    else
      var n := Normalise(s);
      match StrptimeSeconds(Take(n, 19))
      case Some(c) => ToInstant(c)
      case None =>
        match StrptimeMinutes(Take(n, 16))
        case Some(c) => ToInstant(c)
        case None =>
          match StrptimeDate(Take(n, 10))
          case Some(c) => ToInstant(c)
          case None => now
  }

  lemma ParseHatchDtEmpty(now: Instant)
    ensures ParseHatchDt("", now) == now
  {
  }

  /** Text made only of digits and the separators `-` and `:`, as strftime writes. */
  predicate Plain(s: string)
  {
    forall i :: 0 <= i < |s| ==> Decimal.IsDigit(s[i]) || s[i] == '-' || s[i] == ':'
  }

  lemma PlainFormats(c: DateTime)
    requires ValidDateTime(c)
    ensures Plain(FormatDate(c)) && Plain(FormatClock(c))
    ensures Decimal.IsDigit(FormatDate(c)[0]) && Decimal.IsDigit(FormatClock(c)[7])
    ensures Decimal.IsDigit(FormatClock(c)[4])
  {
    var y, m, d := Decimal.Padded(c.year, 4), Decimal.Padded(c.month, 2), Decimal.Padded(c.day, 2);
    var h, mi, s := Decimal.Padded(c.hour, 2), Decimal.Padded(c.minute, 2), Decimal.Padded(c.second, 2);
    var date, clock := FormatDate(c), FormatClock(c);
    assert date == y + "-" + m + "-" + d;
    assert clock == h + ":" + mi + ":" + s;
    assert forall i :: 0 <= i < 10 ==> (i < 4 && date[i] == y[i]) || i == 4 || (5 <= i < 7 && date[i] == m[i - 5])
                                       || i == 7 || (8 <= i && date[i] == d[i - 8]);
    assert forall i :: 0 <= i < 8 ==> (i < 2 && clock[i] == h[i]) || i == 2 || (3 <= i < 5 && clock[i] == mi[i - 3])
                                      || i == 5 || (6 <= i && clock[i] == s[i - 6]);
  }

  lemma PlainChar(ch: char)
    requires Decimal.IsDigit(ch) || ch == '-' || ch == ':'
    ensures !Strings.IsSpace(ch) && ch != 'Z' && ch != 'T'
  {
  }

  lemma ReplaceCharAppend(a: string, b: string, x: char, y: char)
    ensures Strings.ReplaceChar(a + b, x, y) == Strings.ReplaceChar(a, x, y) + Strings.ReplaceChar(b, x, y)
  {
    var l, r := Strings.ReplaceChar(a + b, x, y), Strings.ReplaceChar(a, x, y) + Strings.ReplaceChar(b, x, y);
    assert |l| == |r|;
    forall i | 0 <= i < |l| ensures l[i] == r[i] {
      if i >= |a| { assert (a + b)[i] == b[i - |a|]; }
    }
  }

  /** Text without a `Z` whose ends are not blank keeps its place at the front of the
      normalised form, whatever follows it. */
  lemma {:induction false} NormalisePrefix(f: string, rest: string)
    requires f != [] && !Strings.IsSpace(f[0]) && !Strings.IsSpace(f[|f| - 1]) && 'Z' !in f
    ensures exists w :: Normalise(f + rest) == Strings.ReplaceChar(f, 'T', ' ') + w
  {
    Strings.StripPrefixKept(f, rest);
    var u :| Strings.Strip(f + rest) == f + u && u == rest[..|u|];
    Strings.RemoveCharAppend(f, u, 'Z');
    Strings.RemoveCharAbsent(f, 'Z');
    var v := Strings.RemoveChar(u, 'Z');
    ReplaceCharAppend(f, v, 'T', ' ');
    assert Normalise(f + rest) == Strings.ReplaceChar(f, 'T', ' ') + Strings.ReplaceChar(v, 'T', ' ');
  }

  lemma TakePrefix(g: string, w: string, n: nat)
    requires |g| == n
    ensures Take(g + w, n) == g
  {
    assert (g + w)[..n] == g;
  }

  /** The 19 characters of a date, a separator and a clock: non-blank at both ends,
      free of `Z`, and the `strftime` text once a `T` separator becomes a space. */
  lemma HatchText(c: DateTime, sep: char)
    requires ValidDateTime(c) && (sep == 'T' || sep == ' ')
    ensures var f := FormatDate(c) + [sep] + FormatClock(c);
      && f != [] && !Strings.IsSpace(f[0]) && !Strings.IsSpace(f[|f| - 1]) && 'Z' !in f
      && Strings.ReplaceChar(f, 'T', ' ') == FormatDateTime(c)
  {
    var date, clock := FormatDate(c), FormatClock(c);
    var f := date + [sep] + clock;
    PlainFormats(c);
    assert |f| == 19;
    assert forall i :: 0 <= i < 19 && i != 10 ==> Decimal.IsDigit(f[i]) || f[i] == '-' || f[i] == ':' by {
      forall i | 0 <= i < 19 && i != 10
        ensures Decimal.IsDigit(f[i]) || f[i] == '-' || f[i] == ':'
      {
        if i < 10 { assert f[i] == date[i]; } else { assert f[i] == clock[i - 11]; }
      }
    }
    PlainChar(f[0]);
    PlainChar(f[18]);
    assert 'Z' !in f by {
      forall i | 0 <= i < 19 ensures f[i] != 'Z' {
        if i != 10 { PlainChar(f[i]); }
      }
    }
    var g := Strings.ReplaceChar(f, 'T', ' ');
    assert g == FormatDateTime(c) by {
      forall i | 0 <= i < 19 ensures g[i] == FormatDateTime(c)[i] {
        if i != 10 { PlainChar(f[i]); }
      }
    }
  }

  /** The RFC 3339 date-time the Hatch API sends, `YYYY-MM-DDThh:mm:ss` followed by
      anything (a `Z`, fractional seconds, a numeric offset), parses to that wall-clock
      second: whatever follows the seconds field is cut off, offset included. The same
      holds with a space as separator, the form `strftime` writes. */
  lemma {:induction false} ParseHatchDtTimestamp(c: DateTime, sep: char, rest: string, now: Instant)
    requires ValidDateTime(c) && (sep == 'T' || sep == ' ')
    ensures ParseHatchDt(FormatDate(c) + [sep] + FormatClock(c) + rest, now) == ToInstant(c)
  {
    var f := FormatDate(c) + [sep] + FormatClock(c);
    HatchText(c, sep);
    NormalisePrefix(f, rest);
    var w :| Normalise(f + rest) == Strings.ReplaceChar(f, 'T', ' ') + w;
    var g := FormatDateTime(c);
    assert |g| == 19;
    TakePrefix(g, w, 19);
    DateTimeTextRoundTrip(c);
  }

  /** A bare date parses to midnight of that day. */
  lemma {:induction false} ParseHatchDtDate(c: DateTime, now: Instant)
    requires ValidDateTime(c)
    ensures ParseHatchDt(FormatDate(c), now) == ToInstant(c.(hour := 0, minute := 0, second := 0))
  {
    var d := FormatDate(c);
    PlainFormats(c);
    PlainChar(d[0]);
    PlainChar(d[9]);
    assert 'Z' !in d by {
      forall i | 0 <= i < 10 ensures d[i] != 'Z' { PlainChar(d[i]); }
    }
    Strings.StripNoSpaceEnds(d);
    Strings.RemoveCharAbsent(d, 'Z');
    assert Strings.ReplaceChar(d, 'T', ' ') == d by {
      forall i | 0 <= i < 10 ensures Strings.ReplaceChar(d, 'T', ' ')[i] == d[i] { PlainChar(d[i]); }
    }
    assert Normalise(d) == d;
    assert Take(d, 19) == d && Take(d, 16) == d && Take(d, 10) == d;
    assert StrptimeSeconds(d) == None && StrptimeMinutes(d) == None;
    DateRoundTrip(c);
  }

  /** The first 16 characters of the 19-character text normalise to those of the
      `strftime` text. */
  lemma MinuteText(c: DateTime, sep: char)
    requires ValidDateTime(c) && (sep == 'T' || sep == ' ')
    ensures Normalise((FormatDate(c) + [sep] + FormatClock(c))[..16]) == FormatDateTime(c)[..16]
  {
    var full := FormatDate(c) + [sep] + FormatClock(c);
    var f := full[..16];
    HatchText(c, sep);
    PlainFormats(c);
    assert f[0] == full[0] && f[15] == FormatClock(c)[4];
    PlainChar(f[15]);
    Strings.StripNoSpaceEnds(f);
    NotInPrefix('Z', full, 16);
    Strings.RemoveCharAbsent(f, 'Z');
    Strings.ReplaceCharPrefix(full, 16, 'T', ' ');
  }

  lemma NotInPrefix<T>(x: T, s: seq<T>, k: nat)
    requires k <= |s| && x !in s
    ensures x !in s[..k]
  {
  }

  /** A date-time given to the minute, `YYYY-MM-DDThh:mm` (or with a space), fails the
      seconds format and parses to that minute. */
  lemma {:induction false} ParseHatchDtMinutes(c: DateTime, sep: char, now: Instant)
    requires ValidDateTime(c) && (sep == 'T' || sep == ' ')
    ensures ParseHatchDt((FormatDate(c) + [sep] + FormatClock(c))[..16], now) == ToInstant(c.(second := 0))
  {
    var f := (FormatDate(c) + [sep] + FormatClock(c))[..16];
    var g := FormatDateTime(c)[..16];
    MinuteText(c, sep);
    assert Take(g, 19) == g && Take(g, 16) == g;
    assert StrptimeSeconds(g) == None;
    MinutesRoundTrip(c);
  }

  /** Text whose first non-blank character is neither a digit nor a `Z` matches no
      format: the result is "now". */
  lemma {:induction false} ParseHatchDtFallback(s: string, now: Instant)
    requires Strings.Strip(s) != "" && !Decimal.IsDigit(Strings.Strip(s)[0]) && Strings.Strip(s)[0] != 'Z'
    ensures ParseHatchDt(s, now) == now
  {
    var t := Strings.Strip(s);
    assert Strings.RemoveChar(t, 'Z')[0] == t[0];
    var n := Normalise(s);
    assert n != [] && !Decimal.IsDigit(n[0]);
    LeadingNonDigit(Take(n, 19));
    LeadingNonDigit(Take(n, 16));
    LeadingNonDigit(Take(n, 10));
  }

  /** `_add_minutes`: `dt + timedelta(minutes=n)`, raising OverflowError past year 9999. */
  function AddMinutes(t: Instant, minutes: int): (r: Result<Instant>)
    ensures r.Ok? ==> r.value == t + minutes * SecondsPerMinute
  {
    AddSeconds(t, minutes * SecondsPerMinute)
  }

  /** What `_parse_hatch_dt(raw)` does with a field value: falsy values mean "now", text
      is parsed, and any other truthy value has no `strip` method (AttributeError). */
  function TimestampOf(raw: Value, now: Instant): (r: Result<Instant>)
    ensures r.Err? <==> Truthy(raw) && !raw.Str?
    ensures !Truthy(raw) ==> r == Ok(now)
    ensures raw.Str? && raw.s != "" ==> r == Ok(ParseHatchDt(raw.s, now))
  {
    if !Truthy(raw) then Ok(now)
    else if raw.Str? then Ok(ParseHatchDt(raw.s, now))
    else Err("object has no attribute 'strip'")
  }

  /** `(entry.get("details") or "").strip()`. */
  function StrippedText(v: Value): (r: Result<string>)
    ensures r.Err? <==> Truthy(v) && !v.Str?
  {
    if !Truthy(v) then Ok("") else if v.Str? then Ok(Strings.Strip(v.s)) else Err("object has no attribute 'strip'")
  }

  /** Python's `int(x / 60)`: the quotient truncated toward zero. */
  function TruncMinutes(seconds: int): (m: int)
    ensures 0 <= seconds ==> 0 <= 60 * m <= seconds < 60 * m + 60
    ensures seconds < 0 ==> 60 * m - 60 < seconds <= 60 * m <= 0
  {
    if seconds >= 0 then seconds / 60 else -((-seconds) / 60)
  }

  /** The first truthy value of `vs`, else the last (a chain of Python `or`s). */
  function FirstTruthy(vs: seq<Value>): (v: Value)
    requires vs != []
    ensures v in vs
    ensures Truthy(v) <==> exists i :: 0 <= i < |vs| && Truthy(vs[i])
    ensures forall i :: 0 <= i < |vs| && Truthy(vs[i]) && (forall j :: 0 <= j < i ==> !Truthy(vs[j])) ==> v == vs[i]
  {
    if |vs| == 1 || Truthy(vs[0]) then vs[0] else FirstTruthy(vs[1..])
  }

  const DiaperMinutes: int := 5
  const FeedingMinutes: int := 30
  const SleepMinutes: int := 60
  const WeightMinutes: int := 5

  /** `diaper_to_event`. */
  function DiaperToEvent(entry: Object, now: Instant): (r: Result<Event>)
    ensures var raw := FirstTruthy([Get(entry, "diaperDate"), Get(entry, "createDate"), Str("")]);
      r.Ok? <==> TimestampOf(raw, now).Ok? && StrippedText(Get(entry, "details")).Ok?
                 && AddMinutes(TimestampOf(raw, now).value, DiaperMinutes).Ok?
    ensures r.Ok? ==> r.value.end == r.value.start + DiaperMinutes * SecondsPerMinute
    ensures r.Ok? ==> r.value.start == TimestampOf(FirstTruthy([Get(entry, "diaperDate"), Get(entry, "createDate"), Str("")]), now).value
    ensures r.Ok? ==> r.value.summary == "Diaper - " + Show(FirstTruthy([Get(entry, "diaperType"), Str("Diaper")]))
    ensures r.Ok? ==> r.value.description == StrippedText(Get(entry, "details")).value
  {
    var raw := FirstTruthy([Get(entry, "diaperDate"), Get(entry, "createDate"), Str("")]);
    var dt :- TimestampOf(raw, now);
    var dtype := FirstTruthy([Get(entry, "diaperType"), Str("Diaper")]);
    var details :- StrippedText(Get(entry, "details"));
    var end :- AddMinutes(dt, DiaperMinutes);
    Ok(Event("Diaper - " + Show(dtype), details, dt, end))
  }

  /** `f"Duration: {d // 60}m {d % 60}s"`, with Python's floor division and modulo
      (which agree with Dafny's for the positive divisor 60); a bool counts as 0 or 1,
      and any other non-number raises TypeError. */
  function DurationText(d: Value): (r: Result<string>)
    ensures r.Ok? <==> d.Int? || d.Bool?
    ensures d.Int? && d.i >= 0 ==> r == Ok("Duration: " + Decimal.NatToString(d.i / 60) + "m "
                                           + Decimal.NatToString(d.i % 60) + "s")
  {
    match d
    case Int(i) => Ok("Duration: " + Decimal.IntToString(i / 60) + "m " + Decimal.IntToString(i % 60) + "s")
    case Bool(b) => Ok("Duration: 0m " + (if b then "1" else "0") + "s")
    case _ => Err("unsupported operand type(s) for //")
  }

  /** The title words of a feeding: method (default "Feeding"), the source when truthy,
      and `"{amount}g"` when the amount is not None. */
  function FeedingParts(entry: Object): (parts: seq<string>)
    ensures 1 <= |parts| <= 3
    ensures parts[0] == Show(FirstTruthy([Get(entry, "method"), Str("Feeding")]))
    ensures |parts| == 1 + (if Truthy(Get(entry, "source")) then 1 else 0) + (if Get(entry, "amount") != Null then 1 else 0)
    ensures Get(entry, "amount") != Null ==> parts[|parts| - 1] == Show(Get(entry, "amount")) + "g"
    ensures Truthy(Get(entry, "source")) ==> parts[1] == Show(Get(entry, "source"))
  {
    var how := FirstTruthy([Get(entry, "method"), Str("Feeding")]);
    var source := Get(entry, "source");
    var amount := Get(entry, "amount");
    [Show(how)]
      + (if Truthy(source) then [Show(source)] else [])
      + (if amount != Null then [Show(amount) + "g"] else [])
  }

  /** The description of a feeding: the duration text when a duration is present. */
  function FeedingDescription(entry: Object): (r: Result<string>)
    ensures Get(entry, "durationInSeconds") == Null ==> r == Ok("")
    ensures Get(entry, "durationInSeconds") != Null ==> r == DurationText(Get(entry, "durationInSeconds"))
  {
    var duration := Get(entry, "durationInSeconds");
    if duration != Null then DurationText(duration) else Ok("")
  }

  /** The end of a feeding: its own `endTime` when truthy, else thirty minutes on. */
  function FeedingEnd(entry: Object, start: Instant, now: Instant): (r: Result<Instant>)
    ensures !Truthy(Get(entry, "endTime")) ==> r == AddMinutes(start, FeedingMinutes)
    ensures Truthy(Get(entry, "endTime")) ==> r == TimestampOf(Get(entry, "endTime"), now)
  {
    var endRaw := Get(entry, "endTime");
    if Truthy(endRaw) then TimestampOf(endRaw, now) else AddMinutes(start, FeedingMinutes)
  }

  /** `feeding_to_event`. */
  function FeedingToEvent(entry: Object, now: Instant): (r: Result<Event>)
    ensures var raw := FirstTruthy([Get(entry, "startTime"), Get(entry, "createDate"), Str("")]);
      r.Ok? <==> TimestampOf(raw, now).Ok? && FeedingDescription(entry).Ok?
                 && FeedingEnd(entry, TimestampOf(raw, now).value, now).Ok?
    ensures var raw := FirstTruthy([Get(entry, "startTime"), Get(entry, "createDate"), Str("")]);
      r.Ok? ==> TimestampOf(raw, now) == Ok(r.value.start)
    ensures r.Ok? ==> r.value.summary == "Feeding - " + Strings.Join(FeedingParts(entry), " ")
    ensures r.Ok? ==> FeedingDescription(entry) == Ok(r.value.description)
    ensures r.Ok? ==> FeedingEnd(entry, r.value.start, now) == Ok(r.value.end)
  {
    var raw := FirstTruthy([Get(entry, "startTime"), Get(entry, "createDate"), Str("")]);
    var dt :- TimestampOf(raw, now);
    var description :- FeedingDescription(entry);
    var end :- FeedingEnd(entry, dt, now);
    Ok(Event("Feeding - " + Strings.Join(FeedingParts(entry), " "), description, dt, end))
  }

  /** The title of a sleep lasting `seconds`: its whole minutes, truncated. */
  function SleepTitle(seconds: int): string
  {
    "Sleep - " + Decimal.IntToString(TruncMinutes(seconds)) + "m"
  }

  /** A sleep's end: its own timestamp when one is given, else an hour after it began. */
  function SleepEnd(rawEnd: Value, start: Instant, now: Instant): (r: Result<Instant>)
    ensures Truthy(rawEnd) ==> r == TimestampOf(rawEnd, now)
    ensures !Truthy(rawEnd) ==> r.Ok? ==> r.value == start + SleepMinutes * SecondsPerMinute
  {
    if Truthy(rawEnd) then TimestampOf(rawEnd, now) else AddMinutes(start, SleepMinutes)
  }

  /** The event of a sleep over `[start, end)`: titled with its length, no description. */
  function SleepEvent(start: Instant, end: Instant): (e: Event)
    ensures e.start == start && e.end == end && e.description == ""
    ensures e.summary == SleepTitle(end - start)
  {
    Event(SleepTitle(end - start), "", start, end)
  }

  /** The first truthy of a sleep's `startTime`, `start` and `createDate`, else "". */
  function SleepStartField(entry: Object): Value
  {
    FirstTruthy([Get(entry, "startTime"), Get(entry, "start"), Get(entry, "createDate"), Str("")])
  }

  /** The first truthy of a sleep's `endTime`, `end` and `updateDate`, else "". */
  function SleepEndField(entry: Object): Value
  {
    FirstTruthy([Get(entry, "endTime"), Get(entry, "end"), Get(entry, "updateDate"), Str("")])
  }

  /** `sleep_to_event`. */
  function SleepToEvent(entry: Object, now: Instant): (r: Result<Event>)
    ensures r.Ok? ==> TimestampOf(SleepStartField(entry), now) == Ok(r.value.start)
    ensures r.Ok? ==> (if Truthy(SleepEndField(entry)) then TimestampOf(SleepEndField(entry), now) == Ok(r.value.end)
                       else r.value.end == r.value.start + SleepMinutes * SecondsPerMinute)
    ensures r.Ok? ==> r.value == SleepEvent(r.value.start, r.value.end)
  {
    var start :- TimestampOf(SleepStartField(entry), now);
    var end :- SleepEnd(SleepEndField(entry), start, now);
    Ok(SleepEvent(start, end))
  }

  /** `weight_to_event`. */
  function WeightToEvent(entry: Object, now: Instant): (r: Result<Event>)
    ensures var raw := FirstTruthy([Get(entry, "createDate"), Get(entry, "weightDate"), Str("")]);
      r.Ok? ==> TimestampOf(raw, now).Ok? && r.value.start == TimestampOf(raw, now).value
    ensures var raw := FirstTruthy([Get(entry, "createDate"), Get(entry, "weightDate"), Str("")]);
      r.Ok? <==> TimestampOf(raw, now).Ok? && AddMinutes(TimestampOf(raw, now).value, WeightMinutes).Ok?
    ensures r.Ok? ==> r.value.end == r.value.start + WeightMinutes * SecondsPerMinute
    ensures var w := Or(Get(entry, "weight"), Get(entry, "weightInGrams"));
      r.Ok? ==> r.value.summary == (if w != Null then "Weight - " + Show(w) + "g" else "Weight")
    ensures r.Ok? ==> r.value.description == ""
  {
    var raw := FirstTruthy([Get(entry, "createDate"), Get(entry, "weightDate"), Str("")]);
    var dt :- TimestampOf(raw, now);
    var w := Or(Get(entry, "weight"), Get(entry, "weightInGrams"));
    var summary := if w != Null then "Weight - " + Show(w) + "g" else "Weight";
    var end :- AddMinutes(dt, WeightMinutes);
    Ok(Event(summary, "", dt, end))
  }

  // ---- the calendar store: calendar list, ACLs, inserted events ----

  /** A calendar-list entry. */
  datatype Calendar = Calendar(id: string, summary: string, description: string)

  /** An ACL rule: `{"scope": {"type": .., "value": ..}, "role": ..}`. */
  datatype AclRule = AclRule(scopeType: string, scopeValue: string, role: string)

  /** An inserted event together with the calendar it went into. */
  datatype Created = Created(calendarId: string, event: Event)

  const CalendarDescription: string := "Hatch Grow sync: diapers, feedings, sleep, weight"

  /** The text an event insert raises with when its request fails. */
  const InsertFailed: string := "HttpError: events.insert"

  /** The per-baby calendar's title: the name, then the fixed suffix; distinct names
      give distinct titles. */
  function Title(babyName: string): (t: string)
    ensures |t| == |babyName| + 15 && t[..|babyName|] == babyName
    ensures t[|babyName|..] == " - Baby Tracker"
  {
    babyName + " - Baby Tracker"
  }

  /** Two babies share a calendar title only when they share a name. */
  lemma TitleInjective(a: string, b: string)
    ensures Title(a) == Title(b) ==> a == b
  {
    if Title(a) == Title(b) {
      assert a == Title(a)[..|a|] == Title(b)[..|b|] == b;
    }
  }

  /** Position of the first calendar titled `title`. */
  function FindCalendar(cals: seq<Calendar>, title: string): (r: Option<nat>)
    ensures r.Some? ==> r.value < |cals| && cals[r.value].summary == title
    ensures r.Some? ==> forall j :: 0 <= j < r.value ==> cals[j].summary != title
    ensures r.None? <==> forall j :: 0 <= j < |cals| ==> cals[j].summary != title
  {
    if cals == [] then None
    else if cals[0].summary == title then Some(0)
    else match FindCalendar(cals[1..], title)
      case None => None
      case Some(k) => Some(k + 1)
  }

  predicate IsUserRule(rule: AclRule, email: string)
  {
    rule.scopeType == "user" && rule.scopeValue == email
  }

  predicate SharedWith(rules: seq<AclRule>, email: string)
  {
    exists i :: 0 <= i < |rules| && IsUserRule(rules[i], email)
  }

  function RulesOf(acl: map<string, seq<AclRule>>, calendarId: string): seq<AclRule>
  {
    if calendarId in acl then acl[calendarId] else []
  }

  function WriterRule(email: string): AclRule
  {
    AclRule("user", email, "writer")
  }

  /** The ACLs after a successful `_ensure_shared(calendarId, email)`. */
  function Shared(acl: map<string, seq<AclRule>>, calendarId: string, email: string): map<string, seq<AclRule>>
  {
    if email == "" || SharedWith(RulesOf(acl, calendarId), email) then acl
    else acl[calendarId := RulesOf(acl, calendarId) + [WriterRule(email)]]
  }

  /** Sharing leaves the calendar shared with the address, touches no other calendar,
      keeps every existing rule, and adds at most one rule (a writer rule). */
  lemma SharedEffect(acl: map<string, seq<AclRule>>, calendarId: string, email: string)
    ensures var after := Shared(acl, calendarId, email);
      && (email != "" ==> SharedWith(RulesOf(after, calendarId), email))
      && (forall id :: id != calendarId ==> RulesOf(after, id) == RulesOf(acl, id))
      && RulesOf(after, calendarId)[..|RulesOf(acl, calendarId)|] == RulesOf(acl, calendarId)
      && |RulesOf(after, calendarId)| <= |RulesOf(acl, calendarId)| + 1
      && (|RulesOf(after, calendarId)| > |RulesOf(acl, calendarId)| ==>
            RulesOf(after, calendarId)[|RulesOf(acl, calendarId)|] == WriterRule(email))
  {
    var after := Shared(acl, calendarId, email);
    if email != "" && !SharedWith(RulesOf(acl, calendarId), email) {
      var rules := RulesOf(after, calendarId);
      assert IsUserRule(rules[|rules| - 1], email);
    }
  }

  /** Sharing twice is sharing once. */
  lemma SharedIdempotent(acl: map<string, seq<AclRule>>, calendarId: string, email: string)
    ensures Shared(Shared(acl, calendarId, email), calendarId, email) == Shared(acl, calendarId, email)
  {
    SharedEffect(acl, calendarId, email);
  }

  /** The exception `_ensure_shared` raises when its requests start at number `n`, if
      any: none for an empty address; the ACL listing fails; or, when no user rule for
      the address is listed, the insert of the writer rule fails. */
  function ShareError(acl: map<string, seq<AclRule>>, calendarId: string, email: string,
                      n: nat, fails: nat -> bool): (e: Option<string>)
    ensures e.Some? ==> email != "" && (fails(n) || (!SharedWith(RulesOf(acl, calendarId), email) && fails(n + 1)))
    ensures email == "" || !(fails(n) || (!SharedWith(RulesOf(acl, calendarId), email) && fails(n + 1))) ==> e.None?
  {
    if email == "" then None
    else if fails(n) then Some("HttpError: acl.list")
    else if SharedWith(RulesOf(acl, calendarId), email) then None
    else if fails(n + 1) then Some("HttpError: acl.insert")
    else None
  }

  /** The number of requests `_ensure_shared` makes. */
  function ShareRequests(acl: map<string, seq<AclRule>>, calendarId: string, email: string,
                         n: nat, fails: nat -> bool): nat
  {
    if email == "" then 0
    else if fails(n) || SharedWith(RulesOf(acl, calendarId), email) then 1
    else 2
  }

  /** The exception `get_or_create_baby_calendar` raises when its requests start at
      number `n`, if any: the calendar listing fails; or, for a listed calendar with the
      title, its sharing fails; or, when none has it, the insert fails or the sharing of
      the new calendar (id `assignedIds(n + 1)`) fails. */
  function LookupError(calendars: seq<Calendar>, acl: map<string, seq<AclRule>>, babyName: string, email: string,
                       n: nat, fails: nat -> bool, assignedIds: nat -> string): (e: Option<string>)
    ensures fails(n) ==> e.Some?
    ensures !fails(n) && FindCalendar(calendars, Title(babyName)).Some? ==>
      e == ShareError(acl, calendars[FindCalendar(calendars, Title(babyName)).value].id, email, n + 1, fails)
    ensures !fails(n) && FindCalendar(calendars, Title(babyName)).None? ==>
      (e.Some? <==> fails(n + 1) || ShareError(acl, assignedIds(n + 1), email, n + 2, fails).Some?)
  {
    if fails(n) then Some("HttpError: calendarList.list")
    else match FindCalendar(calendars, Title(babyName))
      case Some(i) => ShareError(acl, calendars[i].id, email, n + 1, fails)
      case None =>
        if fails(n + 1) then Some("HttpError: calendars.insert")
        else ShareError(acl, assignedIds(n + 1), email, n + 2, fails)
  }

  /** The Google Calendar API as the sync sees it. Each request (`.execute()`) is
      numbered; `fails(n)` says whether request `n` raises, and `assignedIds(n)` is the
      id the API gives a calendar created by request `n`. `origins` records, for each
      inserted event, which sync record it was made for. */
  class CalendarService {
    var calendars: seq<Calendar>
    var acl: map<string, seq<AclRule>>
    var events: seq<Created>
    ghost var origins: seq<(string, Value)>
    var requests: nat
    const fails: nat -> bool
    const assignedIds: nat -> string

    ghost predicate Valid()
      reads this
    {
      |origins| == |events|
    }

    constructor(calendars0: seq<Calendar>, acl0: map<string, seq<AclRule>>,
                fails: nat -> bool, assignedIds: nat -> string)
      ensures Valid()
      ensures calendars == calendars0 && acl == acl0 && events == [] && origins == [] && requests == 0
      ensures this.fails == fails && this.assignedIds == assignedIds
    {
      calendars, acl, events, origins, requests := calendars0, acl0, [], [], 0;
      this.fails, this.assignedIds := fails, assignedIds;
    }

    /** One API request: it raises when the oracle says so. */
    method Request() returns (ok: bool)
      modifies this
      ensures ok == !fails(old(requests)) && requests == old(requests) + 1
      ensures calendars == old(calendars) && acl == old(acl) && events == old(events) && origins == old(origins)
    {
      ok := !fails(requests);
      requests := requests + 1;
    }

    /** `_ensure_shared`: nothing for an empty address; otherwise list the ACL and insert
        a writer rule unless a user rule for the address is already there. */
    method EnsureShared(calendarId: string, email: string) returns (r: Result<()>)
      modifies this
      ensures calendars == old(calendars) && events == old(events) && origins == old(origins)
      ensures email == "" ==> r.Ok? && requests == old(requests)
      ensures r.Ok? ==> acl == Shared(old(acl), calendarId, email)
      ensures r.Err? ==> acl == old(acl)
      ensures r == (match ShareError(old(acl), calendarId, email, old(requests), fails)
                    case None => Ok(()) case Some(e) => Err(e))
      ensures requests == old(requests) + ShareRequests(old(acl), calendarId, email, old(requests), fails)
      ensures old(requests) <= requests <= old(requests) + 2
    {
      if email == "" {
        return Ok(());
      }
      var listed := Request();
      if !listed {
        return Err("HttpError: acl.list");
      }
      var rules := RulesOf(acl, calendarId);
      var i := 0;
      while i < |rules|
        invariant 0 <= i <= |rules|
        invariant forall j :: 0 <= j < i ==> !IsUserRule(rules[j], email)
      {
        if IsUserRule(rules[i], email) {
          return Ok(());
        }
        i := i + 1;
      }
      var inserted := Request();
      if !inserted {
        return Err("HttpError: acl.insert");
      }
      acl := acl[calendarId := rules + [WriterRule(email)]];
      r := Ok(());
    }

    /** `get_or_create_baby_calendar`: the first listed calendar titled
        `"{name} - Baby Tracker"`, else a newly created one; shared either way. */
    method GetOrCreateBabyCalendar(babyName: string, email: string) returns (r: Result<string>)
      modifies this
      ensures events == old(events) && origins == old(origins)
      ensures |old(calendars)| <= |calendars| <= |old(calendars)| + 1 && calendars[..|old(calendars)|] == old(calendars)
      ensures |calendars| > |old(calendars)| ==>
        FindCalendar(old(calendars), Title(babyName)).None? &&
        calendars[|old(calendars)|].summary == Title(babyName) &&
        calendars[|old(calendars)|].description == CalendarDescription
      ensures r.Ok? ==> match FindCalendar(old(calendars), Title(babyName))
        case Some(i) => r.value == old(calendars)[i].id && calendars == old(calendars)
        case None => calendars == old(calendars) + [Calendar(r.value, Title(babyName), CalendarDescription)]
      ensures r.Ok? ==> acl == Shared(old(acl), r.value, email)
      ensures r.Err? ==> acl == old(acl)
      ensures var e := LookupError(old(calendars), old(acl), babyName, email, old(requests), fails, assignedIds);
        (r.Err? <==> e.Some?) && (r.Err? ==> r.msg == e.value)
      ensures |calendars| > |old(calendars)| <==>
        !fails(old(requests)) && FindCalendar(old(calendars), Title(babyName)).None? && !fails(old(requests) + 1)
      ensures |calendars| > |old(calendars)| ==> calendars[|old(calendars)|].id == assignedIds(old(requests) + 1)
    {
      var title := Title(babyName);
      var listed := Request();
      if !listed {
        return Err("HttpError: calendarList.list");
      }
      var i := 0;
      while i < |calendars|
        invariant 0 <= i <= |calendars| && calendars == old(calendars) && acl == old(acl)
        invariant events == old(events) && origins == old(origins)
        invariant forall j :: 0 <= j < i ==> calendars[j].summary != title
      {
        if calendars[i].summary == title {
          var id := calendars[i].id;
          var shared := EnsureShared(id, email);
          if shared.Err? {
            return Err(shared.msg);
          }
          return Ok(id);
        }
        i := i + 1;
      }
      var id := assignedIds(requests);
      var inserted := Request();
      if !inserted {
        return Err("HttpError: calendars.insert");
      }
      calendars := calendars + [Calendar(id, title, CalendarDescription)];
      var shared := EnsureShared(id, email);
      if shared.Err? {
        return Err(shared.msg);
      }
      r := Ok(id);
    }

    /** `create_event`: one insert request; on success the event is in the calendar. */
    method CreateEvent(calendarId: string, ev: Event, ghost origin: (string, Value)) returns (r: Result<Event>)
      requires Valid()
      modifies this
      ensures Valid()
      ensures calendars == old(calendars) && acl == old(acl) && requests == old(requests) + 1
      ensures r.Ok? <==> !fails(old(requests))
      ensures r.Err? ==> r.msg == InsertFailed
      ensures r.Ok? ==> r.value == ev && events == old(events) + [Created(calendarId, ev)]
                        && origins == old(origins) + [origin]
      ensures r.Err? ==> events == old(events) && origins == old(origins)
    {
      var ok := Request();
      if !ok {
        return Err(InsertFailed);
      }
      events := events + [Created(calendarId, ev)];
      origins := origins + [origin];
      r := Ok(ev);
    }
  }
}
