/** The sample Grow data served for dashboard work: one baby and fourteen days of
    feedings, diapers, sleeps and weights, dated relative to the current day. */
module Seed {
  import opened Wrappers
  import opened Time

  const BabyId: int := 1
  const Days: int := 14
  const FeedingHours: seq<int> := [7, 11, 15, 19, 22, 2]
  const DiaperTypes: seq<string> := ["Wet", "Wet", "Dirty", "Both", "Wet", "Dirty"]
  const NapHours: seq<int> := [9, 13, 17]
  /** Nap lengths in minutes (1, 1.5 and 0.75 hours). */
  const NapMinutes: seq<int> := [60, 90, 45]

  datatype Baby = Baby(id: int, name: string, birthDate: string)
  datatype Feeding = Feeding(id: int, babyId: int, start: Instant, end: Instant, amount: int,
                             durationInSeconds: int, how: string, source: string)
  datatype Diaper = Diaper(id: int, babyId: int, at: Instant, diaperType: string, details: string)
  datatype Sleep = Sleep(id: int, babyId: int, start: Instant, end: Instant)
  datatype Weight = Weight(id: int, babyId: int, weight: int, at: Instant)
  datatype SeedData = SeedData(babies: seq<Baby>, feedings: seq<Feeding>, diapers: seq<Diaper>,
                               sleeps: seq<Sleep>, weights: seq<Weight>)

  /** Midnight of the day of `now`. */
  function Midnight(now: Instant): (base: Instant)
    requires ValidInstant(now)
    ensures base % SecondsPerDay == 0 && base <= now < base + SecondsPerDay
  {
    now - now % SecondsPerDay
  }

  /** `_days_ago(days, hour, minute)` from midnight `base`. */
  function DaysAgo(base: Instant, days: int, hour: int, minute: int): Instant
  {
    base - days * SecondsPerDay + hour * SecondsPerHour + minute * SecondsPerMinute
  }

  // ---- what each generated record is ----

  function FeedingDuration(hour: int): int { if hour in {7, 19, 22} then 20 else 15 }

  /** The `k`-th feeding: day `k / 6`, at the `k % 6`-th feeding hour. */
  function SeedFeeding(base: Instant, k: nat): Feeding
    requires k < 6 * Days
  {
    var hour := FeedingHours[k % 6];
    var start := DaysAgo(base, k / 6, hour, 0);
    var minutes := FeedingDuration(hour);
    var how := if hour in {11, 15} then "Bottle" else "Nursing";
    var source := if how == "Nursing" then "Both" else if hour in {7, 19, 22} then "Breastmilk" else "Formula";
    Feeding(k + 1, BabyId, start, start + minutes * SecondsPerMinute, if hour in {7, 19} then 90 else 70,
            minutes * 60, how, source)
  }

  /** Feedings are numbered from 1; the morning, evening and late ones last 20 minutes
      and the others 15; the 07:00 and 19:00 ones are 90 ml and the others 70; the
      11:00 and 15:00 ones are formula bottles and the rest nursing on both sides. */
  lemma SeedFeedingFacts(base: Instant, k: nat)
    requires k < 6 * Days
    ensures var f := SeedFeeding(base, k); var hour := FeedingHours[k % 6];
      && f.id == k + 1 && f.babyId == BabyId
      && f.start == DaysAgo(base, k / 6, hour, 0)
      && f.durationInSeconds == (if hour in {7, 19, 22} then 20 * 60 else 15 * 60)
      && f.end == f.start + f.durationInSeconds
      && f.amount == (if hour in {7, 19} then 90 else 70)
      && (f.how == "Bottle" <==> hour in {11, 15})
      && (f.how == "Bottle" ==> f.source == "Formula")
      && (f.how != "Bottle" ==> f.how == "Nursing" && f.source == "Both")
  {
    assert "Nursing" != "Bottle";
  }

  /** The `k`-th diaper: day `k / 6`, three hours after the previous one from 06:00. */
  function SeedDiaper(base: Instant, k: nat): Diaper
    requires k < 6 * Days
  {
    var dtype := DiaperTypes[k % 6];
    Diaper(k + 1, BabyId, DaysAgo(base, k / 6, 6 + (k % 6) * 3, 0), dtype, if dtype != "Dirty" then "" else "Messy")
  }

  /** Diapers are numbered from 1, changed every three hours from 06:00 to 21:00, each
      wet, dirty or both, and only the dirty ones are described as messy. */
  lemma SeedDiaperFacts(base: Instant, k: nat)
    requires k < 6 * Days
    ensures var d := SeedDiaper(base, k);
      && d.id == k + 1 && d.babyId == BabyId
      && d.at - DaysAgo(base, k / 6, 0, 0) in {6 * SecondsPerHour, 9 * SecondsPerHour, 12 * SecondsPerHour,
                                               15 * SecondsPerHour, 18 * SecondsPerHour, 21 * SecondsPerHour}
      && d.diaperType in {"Wet", "Dirty", "Both"}
      && (d.details == "Messy" <==> d.diaperType == "Dirty")
      && (d.details != "Messy" ==> d.details == "")
  {
    assert "" != "Messy";
  }

  /** The `k`-th sleep: per day, the night ending that morning, then three naps. */
  function SeedSleep(base: Instant, k: nat): (s: Sleep)
    requires k < 4 * Days
    ensures s.id == k + 1 && s.babyId == BabyId
    ensures k % 4 == 0 ==> s.start == DaysAgo(base, k / 4 + 1, 20, 0) && s.end - s.start == 10 * SecondsPerHour
    ensures k % 4 != 0 ==> s.end - s.start in {60 * SecondsPerMinute, 90 * SecondsPerMinute, 45 * SecondsPerMinute}
    ensures s.start < s.end
  {
    var day := k / 4;
    if k % 4 == 0 then Sleep(k + 1, BabyId, DaysAgo(base, day + 1, 20, 0), DaysAgo(base, day, 6, 0))
    else
      var start := DaysAgo(base, day, NapHours[k % 4 - 1], 0);
      Sleep(k + 1, BabyId, start, start + NapMinutes[k % 4 - 1] * SecondsPerMinute)
  }

  /** The `j`-th weight: measured at 10:00 every third day. */
  function SeedWeight(base: Instant, j: nat): (w: Weight)
    ensures w.id == j + 1 && w.babyId == BabyId
    ensures w.at == DaysAgo(base, 3 * j, 10, 0)
    ensures w.weight == 3200 + (20 - 3 * j) * 30
  {
    Weight(j + 1, BabyId, 3200 + (20 - 3 * j) * 30, DaysAgo(base, 3 * j, 10, 0))
  }

  /** Lists that hold, in order, the first generated records of their kind. */
  predicate FeedingsSoFar(base: Instant, fs: seq<Feeding>)
  {
    |fs| <= 6 * Days && forall k :: 0 <= k < |fs| ==> fs[k] == SeedFeeding(base, k)
  }

  predicate DiapersSoFar(base: Instant, ds: seq<Diaper>)
  {
    |ds| <= 6 * Days && forall k :: 0 <= k < |ds| ==> ds[k] == SeedDiaper(base, k)
  }

  predicate SleepsSoFar(base: Instant, ss: seq<Sleep>)
  {
    |ss| <= 4 * Days && forall k :: 0 <= k < |ss| ==> ss[k] == SeedSleep(base, k)
  }

  predicate WeightsSoFar(base: Instant, ws: seq<Weight>)
  {
    forall j :: 0 <= j < |ws| ==> ws[j] == SeedWeight(base, j)
  }

  /** Appending the next generated record keeps a list's prefix property. */
  lemma FeedingsExtend(base: Instant, fs: seq<Feeding>, f: Feeding)
    requires FeedingsSoFar(base, fs) && |fs| < 6 * Days && f == SeedFeeding(base, |fs|)
    ensures FeedingsSoFar(base, fs + [f])
  {
    var gs := fs + [f];
    forall k | 0 <= k < |gs| ensures gs[k] == SeedFeeding(base, k) {
      if k < |fs| { assert gs[k] == fs[k]; } else { assert k == |fs| && gs[k] == f; }
    }
  }

  lemma DiapersExtend(base: Instant, ds: seq<Diaper>, d: Diaper)
    requires DiapersSoFar(base, ds) && |ds| < 6 * Days && d == SeedDiaper(base, |ds|)
    ensures DiapersSoFar(base, ds + [d])
  {
    var es := ds + [d];
    forall k | 0 <= k < |es| ensures es[k] == SeedDiaper(base, k) {
      if k < |ds| { assert es[k] == ds[k]; } else { assert k == |ds| && es[k] == d; }
    }
  }

  lemma SleepsExtend(base: Instant, ss: seq<Sleep>, z: Sleep)
    requires SleepsSoFar(base, ss) && |ss| < 4 * Days && z == SeedSleep(base, |ss|)
    ensures SleepsSoFar(base, ss + [z])
  {
    var ts := ss + [z];
    forall k | 0 <= k < |ts| ensures ts[k] == SeedSleep(base, k) {
      if k < |ss| { assert ts[k] == ss[k]; } else { assert k == |ss| && ts[k] == z; }
    }
  }

  // ---- the generator ----

  /** `get_seed_grow_data`. It raises OverflowError (the birth date, twenty days back,
      is the earliest datetime it computes) when that date is before 0001-01-01. */
  method GetSeedGrowData(now: Instant) returns (r: Result<SeedData>)
    requires ValidInstant(now)
    ensures r.Err? <==> Midnight(now) < 20 * SecondsPerDay
    ensures r.Ok? ==> var d := r.value; var base := Midnight(now);
      && d.babies == [Baby(BabyId, "Uma", FormatDate(ToDateTime(DaysAgo(base, 20, 0, 0))))]
      && |d.feedings| == 6 * Days && FeedingsSoFar(base, d.feedings)
      && |d.diapers| == 6 * Days && DiapersSoFar(base, d.diapers)
      && |d.sleeps| == 4 * Days && SleepsSoFar(base, d.sleeps)
      && |d.weights| == 5 && WeightsSoFar(base, d.weights)
  {
    var base := Midnight(now);
    if base < 20 * SecondsPerDay {
      return Err("OverflowError: date value out of range");
    }
    var babies := [Baby(BabyId, "Uma", FormatDate(ToDateTime(DaysAgo(base, 20, 0, 0))))];
    var feedings: seq<Feeding> := [];
    var diapers: seq<Diaper> := [];
    var sleeps: seq<Sleep> := [];
    var weights: seq<Weight> := [];
    var feedingId, diaperId, sleepId, weightId := 1, 1, 1, 1;
    for day := 0 to Days
      invariant |feedings| == 6 * day && feedingId == |feedings| + 1 && FeedingsSoFar(base, feedings)
      invariant |diapers| == 6 * day && diaperId == |diapers| + 1 && DiapersSoFar(base, diapers)
      invariant |sleeps| == 4 * day && sleepId == |sleeps| + 1 && SleepsSoFar(base, sleeps)
      invariant 3 * |weights| - 2 <= day <= 3 * |weights| && weightId == |weights| + 1 && WeightsSoFar(base, weights)
    {
      feedings, feedingId := AppendFeedings(base, day, feedings, feedingId);
      diapers, diaperId := AppendDiapers(base, day, diapers, diaperId);
      sleeps, sleepId := AppendSleeps(base, day, sleeps, sleepId);
      WeighDay(day, |weights|);
      if day % 3 == 0 {
        weights, weightId := AppendWeight(base, day, weights, weightId);
      }
    }
    r := Ok(SeedData(babies, feedings, diapers, sleeps, weights));
  }

  /** Record `per * day + j` of a list with `per` records a day is the `j`-th of day
      `day`. */
  lemma Slot(n: int, per: int, day: int, j: int)
    requires per == 4 || per == 6
    requires 0 <= day && 0 <= j < per && n == per * day + j
    ensures n / per == day && n % per == j
  {
    if per == 4 {
      assert n == 4 * day + j;
    } else {
      assert n == 6 * day + j;
    }
  }

  /** The six feedings of day `day`, each taking the next id. */
  method AppendFeedings(base: Instant, day: int, feedings0: seq<Feeding>, id0: int)
    returns (feedings: seq<Feeding>, id: int)
    requires 0 <= day < Days && |feedings0| == 6 * day && id0 == |feedings0| + 1 && FeedingsSoFar(base, feedings0)
    ensures |feedings| == 6 * (day + 1) && id == |feedings| + 1 && FeedingsSoFar(base, feedings)
  {
    feedings, id := feedings0, id0;
    for j := 0 to 6
      invariant |feedings| == 6 * day + j && id == |feedings| + 1
      invariant FeedingsSoFar(base, feedings)
    {
      var hour := FeedingHours[j];
      var start := DaysAgo(base, day, hour, 0);
      var durationMin := if hour in {7, 19, 22} then 20 else 15;
      var end := start + durationMin * SecondsPerMinute;
      var amount := if hour in {7, 19} then 90 else 70;
      var how := if hour in {11, 15} then "Bottle" else "Nursing";
      var source := if how == "Nursing" then "Both" else if hour in {7, 19, 22} then "Breastmilk" else "Formula";
      var f := Feeding(id, BabyId, start, end, amount, durationMin * 60, how, source);
      assert f == SeedFeeding(base, |feedings|) by {
        Slot(|feedings|, 6, day, j);
      }
      FeedingsExtend(base, feedings, f);
      feedings := feedings + [f];
      id := id + 1;
    }
  }

  /** The six diapers of day `day`, each taking the next id. */
  method AppendDiapers(base: Instant, day: int, diapers0: seq<Diaper>, id0: int)
    returns (diapers: seq<Diaper>, id: int)
    requires 0 <= day < Days && |diapers0| == 6 * day && id0 == |diapers0| + 1 && DiapersSoFar(base, diapers0)
    ensures |diapers| == 6 * (day + 1) && id == |diapers| + 1 && DiapersSoFar(base, diapers)
  {
    diapers, id := diapers0, id0;
    for i := 0 to 6
      invariant |diapers| == 6 * day + i && id == |diapers| + 1
      invariant DiapersSoFar(base, diapers)
    {
      var dtype := DiaperTypes[i];
      var t := DaysAgo(base, day, 6 + i * 3, 0);
      var d := Diaper(id, BabyId, t, dtype, if dtype != "Dirty" then "" else "Messy");
      assert d == SeedDiaper(base, |diapers|) by {
        Slot(|diapers|, 6, day, i);
      }
      DiapersExtend(base, diapers, d);
      diapers := diapers + [d];
      id := id + 1;
    }
  }

  /** The night sleep and three naps of day `day`, each taking the next id. */
  method AppendSleeps(base: Instant, day: int, sleeps0: seq<Sleep>, id0: int)
    returns (sleeps: seq<Sleep>, id: int)
    requires 0 <= day < Days && |sleeps0| == 4 * day && id0 == |sleeps0| + 1 && SleepsSoFar(base, sleeps0)
    ensures |sleeps| == 4 * (day + 1) && id == |sleeps| + 1 && SleepsSoFar(base, sleeps)
  {
    var nightStart := DaysAgo(base, day + 1, 20, 0);
    var nightEnd := DaysAgo(base, day, 6, 0);
    var night := Sleep(id0, BabyId, nightStart, nightEnd);
    assert night == SeedSleep(base, |sleeps0|) by {
      Slot(|sleeps0|, 4, day, 0);
    }
    SleepsExtend(base, sleeps0, night);
    sleeps := sleeps0 + [night];
    id := id0 + 1;
    for n := 0 to 3
      invariant |sleeps| == 4 * day + 1 + n && id == |sleeps| + 1
      invariant SleepsSoFar(base, sleeps)
    {
      var start := DaysAgo(base, day, NapHours[n], 0);
      var end := start + NapMinutes[n] * SecondsPerMinute;
      var nap := Sleep(id, BabyId, start, end);
      assert nap == SeedSleep(base, |sleeps|) by {
        Slot(|sleeps|, 4, day, n + 1);
      }
      SleepsExtend(base, sleeps, nap);
      sleeps := sleeps + [nap];
      id := id + 1;
    }
  }

  /** With `n` weights taken before day `day`, that day is a weighing day exactly when
      it is the `n`-th one, day `3 * n`. */
  lemma WeighDay(day: int, n: int)
    requires 3 * n - 2 <= day <= 3 * n
    ensures day % 3 == 0 <==> day == 3 * n
    ensures day % 3 != 0 ==> 3 * n - 2 <= day + 1 <= 3 * n
  {
  }

  /** The weight of day `day`, one every third day, taking the next id. */
  method AppendWeight(base: Instant, day: int, weights0: seq<Weight>, id0: int)
    returns (weights: seq<Weight>, id: int)
    requires day == 3 * |weights0| && id0 == |weights0| + 1 && WeightsSoFar(base, weights0)
    ensures |weights| == |weights0| + 1 && id == |weights| + 1 && WeightsSoFar(base, weights)
  {
    var measuredAt := DaysAgo(base, day, 10, 0);
    weights := weights0 + [Weight(id0, BabyId, 3200 + (20 - day) * 30, measuredAt)];
    id := id0 + 1;
  }

  // ---- the generated lists ----

  /** Weights are taken every third day at 10:00, from today back, and each is heavier
      than every earlier one: about 30 g a day from 3.2 kg twenty days ago. */
  lemma {:induction false} WeightsGrow(base: Instant, i: nat, j: nat)
    requires i < j < 5
    ensures SeedWeight(base, j).at < SeedWeight(base, i).at
    ensures SeedWeight(base, j).weight < SeedWeight(base, i).weight
    ensures SeedWeight(base, i).weight - SeedWeight(base, j).weight
         == 30 * ((SeedWeight(base, i).at - SeedWeight(base, j).at) / SecondsPerDay)
  {
    var wi, wj := SeedWeight(base, i), SeedWeight(base, j);
    assert wi.at - wj.at == (3 * j - 3 * i) * SecondsPerDay;
  }
}
