/** The summary of the selected period that the coach prompt is built from
    (`Context.getFilteredData`, js/services/context.js). */
module ContextService {
  import opened Wrappers
  import opened Database
  import opened Lists
  import AnalyticsScreen
  import AppLogic

  /** The range in days: the analytics screen's, or 1 when it is 0. */
  function RangeOf(current: int): (r: int)
    ensures r != 0
    ensures current != 0 ==> r == current
    ensures current == 0 ==> r == 1
  {
    if current != 0 then current else 1
  }

  /** A timestamp whose day lies in the `range` days ending today. */
  predicate InWindow(ts: Timestamp, today: Day, range: int) {
    today - (range - 1) <= DayOf(ts) <= today
  }

  /** The entries of the period, chosen by timestamp, in ledger order. */
  function Windowed(meals: seq<Meal>, today: Day, range: int): seq<Meal> {
    Filter(meals, (m: Meal) => InWindow(m.entry.timestamp, today, range))
  }

  /** An entry is in the period exactly when its timestamp's day is in the
      window, whatever its `dateKey` says; each is kept as often as it occurs. */
  lemma WindowedSpec(meals: seq<Meal>, today: Day, range: int, m: Meal)
    ensures m in Windowed(meals, today, range) <==> m in meals && InWindow(m.entry.timestamp, today, range)
    ensures multiset(Windowed(meals, today, range))[m] ==
            if InWindow(m.entry.timestamp, today, range) then multiset(meals)[m] else 0
  {
    FilterCount(meals, (m: Meal) => InWindow(m.entry.timestamp, today, range), m);
  }

  // ---------------------------------------------------------------------
  // Totals
  // ---------------------------------------------------------------------

  datatype PeriodTotals = PeriodTotals(
    intake: real, burned: real, p: real, c: real, f: real, sodium: real, sugar: real, foodCount: nat)

  const NoTotals := PeriodTotals(0.0, 0.0, 0.0, 0.0, 0.0, 0.0, 0.0, 0)

  /** One step of the totals loop: exercise only adds to `burned`; any
      other entry is counted as food and adds its calories, macros and, when
      present, micros. */
  function AddEntry(t: PeriodTotals, m: Meal): PeriodTotals {
    if m.entry.kind == Exercise then t.(burned := t.burned + m.entry.cals)
    else
      var e := m.entry;
      t.(foodCount := t.foodCount + 1, intake := t.intake + e.cals,
         p := t.p + e.macros.p, c := t.c + e.macros.c, f := t.f + e.macros.f,
         sodium := if e.micros.Some? then t.sodium + e.micros.value.sodium else t.sodium,
         sugar := if e.micros.Some? then t.sugar + e.micros.value.sugar else t.sugar)
  }

  function TotalsOf(ms: seq<Meal>): PeriodTotals {
    if ms == [] then NoTotals else AddEntry(TotalsOf(ms[..|ms| - 1]), ms[|ms| - 1])
  }

  /** The coach's period totals carry the dashboard's sums: over the same
      entries, intake, burned and macros are those of the daily totals of
      `refreshUI`, so the additivity proved there holds here too. */
  lemma {:induction false} AgreesWithDashboard(ms: seq<Meal>)
    ensures var t := TotalsOf(ms);
            AppLogic.Totals(t.intake, t.burned, t.p, t.c, t.f) == AppLogic.TotalsOf(ms)
  {
    if ms != [] {
      AgreesWithDashboard(ms[..|ms| - 1]);
    }
  }

  /** `foodCount` counts exactly the entries that are not exercise. */
  lemma {:induction false} FoodCountSpec(ms: seq<Meal>)
    ensures TotalsOf(ms).foodCount == |Filter(ms, (m: Meal) => m.entry.kind != Exercise)|
    ensures TotalsOf(ms).foodCount == 0 <==> forall i :: 0 <= i < |ms| ==> ms[i].entry.kind == Exercise
  {
    if ms != [] {
      var init := ms[..|ms| - 1];
      FoodCountSpec(init);
      assert forall i :: 0 <= i < |init| ==> init[i] == ms[i];
    }
  }

  /** The `forEach` over the period's entries. */
  method PeriodTotalsLoop(ms: seq<Meal>) returns (t: PeriodTotals)
    ensures t == TotalsOf(ms)
  {
    t := NoTotals;
    var i := 0;
    while i < |ms|
      invariant 0 <= i <= |ms|
      invariant t == TotalsOf(ms[..i])
    {
      assert ms[..i + 1][..i] == ms[..i];
      var m := ms[i];
      if m.entry.kind == Exercise {
        t := t.(burned := t.burned + m.entry.cals);
      } else {
        t := t.(foodCount := t.foodCount + 1);
        t := t.(intake := t.intake + m.entry.cals);
        t := t.(p := t.p + m.entry.macros.p, c := t.c + m.entry.macros.c, f := t.f + m.entry.macros.f);
        if m.entry.micros.Some? {
          t := t.(sodium := t.sodium + m.entry.micros.value.sodium, sugar := t.sugar + m.entry.micros.value.sugar);
        }
      }
      i := i + 1;
    }
    assert ms[..|ms|] == ms;
  }

  // ---------------------------------------------------------------------
  // Water
  // ---------------------------------------------------------------------

  /** The water of the first `n` days counting back from today, over the
      days that have stats. */
  function WaterTotal(stats: map<Day, DayStat>, today: Day, n: int): real
    decreases if n > 0 then n else 0
  {
    if n <= 0 then 0.0
    else WaterTotal(stats, today, n - 1) + (if today - (n - 1) in stats then stats[today - (n - 1)].water else 0.0)
  }

  /** Only the days of the window count: two stats maps that agree there
      give the same total. */
  lemma {:induction false} WaterTotalWindow(s1: map<Day, DayStat>, s2: map<Day, DayStat>, today: Day, n: int)
    requires forall d :: today - (n - 1) <= d <= today ==> (d in s1 <==> d in s2)
    requires forall d :: today - (n - 1) <= d <= today && d in s1 ==> s1[d].water == s2[d].water
    ensures WaterTotal(s1, today, n) == WaterTotal(s2, today, n)
    decreases if n > 0 then n else 0
  {
    if n > 0 {
      WaterTotalWindow(s1, s2, today, n - 1);
    }
  }

  /** The water loop over the range's day keys. */
  method WaterLoop(stats: map<Day, DayStat>, today: Day, range: int) returns (w: real)
    ensures w == WaterTotal(stats, today, range)
  {
    w := 0.0;
    var i := 0;
    while i < range
      invariant range > 0 ==> 0 <= i <= range
      invariant range <= 0 ==> i == 0
      invariant w == WaterTotal(stats, today, i)
    {
      var d := today - i;
      if d in stats {
        w := w + stats[d].water;
      }
      i := i + 1;
    }
  }

  // ---------------------------------------------------------------------
  // Averages and targets
  // ---------------------------------------------------------------------

  /** A per-day average: rounded over a range above one day, the raw total otherwise. */
  function Average(total: real, range: int): (r: real)
    ensures range <= 1 ==> r == total
    ensures range > 1 ==> total / range as real - 0.5 < r <= total / range as real + 0.5
  {
    if range > 1 then Round(total / range as real) as real else total
  }

  /** The sum of (score or 5) over the entries typed as food. */
  function FoodScoreSum(ms: seq<Meal>): real {
    if ms == [] then 0.0
    else FoodScoreSum(ms[..|ms| - 1]) +
         (if ms[|ms| - 1].entry.kind == Food then NumOr(ms[|ms| - 1].entry.score, 5.0) else 0.0)
  }

  /** The period score; None is the 'N/A' shown when nothing counted as food. */
  function Score(ms: seq<Meal>, foodCount: nat): (r: Option<real>)
    ensures r.None? <==> foodCount == 0
  {
    if foodCount > 0 then Some(FoodScoreSum(ms) / foodCount as real) else None
  }

  /** Without untyped entries the food scores and the food count cover the
      same entries, so the score stays within bounds every food entry's
      (score or 5) keeps. */
  lemma {:induction false} ScoreSumBounds(ms: seq<Meal>, lo: real, hi: real)
    requires forall i :: 0 <= i < |ms| ==> ms[i].entry.kind != Untyped
    requires forall i :: 0 <= i < |ms| && ms[i].entry.kind == Food ==> lo <= NumOr(ms[i].entry.score, 5.0) <= hi
    ensures AnalyticsScreen.Scale(TotalsOf(ms).foodCount, lo) <= FoodScoreSum(ms) <=
            AnalyticsScreen.Scale(TotalsOf(ms).foodCount, hi)
  {
    if ms != [] {
      var init := ms[..|ms| - 1];
      assert forall i :: 0 <= i < |init| ==> init[i] == ms[i];
      ScoreSumBounds(init, lo, hi);
      AnalyticsScreen.ScaleSucc(TotalsOf(init).foodCount, lo);
      AnalyticsScreen.ScaleSucc(TotalsOf(init).foodCount, hi);
    }
  }

  lemma ScoreBounds(ms: seq<Meal>, lo: real, hi: real)
    requires forall i :: 0 <= i < |ms| ==> ms[i].entry.kind != Untyped
    requires forall i :: 0 <= i < |ms| && ms[i].entry.kind == Food ==> lo <= NumOr(ms[i].entry.score, 5.0) <= hi
    ensures var s := Score(ms, TotalsOf(ms).foodCount); s.Some? ==> lo <= s.value <= hi
  {
    var n := TotalsOf(ms).foodCount;
    if n > 0 {
      ScoreSumBounds(ms, lo, hi);
      AnalyticsScreen.MeanBounds(FoodScoreSum(ms), n, lo, hi);
    }
  }

  /** The object `getFilteredData` returns, without the period label. */
  datatype Summary = Summary(
    range: int,
    totals: PeriodTotals,
    water: real,
    avgCals: real,
    avgWater: real,
    score: Option<real>,
    targetCals: real,
    targetWater: real,
    meals: seq<Meal>)

  /** `getFilteredData` at time `now`, reading the analytics screen's range. */
  method GetFilteredData(screen: AnalyticsScreen.Analytics, db: Ledger, now: Timestamp) returns (s: Summary)
    ensures s.range == RangeOf(screen.currentRange)
    ensures s.meals == Windowed(db.GetMeals(), DayOf(now), s.range)
    ensures s.totals == TotalsOf(s.meals)
    ensures s.water == WaterTotal(db.GetDayStats(DayOf(now)), DayOf(now), s.range)
    ensures s.avgCals == Average(s.totals.intake, s.range) && s.avgWater == Average(s.water, s.range)
    ensures s.score == Score(s.meals, s.totals.foodCount)
    ensures s.targetCals == db.GetProfile().target * s.range as real
    ensures s.targetWater == 2500.0 * s.range as real
  {
    var range := RangeOf(screen.currentRange);
    var today := DayOf(now);
    var allMeals := db.GetMeals();
    var allStats := db.GetDayStats(today);
    var profile := db.GetProfile();
    var filtered := Filter(allMeals, (m: Meal) => InWindow(m.entry.timestamp, today, range));
    var totals := PeriodTotalsLoop(filtered);
    var water := WaterLoop(allStats, today, range);
    s := Summary(range, totals, water, Average(totals.intake, range), Average(water, range),
                 Score(filtered, totals.foodCount), profile.target * range as real, 2500.0 * range as real, filtered);
  }
}
