/** The numbers behind the analytics screen (js/ui/analytics.js): the
    30-day heatmap, the quality, hydration, measurement, exercise and weight
    series, the hourly calorie chart and the sodium/sugar averages. Only the
    arrays the charts are fed are modelled, not the drawing. */
module AnalyticsScreen {
  import opened Wrappers
  import opened Database
  import opened Lists

  // ---------------------------------------------------------------------
  // Selections and sums over the ledger
  // ---------------------------------------------------------------------

  /** The food entries filed under day `k`. */
  function FoodOn(meals: seq<Meal>, k: Day): seq<Meal> {
    Filter(meals, (m: Meal) => m.dateKey == k && m.entry.kind == Food)
  }

  /** The exercise entries filed under day `k`. */
  function ExerciseOn(meals: seq<Meal>, k: Day): seq<Meal> {
    Filter(meals, (m: Meal) => m.dateKey == k && m.entry.kind == Exercise)
  }

  /** Every entry filed under day `k`. */
  function MealsOn(meals: seq<Meal>, k: Day): seq<Meal> {
    Filter(meals, (m: Meal) => m.dateKey == k)
  }

  function CalsSum(ms: seq<Meal>): real {
    if ms == [] then 0.0 else CalsSum(ms[..|ms| - 1]) + ms[|ms| - 1].entry.cals
  }

  /** The score a meal contributes to quality: its own, or 5. */
  function ScoreOf(m: Meal): real {
    NumOr(m.entry.score, 5.0)
  }

  function ScoreSum(ms: seq<Meal>): real {
    if ms == [] then 0.0 else ScoreSum(ms[..|ms| - 1]) + ScoreOf(ms[|ms| - 1])
  }

  function Abs(x: real): real {
    if x < 0.0 then -x else x
  }

  // ---------------------------------------------------------------------
  // Heatmap
  // ---------------------------------------------------------------------

  const HeatmapDays: int := 30

  /** A heatmap cell: grey (no food calories), on target, under or over. */
  datatype Band = Blank | OnTarget | Under | Over

  /** The band of a day with `cals` food calories and `net` calories after
      exercise. A day without food calories is grey whatever was burned;
      otherwise, for a non-negative target, the bands are net within 10 %
      of the target, below that, and above it. */
  function DayBand(cals: real, net: real, target: real): (b: Band)
    ensures b == Blank <==> cals == 0.0
    ensures cals != 0.0 && target >= 0.0 ==> (b == OnTarget <==> 0.9 * target <= net <= 1.1 * target)
    ensures cals != 0.0 && target >= 0.0 ==> (b == Under <==> net < 0.9 * target)
    ensures cals != 0.0 && target >= 0.0 ==> (b == Over <==> net > 1.1 * target)
  {
    if cals == 0.0 then Blank
    else if Abs(net - target) <= target * 0.1 then OnTarget
    else if net < target then Under
    else Over
  }

  function HeatBand(meals: seq<Meal>, target: real, k: Day): Band {
    var cals := CalsSum(FoodOn(meals, k));
    DayBand(cals, cals - CalsSum(ExerciseOn(meals, k)), target)
  }

  /** The heatmap loop: the 30 days ending today, oldest first. */
  method Heatmap(meals: seq<Meal>, target: real, today: Day) returns (bands: seq<Band>)
    ensures |bands| == HeatmapDays
    ensures forall j :: 0 <= j < |bands| ==> bands[j] == HeatBand(meals, target, today - (HeatmapDays - 1) + j)
  {
    bands := [];
    var i: int := HeatmapDays - 1;
    while i >= 0
      invariant -1 <= i < HeatmapDays
      invariant |bands| == HeatmapDays - 1 - i
      invariant forall j :: 0 <= j < |bands| ==> bands[j] == HeatBand(meals, target, today - (HeatmapDays - 1) + j)
    {
      var k := today - i;
      var dayBurn := CalsSum(ExerciseOn(meals, k));
      var cals := CalsSum(FoodOn(meals, k));
      var net := cals - dayBurn;
      var b;
      if cals == 0.0 {
        b := Blank;
      } else if Abs(net - target) <= target * 0.1 {
        b := OnTarget;
      } else if net < target {
        b := Under;
      } else {
        b := Over;
      }
      bands := bands + [b];
      i := i - 1;
    }
  }

  // ---------------------------------------------------------------------
  // Quality
  // ---------------------------------------------------------------------

  /** The mean score of a day's food entries; None when it has none. */
  function DailyQuality(meals: seq<Meal>, k: Day): (q: Option<real>)
    ensures q.None? <==> FoodOn(meals, k) == []
  {
    var food := FoodOn(meals, k);
    if |food| == 0 then None else Some(ScoreSum(food) / |food| as real)
  }

  /** `n * x`, kept behind a function so that sums stay linear. */
  function Scale(n: nat, x: real): real {
    n as real * x
  }

  lemma ScaleSucc(n: nat, x: real)
    ensures Scale(n + 1, x) == Scale(n, x) + x
  {
  }

  lemma {:induction false} ScoreSumBounds(ms: seq<Meal>, lo: real, hi: real)
    requires forall i :: 0 <= i < |ms| ==> lo <= ScoreOf(ms[i]) <= hi
    ensures Scale(|ms|, lo) <= ScoreSum(ms) <= Scale(|ms|, hi)
  {
    if ms != [] {
      ScoreSumBounds(ms[..|ms| - 1], lo, hi);
      ScaleSucc(|ms| - 1, lo);
      ScaleSucc(|ms| - 1, hi);
    }
  }

  /** A mean of `n` values lies between bounds that each value keeps. */
  lemma MeanBounds(s: real, n: nat, lo: real, hi: real)
    requires n > 0
    requires Scale(n, lo) <= s <= Scale(n, hi)
    ensures lo <= s / n as real <= hi
  {
    var a := s / n as real;
    assert a * n as real == s;
  }

  /** When every food entry of the day scores within [lo, hi] (a missing
      score counting as 5), so does the day's quality. */
  lemma QualityBounds(meals: seq<Meal>, k: Day, lo: real, hi: real)
    requires forall i :: 0 <= i < |FoodOn(meals, k)| ==> lo <= ScoreOf(FoodOn(meals, k)[i]) <= hi
    ensures DailyQuality(meals, k).Some? ==> lo <= DailyQuality(meals, k).value <= hi
  {
    var food := FoodOn(meals, k);
    if food != [] {
      ScoreSumBounds(food, lo, hi);
      MeanBounds(ScoreSum(food), |food|, lo, hi);
    }
  }

  /** The number of non-null points of a quality series. */
  function ValidCount(q: seq<Option<real>>): (n: nat)
    ensures n <= |q|
  {
    if q == [] then 0
    else ValidCount(q[..|q| - 1]) + (if q[|q| - 1].Some? then 1 else 0)
  }

  /** A series has no valid point exactly when every point is null. */
  lemma {:induction false} NoValidPoints(q: seq<Option<real>>)
    ensures ValidCount(q) == 0 <==> forall i :: 0 <= i < |q| ==> q[i].None?
  {
    if q != [] {
      var init := q[..|q| - 1];
      NoValidPoints(init);
      assert forall i :: 0 <= i < |init| ==> init[i] == q[i];
    }
  }

  function ValidSum(q: seq<Option<real>>): real {
    if q == [] then 0.0
    else ValidSum(q[..|q| - 1]) + (if q[|q| - 1].Some? then q[|q| - 1].value else 0.0)
  }

  /** The period average under the quality chart; None is the '--' shown
      when every point is null. */
  function PeriodAverage(q: seq<Option<real>>): (r: Option<real>)
    ensures r.None? <==> forall i :: 0 <= i < |q| ==> q[i].None?
  {
    NoValidPoints(q);
    var n := ValidCount(q);
    if n == 0 then None else Some(ValidSum(q) / n as real)
  }

  lemma {:induction false} ValidSumBounds(q: seq<Option<real>>, lo: real, hi: real)
    requires forall i :: 0 <= i < |q| && q[i].Some? ==> lo <= q[i].value <= hi
    ensures Scale(ValidCount(q), lo) <= ValidSum(q) <= Scale(ValidCount(q), hi)
  {
    if q != [] {
      var init, last := q[..|q| - 1], q[|q| - 1];
      assert forall i :: 0 <= i < |init| ==> init[i] == q[i];
      ValidSumBounds(init, lo, hi);
      if last.Some? {
        ScaleSucc(ValidCount(init), lo);
        ScaleSucc(ValidCount(init), hi);
      }
    }
  }

  /** The period average stays within bounds every point keeps. */
  lemma PeriodAverageBounds(q: seq<Option<real>>, lo: real, hi: real)
    requires forall i :: 0 <= i < |q| && q[i].Some? ==> lo <= q[i].value <= hi
    ensures PeriodAverage(q).Some? ==> lo <= PeriodAverage(q).value <= hi
  {
    if ValidCount(q) > 0 {
      ValidSumBounds(q, lo, hi);
      MeanBounds(ValidSum(q), ValidCount(q), lo, hi);
    }
  }

  /** Point colours of the quality chart. */
  datatype Color = Purple | Green | Yellow | Red

  /** Red < Yellow < Green: better scores never get a worse colour. */
  function Rank(c: Color): nat {
    match c
    case Red => 0
    case Yellow => 1
    case Green => 2
    case Purple => 3
  }

  /** The colour of a quality point: null is purple, then green from 7,
      yellow from 4, red below. */
  function QualityColor(v: Option<real>): (c: Color)
    ensures c == Purple <==> v.None?
    ensures v.Some? ==> (c == Green <==> v.value >= 7.0) && (c == Red <==> v.value < 4.0)
  {
    if v.None? then Purple
    else if v.value >= 7.0 then Green
    else if v.value >= 4.0 then Yellow
    else Red
  }

  lemma QualityColorMonotone(a: real, b: real)
    requires a <= b
    ensures Rank(QualityColor(Some(a))) <= Rank(QualityColor(Some(b)))
  {
  }

  // ---------------------------------------------------------------------
  // Weight fill-forward
  // ---------------------------------------------------------------------

  /** The last truthy weight of `s`, or `fallback` when it has none. */
  function LastTruthy(s: seq<Option<real>>, fallback: real): real {
    if s == [] then fallback
    else if Truthy(s[|s| - 1]) then s[|s| - 1].value
    else LastTruthy(s[..|s| - 1], fallback)
  }

  /** With no truthy value, `LastTruthy` is the fallback. */
  lemma {:induction false} LastTruthyNone(s: seq<Option<real>>, fallback: real)
    requires forall i :: 0 <= i < |s| ==> !Truthy(s[i])
    ensures LastTruthy(s, fallback) == fallback
  {
    if s != [] {
      var init := s[..|s| - 1];
      assert forall i :: 0 <= i < |init| ==> init[i] == s[i];
      LastTruthyNone(init, fallback);
    }
  }

  /** Otherwise it is the value of the latest truthy slot. */
  lemma {:induction false} LastTruthyLatest(s: seq<Option<real>>, fallback: real, i: nat)
    requires i < |s| && Truthy(s[i])
    requires forall j :: i < j < |s| ==> !Truthy(s[j])
    ensures LastTruthy(s, fallback) == s[i].value
  {
    if i < |s| - 1 {
      var init := s[..|s| - 1];
      assert forall j :: i < j < |init| ==> init[j] == s[j];
      LastTruthyLatest(init, fallback, i);
    }
  }

  lemma {:induction false} LastTruthyNonZero(s: seq<Option<real>>, fallback: real)
    requires fallback != 0.0
    ensures LastTruthy(s, fallback) != 0.0
  {
    if s != [] {
      LastTruthyNonZero(s[..|s| - 1], fallback);
    }
  }

  /** The weight series after the gap-filling loop: a truthy slot keeps its
      value, any other slot takes the last earlier truthy weight, or the
      profile weight before the first one. */
  function FilledForward(s: seq<Option<real>>, fallback: real): (r: seq<Option<real>>)
    ensures |r| == |s|
  {
    seq(|s|, j requires 0 <= j < |s| => if Truthy(s[j]) then s[j] else Some(LastTruthy(s[..j], fallback)))
  }

  /** With a non-zero profile weight, no slot stays empty after filling. */
  lemma FilledAllTruthy(s: seq<Option<real>>, fallback: real)
    requires fallback != 0.0
    ensures forall j :: 0 <= j < |s| ==> Truthy(FilledForward(s, fallback)[j])
  {
    forall j | 0 <= j < |s|
      ensures Truthy(FilledForward(s, fallback)[j])
    {
      LastTruthyNonZero(s[..j], fallback);
    }
  }

  /** The gap-filling loop over the weight series, in place. */
  method FillForward(a: array<Option<real>>, fallback: real)
    modifies a
    ensures a[..] == FilledForward(old(a[..]), fallback)
  {
    ghost var s := a[..];
    var lastW := fallback;
    var i := 0;
    while i < a.Length
      invariant 0 <= i <= a.Length
      invariant forall j :: 0 <= j < i ==> a[j] == FilledForward(s, fallback)[j]
      invariant forall j :: i <= j < a.Length ==> a[j] == s[j]
      invariant lastW == LastTruthy(s[..i], fallback)
    {
      assert s[..i + 1][..i] == s[..i];
      if Truthy(a[i]) {
        lastW := a[i].value;
      } else {
        a[i] := Some(lastW);
      }
      i := i + 1;
    }
  }

  // ---------------------------------------------------------------------
  // Hourly calorie chart
  // ---------------------------------------------------------------------

  /** The calories of the non-exercise entries logged at hour `h`, over the
      whole ledger. */
  function CalsAt(ms: seq<Meal>, h: int): real {
    if ms == [] then 0.0
    else CalsAt(ms[..|ms| - 1], h) +
         (if ms[|ms| - 1].entry.kind != Exercise && HourOf(ms[|ms| - 1].entry.timestamp) == h
          then ms[|ms| - 1].entry.cals else 0.0)
  }

  /** The calories of all non-exercise entries. */
  function NonExerciseCals(ms: seq<Meal>): real {
    if ms == [] then 0.0
    else NonExerciseCals(ms[..|ms| - 1]) +
         (if ms[|ms| - 1].entry.kind != Exercise then ms[|ms| - 1].entry.cals else 0.0)
  }

  /** The sum of the first `n` hourly buckets. */
  function HoursTotal(ms: seq<Meal>, n: nat): real {
    if n == 0 then 0.0 else HoursTotal(ms, n - 1) + CalsAt(ms, n - 1)
  }

  lemma {:induction false} HoursTotalSnoc(ms: seq<Meal>, m: Meal, n: nat)
    ensures HoursTotal(ms + [m], n) == HoursTotal(ms, n) +
            (if m.entry.kind != Exercise && HourOf(m.entry.timestamp) < n then m.entry.cals else 0.0)
  {
    assert (ms + [m])[..|ms|] == ms;
    if n > 0 {
      HoursTotalSnoc(ms, m, n - 1);
    }
  }

  lemma {:induction false} HoursTotalNil(n: nat)
    ensures HoursTotal([], n) == 0.0
  {
    if n > 0 {
      HoursTotalNil(n - 1);
    }
  }

  /** The 24 buckets share out the non-exercise calories exactly: every
      entry lands in one bucket and nothing is averaged. */
  lemma {:induction false} HourlyConservation(ms: seq<Meal>)
    ensures HoursTotal(ms, 24) == NonExerciseCals(ms)
  {
    if ms == [] {
      HoursTotalNil(24);
    } else {
      var init := ms[..|ms| - 1];
      HourlyConservation(init);
      assert ms == init + [ms[|ms| - 1]];
      HoursTotalSnoc(init, ms[|ms| - 1], 24);
      assert HoursTotal(ms, 24) == HoursTotal(init, 24) +
             (if ms[|ms| - 1].entry.kind != Exercise then ms[|ms| - 1].entry.cals else 0.0);
      assert NonExerciseCals(ms) == NonExerciseCals(init) +
             (if ms[|ms| - 1].entry.kind != Exercise then ms[|ms| - 1].entry.cals else 0.0);
    }
  }

  /** The hourly loop: every non-exercise entry adds its calories to the
      bucket of its hour. */
  method HourlyCalories(meals: seq<Meal>) returns (hours: array<real>)
    ensures fresh(hours) && hours.Length == 24
    ensures forall h :: 0 <= h < 24 ==> hours[h] == CalsAt(meals, h)
  {
    hours := new real[24](_ => 0.0);
    var i := 0;
    while i < |meals|
      invariant 0 <= i <= |meals|
      invariant forall h :: 0 <= h < 24 ==> hours[h] == CalsAt(meals[..i], h)
    {
      assert meals[..i + 1][..i] == meals[..i];
      var m := meals[i];
      if m.entry.kind != Exercise {
        var h := HourOf(m.entry.timestamp);
        hours[h] := hours[h] + m.entry.cals;
      }
      i := i + 1;
    }
    assert meals[..|meals|] == meals;
  }

  // ---------------------------------------------------------------------
  // Hourly view of today (range 1)
  // ---------------------------------------------------------------------

  /** A non-exercise entry logged at hour `h`: it sets that hour's quality point. */
  predicate ScoredAt(m: Meal, h: int) {
    m.entry.kind != Exercise && HourOf(m.entry.timestamp) == h
  }

  /** The calories burned by exercise entries at hour `h`. */
  function ExerciseAt(ms: seq<Meal>, h: int): real {
    if ms == [] then 0.0
    else ExerciseAt(ms[..|ms| - 1], h) +
         (if ms[|ms| - 1].entry.kind == Exercise && HourOf(ms[|ms| - 1].entry.timestamp) == h
          then ms[|ms| - 1].entry.cals else 0.0)
  }

  /** The quality point of hour `h`: the score of the last entry scored at
      that hour, or None. */
  function LastScoreAt(ms: seq<Meal>, h: int): Option<real> {
    if ms == [] then None
    else if ScoredAt(ms[|ms| - 1], h) then Some(ScoreOf(ms[|ms| - 1]))
    else LastScoreAt(ms[..|ms| - 1], h)
  }

  /** The later entry wins: an hour's point is the score of the last entry
      at that hour, and it is null exactly when no entry falls in it. */
  lemma {:induction false} LastScoreAtSpec(ms: seq<Meal>, h: int)
    ensures LastScoreAt(ms, h).None? <==> forall i :: 0 <= i < |ms| ==> !ScoredAt(ms[i], h)
    ensures LastScoreAt(ms, h).Some? ==>
              exists i :: 0 <= i < |ms| && ScoredAt(ms[i], h) && LastScoreAt(ms, h) == Some(ScoreOf(ms[i])) &&
                          forall j :: i < j < |ms| ==> !ScoredAt(ms[j], h)
  {
    if ms != [] {
      var init := ms[..|ms| - 1];
      LastScoreAtSpec(init, h);
      assert forall i :: 0 <= i < |init| ==> init[i] == ms[i];
      if ScoredAt(ms[|ms| - 1], h) {
        assert ScoredAt(ms[|ms| - 1], h) && LastScoreAt(ms, h) == Some(ScoreOf(ms[|ms| - 1]));
      }
    }
  }

  /** The loop over today's entries: exercise adds to its hour's burn,
      any other entry overwrites its hour's quality point. */
  method HourBuckets(todays: seq<Meal>) returns (exercise: array<real>, quality: array<Option<real>>)
    ensures fresh(exercise) && fresh(quality) && exercise.Length == 24 && quality.Length == 24
    ensures forall h :: 0 <= h < 24 ==> exercise[h] == ExerciseAt(todays, h) && quality[h] == LastScoreAt(todays, h)
  {
    exercise := new real[24](_ => 0.0);
    quality := new Option<real>[24](_ => None);
    var i := 0;
    while i < |todays|
      invariant 0 <= i <= |todays|
      invariant forall h :: 0 <= h < 24 ==> exercise[h] == ExerciseAt(todays[..i], h)
      invariant forall h :: 0 <= h < 24 ==> quality[h] == LastScoreAt(todays[..i], h)
    {
      assert todays[..i + 1][..i] == todays[..i];
      var m := todays[i];
      var h := HourOf(m.entry.timestamp);
      if m.entry.kind == Exercise {
        exercise[h] := exercise[h] + m.entry.cals;
      } else {
        quality[h] := Some(ScoreOf(m));
      }
      i := i + 1;
    }
    assert todays[..|todays|] == todays;
  }

  /** The first weight entry of day `k`. */
  function FindWeight(h: seq<WeightEntry>, k: Day): (r: Option<real>)
    ensures r.None? <==> forall i :: 0 <= i < |h| ==> h[i].date != k
  {
    if h == [] then None
    else if h[0].date == k then Some(h[0].weight)
    else FindWeight(h[1..], k)
  }

  /** The first measurement entry of day `k`. */
  function FindMeasurement(h: seq<MeasurementEntry>, k: Day): (r: Option<MeasurementEntry>)
    ensures r.None? <==> forall i :: 0 <= i < |h| ==> h[i].date != k
    ensures r.Some? ==> r.value in h && r.value.date == k
  {
    if h == [] then None
    else if h[0].date == k then Some(h[0])
    else FindMeasurement(h[1..], k)
  }

  /** The weight of the 1-day view: today's entry, else the latest entry,
      else the profile weight. */
  function HourWeight(p: Profile, k: Day): real {
    var h := p.weightHistory.GetOr([]);
    var w := FindWeight(h, k);
    if w.Some? then w.value else if h != [] then h[|h| - 1].weight else p.weight
  }

  /** The measurement of the 1-day view: today's entry, else the latest, else none. */
  function HourMeasurement(p: Profile, k: Day): Option<MeasurementEntry> {
    var h := p.measurementsHistory.GetOr([]);
    var m := FindMeasurement(h, k);
    if m.Some? then m else if h != [] then Some(h[|h| - 1]) else None
  }

  /** `x || null` on a number. */
  function OrNull(x: real): Option<real> {
    if x != 0.0 then Some(x) else None
  }

  /** The series of the 1-day view. The weight and the three measurements
      are one value each, repeated over the 24 hours by the chart. */
  datatype HourSeries = HourSeries(
    quality: seq<Option<real>>,
    hydration: seq<real>,
    exercise: seq<real>,
    weight: real,
    waist: Option<real>,
    hip: Option<real>,
    fat: Option<real>)

  /** The 1-day view: the hour buckets of the entries filed today, today's
      water in the current hour's bar, and today's (or the latest) weight
      and measurements. */
  method HourlyView(p: Profile, meals: seq<Meal>, water: real, today: Day, hourNow: int) returns (v: HourSeries)
    requires 0 <= hourNow < 24
    ensures |v.quality| == 24 && |v.hydration| == 24 && |v.exercise| == 24
    ensures forall h :: 0 <= h < 24 ==>
              v.quality[h] == LastScoreAt(MealsOn(meals, today), h) &&
              v.exercise[h] == ExerciseAt(MealsOn(meals, today), h) &&
              v.hydration[h] == (if h == hourNow then water else 0.0)
    ensures v.weight == HourWeight(p, today)
    ensures var m := HourMeasurement(p, today);
            v.waist == (if m.Some? && Truthy(m.value.waist) then m.value.waist else None) &&
            v.hip == (if m.Some? then OrNull(m.value.hip) else None) &&
            v.fat == (if m.Some? then OrNull(m.value.fatPct) else None)
  {
    var hydration := new real[24](_ => 0.0);
    hydration[hourNow] := water;
    var exercise, quality := HourBuckets(MealsOn(meals, today));
    var m := HourMeasurement(p, today);
    v := HourSeries(quality[..], hydration[..], exercise[..], HourWeight(p, today),
                    if m.Some? && Truthy(m.value.waist) then m.value.waist else None,
                    if m.Some? then OrNull(m.value.hip) else None,
                    if m.Some? then OrNull(m.value.fatPct) else None);
  }

  // ---------------------------------------------------------------------
  // Daily view (range > 1)
  // ---------------------------------------------------------------------

  /** What the daily loop pushes for day `k`; `weight` is before gap filling. */
  datatype DayPoint = DayPoint(
    day: Day,
    quality: Option<real>,
    water: real,
    waist: Option<real>,
    hip: Option<real>,
    fat: Option<real>,
    burn: real,
    weight: Option<real>)

  /** A day's water, 0 for a day without stats. */
  function WaterOn(stats: map<Day, DayStat>, k: Day): real {
    if k in stats then stats[k].water else 0.0
  }

  function PointOn(p: Profile, meals: seq<Meal>, stats: map<Day, DayStat>, k: Day): DayPoint {
    var m := FindMeasurement(p.measurementsHistory.GetOr([]), k);
    DayPoint(k, DailyQuality(meals, k), WaterOn(stats, k),
             if m.Some? then m.value.waist else None,
             if m.Some? then Some(m.value.hip) else None,
             if m.Some? then Some(m.value.fatPct) else None,
             CalsSum(ExerciseOn(meals, k)),
             FindWeight(p.weightHistory.GetOr([]), k))
  }

  /** The `range` days ending today, oldest first (none for a range below 1). */
  function Window(today: Day, range: int): (days: seq<Day>)
    ensures |days| == if range > 0 then range else 0
    ensures forall j :: 0 <= j < |days| ==> days[j] == today - (range - 1) + j
  {
    if range <= 0 then [] else seq(range, j => today - (range - 1) + j)
  }

  /** The daily loop: one point per day of the range, oldest first. */
  method DailyPoints(p: Profile, meals: seq<Meal>, stats: map<Day, DayStat>, today: Day, range: int)
    returns (points: seq<DayPoint>)
    ensures |points| == |Window(today, range)|
    ensures forall j :: 0 <= j < |points| ==> points[j] == PointOn(p, meals, stats, Window(today, range)[j])
  {
    points := [];
    if range <= 0 {
      return;
    }
    var days := Window(today, range);
    var i := range - 1;
    while i >= 0
      invariant -1 <= i < range
      invariant |points| == range - 1 - i
      invariant forall j :: 0 <= j < |points| ==> points[j] == PointOn(p, meals, stats, days[j])
    {
      var k := today - i;
      assert k == days[range - 1 - i];
      points := points + [PointOn(p, meals, stats, k)];
      i := i - 1;
    }
  }

  /** The raw weights of the daily points. */
  function Weights(points: seq<DayPoint>): (w: seq<Option<real>>)
    ensures |w| == |points|
    ensures forall j :: 0 <= j < |w| ==> w[j] == points[j].weight
  {
    seq(|points|, j requires 0 <= j < |points| => points[j].weight)
  }

  /** The daily view: the points, then the gap filling of the weight series in place. */
  method DailyView(p: Profile, meals: seq<Meal>, stats: map<Day, DayStat>, today: Day, range: int)
    returns (points: seq<DayPoint>, weight: seq<Option<real>>)
    ensures |points| == |Window(today, range)|
    ensures forall j :: 0 <= j < |points| ==> points[j] == PointOn(p, meals, stats, Window(today, range)[j])
    ensures weight == FilledForward(Weights(points), p.weight)
  {
    points := DailyPoints(p, meals, stats, today, range);
    var raw := Weights(points);
    var a := new Option<real>[|raw|](j requires 0 <= j < |raw| => raw[j]);
    assert a[..] == raw;
    FillForward(a, p.weight);
    weight := a[..];
  }

  // ---------------------------------------------------------------------
  // Metabolic health
  // ---------------------------------------------------------------------

  function SodiumOf(ms: seq<Meal>): real {
    if ms == [] then 0.0
    else SodiumOf(ms[..|ms| - 1]) +
         (if ms[|ms| - 1].entry.micros.Some? then ms[|ms| - 1].entry.micros.value.sodium else 0.0)
  }

  function SugarOf(ms: seq<Meal>): real {
    if ms == [] then 0.0
    else SugarOf(ms[..|ms| - 1]) +
         (if ms[|ms| - 1].entry.micros.Some? then ms[|ms| - 1].entry.micros.value.sugar else 0.0)
  }

  /** The days of `days` with at least one food entry. */
  function ActiveCount(meals: seq<Meal>, days: seq<Day>): (n: nat)
    ensures n <= |days|
  {
    if days == [] then 0
    else ActiveCount(meals, days[..|days| - 1]) + (if FoodOn(meals, days[|days| - 1]) != [] then 1 else 0)
  }

  /** The sodium and sugar of the food entries of the active days. */
  function SodiumTotal(meals: seq<Meal>, days: seq<Day>): real {
    if days == [] then 0.0
    else SodiumTotal(meals, days[..|days| - 1]) +
         (if FoodOn(meals, days[|days| - 1]) != [] then SodiumOf(FoodOn(meals, days[|days| - 1])) else 0.0)
  }

  function SugarTotal(meals: seq<Meal>, days: seq<Day>): real {
    if days == [] then 0.0
    else SugarTotal(meals, days[..|days| - 1]) +
         (if FoodOn(meals, days[|days| - 1]) != [] then SugarOf(FoodOn(meals, days[|days| - 1])) else 0.0)
  }

  /** Without a single active day there is nothing to average: both totals are 0. */
  lemma {:induction false} InactiveWindow(meals: seq<Meal>, days: seq<Day>)
    requires ActiveCount(meals, days) == 0
    ensures SodiumTotal(meals, days) == 0.0 && SugarTotal(meals, days) == 0.0
  {
    if days != [] {
      InactiveWindow(meals, days[..|days| - 1]);
    }
  }

  /** The inner loop over one day's food entries: adds each entry's sodium
      and sugar, when it has micros, to the running totals. */
  method AddMicros(dayMeals: seq<Meal>, sodium0: real, sugar0: real) returns (sodium: real, sugar: real)
    ensures sodium == sodium0 + SodiumOf(dayMeals) && sugar == sugar0 + SugarOf(dayMeals)
  {
    sodium, sugar := sodium0, sugar0;
    var j := 0;
    while j < |dayMeals|
      invariant 0 <= j <= |dayMeals|
      invariant sodium == sodium0 + SodiumOf(dayMeals[..j]) && sugar == sugar0 + SugarOf(dayMeals[..j])
    {
      assert dayMeals[..j + 1][..j] == dayMeals[..j];
      var m := dayMeals[j];
      if m.entry.micros.Some? {
        sodium := sodium + m.entry.micros.value.sodium;
        sugar := sugar + m.entry.micros.value.sugar;
      }
      j := j + 1;
    }
    assert dayMeals[..|dayMeals|] == dayMeals;
  }

  /** One more day of the window adds one to the count and its food
      entries' micros to the totals when it has food, and nothing otherwise. */
  lemma WindowSnoc(meals: seq<Meal>, days: seq<Day>, n: nat)
    requires n < |days|
    ensures var food := FoodOn(meals, days[n]);
            ActiveCount(meals, days[..n + 1]) == ActiveCount(meals, days[..n]) + (if food != [] then 1 else 0) &&
            SodiumTotal(meals, days[..n + 1]) == SodiumTotal(meals, days[..n]) + (if food != [] then SodiumOf(food) else 0.0) &&
            SugarTotal(meals, days[..n + 1]) == SugarTotal(meals, days[..n]) + (if food != [] then SugarOf(food) else 0.0)
  {
    assert days[..n + 1][..n] == days[..n];
  }

  /** The metabolic loop: sodium and sugar of the food entries, averaged
      over the days of the range that have any food entry, 0 when none has. */
  method MetabolicAverages(meals: seq<Meal>, today: Day, range: int) returns (avgSodium: real, avgSugar: real)
    ensures var days := Window(today, range);
            var n := ActiveCount(meals, days);
            avgSodium == (if n > 0 then SodiumTotal(meals, days) / n as real else 0.0) &&
            avgSugar == (if n > 0 then SugarTotal(meals, days) / n as real else 0.0)
  {
    ghost var days := Window(today, range);
    ghost var done := 0;
    var totalSodium, totalSugar := 0.0, 0.0;
    var countDays := 0;
    var i := range - 1;
    while i >= 0
      invariant i < range
      invariant range > 0 ==> -1 <= i && done == range - 1 - i
      invariant range <= 0 ==> done == 0
      invariant 0 <= done <= |days|
      invariant countDays == ActiveCount(meals, days[..done])
      invariant totalSodium == SodiumTotal(meals, days[..done])
      invariant totalSugar == SugarTotal(meals, days[..done])
    {
      var k := today - i;
      WindowSnoc(meals, days, done);
      var dayMeals := FoodOn(meals, k);
      if |dayMeals| > 0 {
        countDays := countDays + 1;
        totalSodium, totalSugar := AddMicros(dayMeals, totalSodium, totalSugar);
      }
      i := i - 1;
      done := done + 1;
    }
    assert days[..done] == days;
    avgSodium := if countDays > 0 then totalSodium / countDays as real else 0.0;
    avgSugar := if countDays > 0 then totalSugar / countDays as real else 0.0;
  }

  /** The sodium target: the profile's when set and non-zero, else 2300 mg. */
  function SodiumTarget(p: Profile): (t: real)
    ensures t != 0.0
    ensures p.microTargets.None? ==> t == 2300.0
    ensures p.microTargets.Some? && p.microTargets.value.sodium != 0.0 ==> t == p.microTargets.value.sodium
    ensures p.microTargets.Some? && p.microTargets.value.sodium == 0.0 ==> t == 2300.0
  {
    if p.microTargets.Some? && p.microTargets.value.sodium != 0.0 then p.microTargets.value.sodium else 2300.0
  }

  /** The sugar target: the profile's when set and non-zero, else 50 g. */
  function SugarTarget(p: Profile): (t: real)
    ensures t != 0.0
    ensures p.microTargets.None? ==> t == 50.0
    ensures p.microTargets.Some? && p.microTargets.value.sugar != 0.0 ==> t == p.microTargets.value.sugar
    ensures p.microTargets.Some? && p.microTargets.value.sugar == 0.0 ==> t == 50.0
  {
    if p.microTargets.Some? && p.microTargets.value.sugar != 0.0 then p.microTargets.value.sugar else 50.0
  }

  /** The traffic light of an intake against its target: green below 70 %,
      yellow up to 100 %, red above. */
  function HealthColor(val: real, max: real): (c: Color)
    requires max != 0.0
    ensures c != Purple
    ensures max > 0.0 ==> (c == Green <==> val < 0.7 * max) && (c == Red <==> val > max)
  {
    var pct := val / max;
    RatioFacts(val, max);
    if pct < 0.7 then Green else if pct <= 1.0 then Yellow else Red
  }

  lemma RatioFacts(val: real, max: real)
    requires max != 0.0
    ensures max > 0.0 ==> (val / max < 0.7 <==> val < 0.7 * max) && (val / max <= 1.0 <==> val <= max)
  {
    if max > 0.0 {
      var pct := val / max;
      assert pct * max == val;
    }
  }

  /** More intake never gets a better light. */
  lemma HealthColorMonotone(a: real, b: real, max: real)
    requires max > 0.0 && a <= b
    ensures Rank(HealthColor(b, max)) <= Rank(HealthColor(a, max))
  {
  }

  // ---------------------------------------------------------------------
  // The screen
  // ---------------------------------------------------------------------

  /** Every array the charts of one render are fed. `hourly` is set in the
      1-day view and `daily` in the others. */
  datatype View = View(
    heatmap: seq<Band>,
    hourly: Option<HourSeries>,
    daily: Option<(seq<DayPoint>, seq<Option<real>>)>,
    quality: seq<Option<real>>,
    average: Option<real>,
    qualityColors: seq<Color>,
    hourlyCalories: seq<real>,
    sodium: real,
    sugar: real,
    sodiumColor: Color,
    sugarColor: Color)

  predicate HeatmapShows(bands: seq<Band>, meals: seq<Meal>, target: real, today: Day) {
    |bands| == HeatmapDays &&
    forall j :: 0 <= j < |bands| ==> bands[j] == HeatBand(meals, target, today - (HeatmapDays - 1) + j)
  }

  /** The 1-day view feeds the hourly series, any other range the daily
      series; the quality chart plots that view's quality points. */
  predicate SeriesShow(hourly: Option<HourSeries>, daily: Option<(seq<DayPoint>, seq<Option<real>>)>,
                       quality: seq<Option<real>>, range: int) {
    (range == 1 <==> hourly.Some?) && (hourly.Some? <==> daily.None?) &&
    (hourly.Some? ==> quality == hourly.value.quality) &&
    (daily.Some? ==> |quality| == |daily.value.0| &&
                     forall j :: 0 <= j < |quality| ==> quality[j] == daily.value.0[j].quality)
  }

  predicate QualityShows(quality: seq<Option<real>>, colors: seq<Color>, average: Option<real>) {
    average == PeriodAverage(quality) &&
    |colors| == |quality| && forall j :: 0 <= j < |quality| ==> colors[j] == QualityColor(quality[j])
  }

  predicate HourlyShows(hours: seq<real>, meals: seq<Meal>) {
    |hours| == 24 && forall h :: 0 <= h < 24 ==> hours[h] == CalsAt(meals, h)
  }

  predicate MetabolicShows(sodium: real, sugar: real, sodiumColor: Color, sugarColor: Color,
                           p: Profile, meals: seq<Meal>, today: Day, range: int) {
    var days := Window(today, range);
    var n := ActiveCount(meals, days);
    sodium == (if n > 0 then SodiumTotal(meals, days) / n as real else 0.0) &&
    sugar == (if n > 0 then SugarTotal(meals, days) / n as real else 0.0) &&
    sodiumColor == HealthColor(sodium, SodiumTarget(p)) &&
    sugarColor == HealthColor(sugar, SugarTarget(p))
  }

  /** What one render shows for the profile, the ledger, the day and the range. */
  predicate Rendered(v: View, p: Profile, meals: seq<Meal>, today: Day, range: int) {
    HeatmapShows(v.heatmap, meals, p.target, today) &&
    SeriesShow(v.hourly, v.daily, v.quality, range) &&
    QualityShows(v.quality, v.qualityColors, v.average) &&
    HourlyShows(v.hourlyCalories, meals) &&
    MetabolicShows(v.sodium, v.sugar, v.sodiumColor, v.sugarColor, p, meals, today, range)
  }

  /** The view-dependent series: the hourly view for range 1, the daily one otherwise. */
  method Series(p: Profile, meals: seq<Meal>, stats: map<Day, DayStat>, water: real, today: Day, hourNow: int, range: int)
    returns (hourly: Option<HourSeries>, daily: Option<(seq<DayPoint>, seq<Option<real>>)>, quality: seq<Option<real>>)
    requires 0 <= hourNow < 24
    ensures SeriesShow(hourly, daily, quality, range)
  {
    hourly, daily := None, None;
    if range == 1 {
      var h := HourlyView(p, meals, water, today, hourNow);
      hourly := Some(h);
      quality := h.quality;
    } else {
      var points, weight := DailyView(p, meals, stats, today, range);
      daily := Some((points, weight));
      quality := seq(|points|, j requires 0 <= j < |points| => points[j].quality);
    }
  }

  /** `renderMetabolicHealth`: the averages and their traffic lights. */
  method Metabolic(p: Profile, meals: seq<Meal>, today: Day, range: int)
    returns (sodium: real, sugar: real, sodiumColor: Color, sugarColor: Color)
    ensures MetabolicShows(sodium, sugar, sodiumColor, sugarColor, p, meals, today, range)
  {
    sodium, sugar := MetabolicAverages(meals, today, range);
    sodiumColor, sugarColor := HealthColor(sodium, SodiumTarget(p)), HealthColor(sugar, SugarTarget(p));
  }

  /** `render` on the values it reads: the heatmap, the series of the
      selected view, the quality colours and average, the hourly chart and
      the metabolic bars. */
  method RenderView(p: Profile, meals: seq<Meal>, stats: map<Day, DayStat>, water: real,
                    today: Day, hourNow: int, range: int) returns (v: View)
    requires 0 <= hourNow < 24
    ensures Rendered(v, p, meals, today, range)
  {
    var heatmap := Heatmap(meals, p.target, today);
    var hourly, daily, quality := Series(p, meals, stats, water, today, hourNow, range);
    var colors := seq(|quality|, j requires 0 <= j < |quality| => QualityColor(quality[j]));
    var hours := HourlyCalories(meals);
    var sodium, sugar, sodiumColor, sugarColor := Metabolic(p, meals, today, range);
    v := View(heatmap, hourly, daily, quality, PeriodAverage(quality), colors, hours[..],
              sodium, sugar, sodiumColor, sugarColor);
  }

  /** The `Analytics` object: the selected range and the render that reads it. */
  class Analytics {
    var currentRange: int

    constructor ()
      ensures currentRange == 7
    {
      currentRange := 7;
    }

    /** `setRange(days)`, without the re-render it triggers. */
    method SetRange(days: int)
      modifies this
      ensures currentRange == days
    {
      currentRange := days;
    }

    /** `render` at time `now` over the stored ledger and profile. */
    method Render(db: Ledger, now: Timestamp) returns (v: View)
      ensures Rendered(v, db.GetProfile(), db.GetMeals(), DayOf(now), currentRange)
    {
      var today := DayOf(now);
      v := RenderView(db.GetProfile(), db.GetMeals(), db.GetDayStats(today), TodayWater(db.dayStats, today),
                      today, HourOf(now), currentRange);
    }
  }
}
