/** Macro targets, BMI banding, the profile form save with its dated
    histories, and the API usage counters (js/logic/profile.js). */
module ProfileLogic {
  import opened Wrappers
  import opened Database
  import opened Lists
  import Gamification

  // ---------------------------------------------------------------------
  // Macro targets
  // ---------------------------------------------------------------------

  datatype Ratios = Ratios(p: real, c: real, f: real)
  datatype MacroGrams = MacroGrams(p: int, c: int, f: int, fib: real)

  /** The energy split of a strategy; an unknown strategy is balanced. */
  function StrategyRatios(strategy: string, custom: CustomMacros): (r: Ratios)
    ensures strategy !in {"lowcarb", "ketogenic", "custom"} ==> r == Ratios(0.30, 0.40, 0.30)
    ensures strategy != "custom" ==> r.p + r.c + r.f == 1.0
    ensures strategy == "custom" ==> r == Ratios(custom.p / 100.0, custom.c / 100.0, custom.f / 100.0)
  {
    if strategy == "lowcarb" then Ratios(0.45, 0.15, 0.40)
    else if strategy == "ketogenic" then Ratios(0.25, 0.05, 0.70)
    else if strategy == "custom" then Ratios(custom.p / 100.0, custom.c / 100.0, custom.f / 100.0)
    else Ratios(0.30, 0.40, 0.30)
  }

  /** `calculateMacros`: grams at 4 kcal/g for protein and carbohydrate and
      9 kcal/g for fat, each rounded, so the grams give back the target's
      energy to within 8.5 kcal; fibre passes through, 25 when unset. */
  function CalculateMacros(p: Profile): (g: MacroGrams)
    ensures var r := StrategyRatios(p.strategy, p.customMacros);
            var kcal := (4 * g.p + 4 * g.c + 9 * g.f) as real;
            var want := p.target * (r.p + r.c + r.f);
            want - 8.5 < kcal <= want + 8.5
    ensures p.strategy != "custom" ==>
              p.target - 8.5 < (4 * g.p + 4 * g.c + 9 * g.f) as real <= p.target + 8.5
    ensures var r := StrategyRatios(p.strategy, p.customMacros);
            p.target * r.p / 4.0 - 0.5 < g.p as real <= p.target * r.p / 4.0 + 0.5 &&
            p.target * r.c / 4.0 - 0.5 < g.c as real <= p.target * r.c / 4.0 + 0.5 &&
            p.target * r.f / 9.0 - 0.5 < g.f as real <= p.target * r.f / 9.0 + 0.5
    ensures g.fib == (if p.fiberTarget != 0.0 then p.fiberTarget else 25.0)
  {
    var r := StrategyRatios(p.strategy, p.customMacros);
    MacroGrams(Round(p.target * r.p / 4.0), Round(p.target * r.c / 4.0), Round(p.target * r.f / 9.0),
               NumOr(Some(p.fiberTarget), 25.0))
  }

  /** The default profile's targets: 150 g protein, 200 g carbohydrate, 67 g fat. */
  lemma DefaultMacros()
    ensures CalculateMacros(DefaultProfile) == MacroGrams(150, 200, 67, 25.0)
  {
    assert 2000.0 * 0.30 / 4.0 + 0.5 == 150.5;
    assert 2000.0 * 0.40 / 4.0 + 0.5 == 200.5;
    assert 67.0 <= 2000.0 * 0.30 / 9.0 + 0.5 < 68.0;
  }

  // ---------------------------------------------------------------------
  // BMI
  // ---------------------------------------------------------------------

  lemma OverSquare(w: real, m: real)
    requires w > 0.0 && m > 0.0
    ensures m * m > 0.0
    ensures w / (m * m) > 0.0
    ensures w / (m * m) * m * m == w
  {
    var sq := m * m;
    assert sq > 0.0 by { assert m * m > 0.0 * m; }
    var q := w / sq;
    assert q * sq == w;
    assert q * m * m == q * sq;
  }

  datatype BmiBand = Underweight | NormalWeight | Overweight | Obese

  /** `updateBMI`: weight in kg over the square of height in metres, shown
      only when both fields parse to positive numbers. */
  function Bmi(weightField: Option<real>, heightField: Option<real>): (r: Option<real>)
    ensures r.Some? <==> NumOr(weightField, 0.0) > 0.0 && NumOr(heightField, 0.0) > 0.0
    ensures r.Some? ==> r.value > 0.0
    ensures r.Some? ==> r.value * (heightField.value / 100.0) * (heightField.value / 100.0) == weightField.value
  {
    var w := NumOr(weightField, 0.0);
    var h := NumOr(heightField, 0.0);
    if w > 0.0 && h > 0.0 then
      OverSquare(w, h / 100.0);
      Some(w / ((h / 100.0) * (h / 100.0)))
    else None
  }

  /** The classification bands; together they cover every value. */
  function Band(bmi: real): (b: BmiBand)
    ensures b == Underweight <==> bmi < 18.5
    ensures b == NormalWeight <==> 18.5 <= bmi < 24.9
    ensures b == Overweight <==> 24.9 <= bmi < 29.9
    ensures b == Obese <==> 29.9 <= bmi
  {
    if bmi < 18.5 then Underweight
    else if bmi < 24.9 then NormalWeight
    else if bmi < 29.9 then Overweight
    else Obese
  }

  // ---------------------------------------------------------------------
  // Dated histories
  // ---------------------------------------------------------------------

  predicate SortedByDate(s: seq<WeightEntry>) {
    forall i, j :: 0 <= i < j < |s| ==> s[i].date <= s[j].date
  }

  /** Places `e` after every entry dated on or before it: one step of a
      stable sort by date. */
  function InsertByDate(s: seq<WeightEntry>, e: WeightEntry): (r: seq<WeightEntry>)
    ensures multiset(r) == multiset(s) + multiset{e}
    ensures |r| == |s| + 1
  {
    if s == [] || s[|s| - 1].date <= e.date then s + [e]
    else
      var init, last := s[..|s| - 1], s[|s| - 1];
      assert s == init + [last];
      InsertByDate(init, e) + [last]
  }

  lemma SortedSnoc(u: seq<WeightEntry>, last: WeightEntry)
    requires SortedByDate(u)
    requires forall i :: 0 <= i < |u| ==> u[i].date <= last.date
    ensures SortedByDate(u + [last])
  {
  }

  /** Inserting into a sorted history keeps it sorted. */
  lemma {:induction false} InsertByDateSorted(s: seq<WeightEntry>, e: WeightEntry)
    requires SortedByDate(s)
    ensures SortedByDate(InsertByDate(s, e))
  {
    if !(s == [] || s[|s| - 1].date <= e.date) {
      var init, last := s[..|s| - 1], s[|s| - 1];
      InsertByDateSorted(init, e);
      var u := InsertByDate(init, e);
      assert InsertByDate(s, e) == u + [last];
      forall i | 0 <= i < |u| ensures u[i].date <= last.date {
        assert u[i] in multiset(u);
        if u[i] != e {
          assert u[i] in multiset(init);
          var j :| 0 <= j < |init| && init[j] == u[i];
          assert s[j] == u[i];
        }
      }
      SortedSnoc(u, last);
    }
  }

  /** The history ordered by date (the comparator sort of `save`, which is
      stable). */
  function SortByDate(s: seq<WeightEntry>): (r: seq<WeightEntry>)
    ensures SortedByDate(r)
    ensures multiset(r) == multiset(s)
  {
    if s == [] then []
    else
      var init := s[..|s| - 1];
      assert s == init + [s[|s| - 1]];
      InsertByDateSorted(SortByDate(init), s[|s| - 1]);
      InsertByDate(SortByDate(init), s[|s| - 1])
  }

  /** The weight history after saving `weight` for `today`. */
  function WeightUpsert(history: seq<WeightEntry>, today: Day, weight: real): (r: seq<WeightEntry>)
    ensures SortedByDate(r)
    ensures multiset(r) == multiset(Filter(history, (h: WeightEntry) => h.date != today)) + multiset{WeightEntry(today, weight)}
  {
    SortByDate(Filter(history, (h: WeightEntry) => h.date != today) + [WeightEntry(today, weight)])
  }

  /** After the upsert today has exactly one entry, the new weight, and every
      other date keeps exactly the entries it had. */
  lemma WeightUpsertDates(history: seq<WeightEntry>, today: Day, weight: real)
    ensures var r := WeightUpsert(history, today, weight);
            multiset(r)[WeightEntry(today, weight)] == 1 &&
            (forall i :: 0 <= i < |r| && r[i].date == today ==> r[i] == WeightEntry(today, weight))
    ensures forall e: WeightEntry :: e.date != today ==>
              multiset(WeightUpsert(history, today, weight))[e] == multiset(history)[e]
  {
    var keep := (h: WeightEntry) => h.date != today;
    var r := WeightUpsert(history, today, weight);
    var entry := WeightEntry(today, weight);
    FilterCount(history, keep, entry);
    forall i | 0 <= i < |r| && r[i].date == today
      ensures r[i] == entry
    {
      assert r[i] in multiset(r);
      FilterCount(history, keep, r[i]);
    }
    forall e: WeightEntry | e.date != today
      ensures multiset(r)[e] == multiset(history)[e]
    {
      FilterCount(history, keep, e);
    }
  }

  /** The measurements history after saving today's values: earlier entries
      for today are dropped and the new one goes last; nothing is sorted. */
  function MeasurementUpsert(history: Option<seq<MeasurementEntry>>, entry: MeasurementEntry): (r: seq<MeasurementEntry>)
    ensures |r| >= 1 && r[|r| - 1] == entry
    ensures forall i :: 0 <= i < |r| - 1 ==> r[i].date != entry.date
    ensures r[..|r| - 1] == Filter(history.GetOr([]), (h: MeasurementEntry) => h.date != entry.date)
  {
    Filter(history.GetOr([]), (h: MeasurementEntry) => h.date != entry.date) + [entry]
  }

  // ---------------------------------------------------------------------
  // Save
  // ---------------------------------------------------------------------

  /** The profile form as `parseFloat` reads it (None: empty or not a number). */
  datatype ProfileForm = ProfileForm(
    name: string,
    weight: Option<real>,
    height: Option<real>,
    age: Option<real>,
    gender: string,
    strategy: string,
    target: Option<real>,
    fiber: Option<real>,
    customP: Option<real>,
    customC: Option<real>,
    customF: Option<real>,
    waist: Option<real>,
    hip: Option<real>,
    fat: Option<real>)

  /** The form's fields on the profile: unparseable or zero numbers keep the
      old weight, height and age and fall back to 2000 kcal and 25 g of
      fibre; custom percentages are read only under the custom strategy,
      each falling back to 30/40/30. */
  function FormApplied(p: Profile, form: ProfileForm): (r: Profile)
    ensures r.target != 0.0 && r.fiberTarget != 0.0
    ensures r.name == form.name && r.gender == form.gender && r.strategy == form.strategy
    ensures Truthy(form.target) ==> r.target == form.target.value
    ensures !Truthy(form.target) ==> r.target == 2000.0
    ensures Truthy(form.fiber) ==> r.fiberTarget == form.fiber.value
    ensures !Truthy(form.fiber) ==> r.fiberTarget == 25.0
    ensures Truthy(form.weight) ==> r.weight == form.weight.value
    ensures !Truthy(form.weight) ==> r.weight == p.weight
    ensures Truthy(form.height) ==> r.height == form.height.value
    ensures !Truthy(form.height) ==> r.height == p.height
    ensures Truthy(form.age) ==> r.age == form.age.value
    ensures !Truthy(form.age) ==> r.age == p.age
    ensures form.strategy != "custom" ==> r.customMacros == p.customMacros
    ensures form.strategy == "custom" ==>
              r.customMacros.p != 0.0 && r.customMacros.c != 0.0 && r.customMacros.f != 0.0
    ensures form.strategy == "custom" ==>
              (Truthy(form.customP) ==> r.customMacros.p == form.customP.value) &&
              (!Truthy(form.customP) ==> r.customMacros.p == 30.0) &&
              (Truthy(form.customC) ==> r.customMacros.c == form.customC.value) &&
              (!Truthy(form.customC) ==> r.customMacros.c == 40.0) &&
              (Truthy(form.customF) ==> r.customMacros.f == form.customF.value) &&
              (!Truthy(form.customF) ==> r.customMacros.f == 30.0)
    ensures r.(name := p.name, weight := p.weight, height := p.height, age := p.age,
               gender := p.gender, strategy := p.strategy, target := p.target,
               fiberTarget := p.fiberTarget, customMacros := p.customMacros) == p
  {
    var q := p.(name := form.name,
                weight := NumOr(form.weight, p.weight),
                height := NumOr(form.height, p.height),
                age := NumOr(form.age, p.age),
                gender := form.gender,
                strategy := form.strategy,
                target := NumOr(form.target, 2000.0),
                fiberTarget := NumOr(form.fiber, 25.0));
    if form.strategy == "custom" then
      q.(customMacros := CustomMacros(NumOr(form.customP, 30.0), NumOr(form.customC, 40.0),
                                      NumOr(form.customF, 30.0)))
    else q
  }

  /** Today's measurement entry from the form: a missing waist stays empty,
      a missing hip or body fat is 0. */
  function MeasurementOf(form: ProfileForm, today: Day): MeasurementEntry {
    MeasurementEntry(today, if Truthy(form.waist) then form.waist else None,
                     NumOr(form.hip, 0.0), NumOr(form.fat, 0.0))
  }

  /** The profile `save` writes: the form, then, when the weight is tracked,
      the weight and measurement upserts for today. */
  function SavedProfile(p: Profile, form: ProfileForm, trackWeight: bool, today: Day): (r: Profile)
    ensures !trackWeight ==> r == FormApplied(p, form)
    ensures trackWeight ==> r.weightHistory.Some? && SortedByDate(r.weightHistory.value)
    ensures trackWeight ==> WeightEntry(today, r.weight) in r.weightHistory.value
    ensures trackWeight ==>
              r.weightHistory == Some(WeightUpsert(FormApplied(p, form).weightHistory.GetOr([]), today, r.weight))
    ensures trackWeight ==>
              r.measurementsHistory ==
              Some(MeasurementUpsert(FormApplied(p, form).measurementsHistory, MeasurementOf(form, today)))
    ensures trackWeight ==> r.measurementsHistory.Some? && |r.measurementsHistory.value| >= 1 &&
                            r.measurementsHistory.value[|r.measurementsHistory.value| - 1] == MeasurementOf(form, today)
    ensures r.(weightHistory := p.weightHistory, measurementsHistory := p.measurementsHistory) ==
            FormApplied(p, form).(weightHistory := p.weightHistory, measurementsHistory := p.measurementsHistory)
  {
    var q := FormApplied(p, form);
    if trackWeight then
      var w := WeightUpsert(q.weightHistory.GetOr([]), today, q.weight);
      var m := MeasurementUpsert(q.measurementsHistory, MeasurementOf(form, today));
      assert WeightEntry(today, q.weight) in multiset(w);
      q.(weightHistory := Some(w), measurementsHistory := Some(m))
    else q
  }

  /** A save with weight tracking leaves today exactly one weight entry, the
      saved weight, and every other date exactly the entries it had. */
  lemma SavedWeightDates(p: Profile, form: ProfileForm, today: Day)
    ensures var r := SavedProfile(p, form, true, today);
            r.weightHistory.Some? && multiset(r.weightHistory.value)[WeightEntry(today, r.weight)] == 1
    ensures var r := SavedProfile(p, form, true, today);
            forall e: WeightEntry :: e.date != today ==>
              multiset(r.weightHistory.value)[e] == multiset(p.weightHistory.GetOr([]))[e]
  {
    var q := FormApplied(p, form);
    WeightUpsertDates(q.weightHistory.GetOr([]), today, q.weight);
  }

  /** `Profile.save`: writes the form onto the stored profile, then runs the
      badge and streak effect of the refresh it triggers. */
  method Save(db: Ledger, form: ProfileForm, trackWeight: bool, now: Timestamp)
    modifies db`profile
    ensures db.profile == Gamification.EffectsStored(
              Some(SavedProfile(old(db.GetProfile()), form, trackWeight, DayOf(now))),
              |db.GetMeals()|, TodayWater(db.dayStats, DayOf(now)), now)
  {
    var p := db.GetProfile();
    p := p.(name := form.name);
    p := p.(weight := NumOr(form.weight, p.weight));
    p := p.(height := NumOr(form.height, p.height));
    p := p.(age := NumOr(form.age, p.age));
    p := p.(gender := form.gender);
    p := p.(strategy := form.strategy);
    p := p.(target := NumOr(form.target, 2000.0));
    p := p.(fiberTarget := NumOr(form.fiber, 25.0));
    if p.strategy == "custom" {
      p := p.(customMacros := p.customMacros.(p := NumOr(form.customP, 30.0)));
      p := p.(customMacros := p.customMacros.(c := NumOr(form.customC, 40.0)));
      p := p.(customMacros := p.customMacros.(f := NumOr(form.customF, 30.0)));
    }
    var today := DayOf(now);
    if trackWeight {
      p := p.(weightHistory := Some(WeightUpsert(p.weightHistory.GetOr([]), today, p.weight)));
      p := p.(measurementsHistory := Some(MeasurementUpsert(p.measurementsHistory, MeasurementOf(form, today))));
    }
    db.profile := Some(p);
    Gamification.RefreshEffects(db, now);
  }

  // ---------------------------------------------------------------------
  // API usage
  // ---------------------------------------------------------------------

  /** The usage metadata of a model reply; either spelling of the token count may be present. */
  datatype UsageMetadata = UsageMetadata(totalTokenCount: Option<int>, totalTokenCountSnake: Option<int>)

  /** `metadata.totalTokenCount || metadata.total_token_count || 0`. */
  function TokenCount(m: UsageMetadata): (n: int)
    ensures m.totalTokenCount.Some? && m.totalTokenCount.value != 0 ==> n == m.totalTokenCount.value
    ensures ((m.totalTokenCount.None? || m.totalTokenCount.value == 0) &&
             m.totalTokenCountSnake.Some? && m.totalTokenCountSnake.value != 0) ==>
              n == m.totalTokenCountSnake.value
    ensures n == 0 <==> (m.totalTokenCount.None? || m.totalTokenCount.value == 0) &&
                        (m.totalTokenCountSnake.None? || m.totalTokenCountSnake.value == 0)
  {
    if m.totalTokenCount.Some? && m.totalTokenCount.value != 0 then m.totalTokenCount.value
    else if m.totalTokenCountSnake.Some? && m.totalTokenCountSnake.value != 0 then m.totalTokenCountSnake.value
    else 0
  }

  /** The counters after one `updateApiUsage(metadata)`: one more request,
      and the reply's tokens when it carried metadata. */
  function UsageAfter(u: Option<ApiUsage>, metadata: Option<UsageMetadata>): (r: ApiUsage)
    ensures r.totalRequests == u.GetOr(ApiUsage(0, 0)).totalRequests + 1
    ensures metadata.None? ==> r.totalTokens == u.GetOr(ApiUsage(0, 0)).totalTokens
    ensures metadata.Some? ==> r.totalTokens == u.GetOr(ApiUsage(0, 0)).totalTokens + TokenCount(metadata.value)
  {
    var base := u.GetOr(ApiUsage(0, 0));
    var tokens := if metadata.Some? then base.totalTokens + TokenCount(metadata.value) else base.totalTokens;
    ApiUsage(tokens, base.totalRequests + 1)
  }

  /** The counters after a run of calls, in order. */
  function UsageAfterAll(u: Option<ApiUsage>, calls: seq<Option<UsageMetadata>>): ApiUsage {
    if calls == [] then u.GetOr(ApiUsage(0, 0))
    else UsageAfter(Some(UsageAfterAll(u, calls[..|calls| - 1])), calls[|calls| - 1])
  }

  function TokensOf(calls: seq<Option<UsageMetadata>>): int {
    if calls == [] then 0
    else TokensOf(calls[..|calls| - 1]) +
         (if calls[|calls| - 1].Some? then TokenCount(calls[|calls| - 1].value) else 0)
  }

  /** The request counter counts every call and the token counter sums the
      reported tokens. */
  lemma {:induction false} UsageCountsCalls(u: Option<ApiUsage>, calls: seq<Option<UsageMetadata>>)
    ensures UsageAfterAll(u, calls).totalRequests == u.GetOr(ApiUsage(0, 0)).totalRequests + |calls|
    ensures UsageAfterAll(u, calls).totalTokens == u.GetOr(ApiUsage(0, 0)).totalTokens + TokensOf(calls)
  {
    if calls != [] {
      UsageCountsCalls(u, calls[..|calls| - 1]);
    }
  }

  /** `updateApiUsage(metadata)` on the stored profile. */
  method UpdateApiUsage(db: Ledger, metadata: Option<UsageMetadata>)
    modifies db`profile
    ensures db.profile == Some(old(db.GetProfile()).(apiUsage := Some(UsageAfter(old(db.GetProfile()).apiUsage, metadata))))
  {
    var p := db.GetProfile();
    var usage := p.apiUsage.GetOr(ApiUsage(0, 0));
    usage := usage.(totalRequests := usage.totalRequests + 1);
    if metadata.Some? {
      usage := usage.(totalTokens := usage.totalTokens + TokenCount(metadata.value));
    }
    db.profile := Some(p.(apiUsage := Some(usage)));
  }
}
