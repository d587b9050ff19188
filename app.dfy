/** The ledger mutators, the in-memory review list and the daily dashboard
    totals of the app controller (js/app.js). */
module AppLogic {
  import opened Wrappers
  import opened Database
  import opened Lists
  import Gamification

  // ---------------------------------------------------------------------
  // Daily totals
  // ---------------------------------------------------------------------

  datatype Totals = Totals(intake: real, burned: real, p: real, c: real, f: real)
  const NoTotals := Totals(0.0, 0.0, 0.0, 0.0, 0.0)

  /** One step of the totals loop: an exercise entry only adds to `burned`;
      every other entry adds to the intake and to the macros. */
  function AddEntry(t: Totals, m: Meal): Totals {
    if m.entry.kind == Exercise then t.(burned := t.burned + m.entry.cals)
    else t.(intake := t.intake + m.entry.cals,
            p := t.p + m.entry.macros.p, c := t.c + m.entry.macros.c, f := t.f + m.entry.macros.f)
  }

  function TotalsOf(meals: seq<Meal>): Totals {
    if meals == [] then NoTotals else AddEntry(TotalsOf(meals[..|meals| - 1]), meals[|meals| - 1])
  }

  function Plus(a: Totals, b: Totals): Totals {
    Totals(a.intake + b.intake, a.burned + b.burned, a.p + b.p, a.c + b.c, a.f + b.f)
  }

  /** The totals of two runs of entries add up, so the order of the ledger
      does not matter to the dashboard. */
  lemma {:induction false} TotalsAppend(a: seq<Meal>, b: seq<Meal>)
    ensures TotalsOf(a + b) == Plus(TotalsOf(a), TotalsOf(b))
  {
    if b == [] {
      assert a + b == a;
    } else {
      var init := b[..|b| - 1];
      assert (a + b)[..|a + b| - 1] == a + init;
      TotalsAppend(a, init);
    }
  }

  /** Calories left for the day: the target minus the net intake. */
  function Remaining(target: real, t: Totals): real {
    target - (t.intake - t.burned)
  }

  /** Logging food lowers the calories left by its calories; logging
      exercise raises them by the calories burned. */
  lemma {:induction false} RemainingAfterEntry(target: real, meals: seq<Meal>, m: Meal)
    ensures Remaining(target, TotalsOf(meals + [m])) ==
            Remaining(target, TotalsOf(meals)) + (if m.entry.kind == Exercise then m.entry.cals else -m.entry.cals)
  {
    assert (meals + [m])[..|meals|] == meals;
  }

  /** The totals loop of `refreshUI` over today's entries (by `dateKey`). */
  method DailyTotals(meals: seq<Meal>, today: Day) returns (t: Totals)
    ensures t == TotalsOf(Filter(meals, (m: Meal) => m.dateKey == today))
  {
    var todays := Filter(meals, (m: Meal) => m.dateKey == today);
    t := NoTotals;
    var i := 0;
    while i < |todays|
      invariant 0 <= i <= |todays|
      invariant t == TotalsOf(todays[..i])
    {
      var m := todays[i];
      assert todays[..i + 1][..i] == todays[..i];
      if m.entry.kind == Exercise {
        t := t.(burned := t.burned + m.entry.cals);
      } else {
        t := t.(intake := t.intake + m.entry.cals);
        t := t.(p := t.p + m.entry.macros.p, c := t.c + m.entry.macros.c, f := t.f + m.entry.macros.f);
      }
      i := i + 1;
    }
    assert todays[..|todays|] == todays;
  }

  /** What the dashboard shows: calories left, whether the day overran, the totals. */
  datatype Dashboard = Dashboard(remaining: real, overrun: bool, totals: Totals)

  // ---------------------------------------------------------------------
  // Review items
  // ---------------------------------------------------------------------

  /** The fields the review list edits. */
  datatype ReviewField = Desc | Weight | Cals

  /** An item after `updateReviewItem`: a number field stores the parsed
      value or 0, the description stores the raw text; nothing else changes. */
  function EditedItem(item: ReviewItem, field: ReviewField, raw: string, parsed: Option<real>): (r: ReviewItem)
    ensures field == Cals ==> r == item.(cals := Some(NumOr(parsed, 0.0)))
    ensures field == Weight ==> r == item.(weight := Some(NumOr(parsed, 0.0)))
    ensures field == Desc ==> r == item.(desc := raw)
  {
    match field
    case Cals => item.(cals := Some(NumOr(parsed, 0.0)))
    case Weight => item.(weight := Some(NumOr(parsed, 0.0)))
    case Desc => item.(desc := raw)
  }

  /** The position `splice(index, 1)` removes at: a negative index counts
      from the end, clamped at 0. */
  function SpliceStart(len: nat, index: int): (k: nat)
    ensures k <= len
    ensures 0 <= index ==> k == if index < len then index else len
    ensures index < 0 && len + index >= 0 ==> k == len + index
    ensures len + index < 0 ==> k == 0
  {
    if index < 0 then (if len + index < 0 then 0 else len + index)
    else if index < len then index else len
  }

  /** `reviewItems.splice(index, 1)`: removes exactly the item at the
      splice position, or nothing when it is past the end. */
  function Spliced<T>(s: seq<T>, index: int): (r: seq<T>)
    ensures 0 <= index < |s| ==> r == s[..index] + s[index + 1..]
    ensures index >= |s| ==> r == s
    ensures index < 0 && |s| + index >= 0 ==> r == s[..|s| + index] + s[|s| + index + 1..]
    ensures |s| > 0 && index < |s| ==> |r| == |s| - 1
  {
    var k := SpliceStart(|s|, index);
    if k < |s| then s[..k] + s[k + 1..] else s
  }

  /** The item `addManualReviewItem` appends. The template has no fibre key,
      so the meal stored from it has none; the 0 here stands for that
      missing value. */
  const ManualItem := ReviewItem("Novo Item", Some(100.0), Some(100.0), Some(ZeroMacros), Some(ZeroMicros), None)

  /** The review total before rounding: each item's calories, or 0. */
  function SumCals(items: seq<ReviewItem>): real {
    if items == [] then 0.0 else SumCals(items[..|items| - 1]) + NumOr(items[|items| - 1].cals, 0.0)
  }

  lemma {:induction false} SumCalsAppend(a: seq<ReviewItem>, b: seq<ReviewItem>)
    ensures SumCals(a + b) == SumCals(a) + SumCals(b)
  {
    if b == [] {
      assert a + b == a;
    } else {
      var init := b[..|b| - 1];
      assert (a + b)[..|a + b| - 1] == a + init;
      SumCalsAppend(a, init);
    }
  }

  /** The total of a list with one item singled out. */
  lemma SumCalsSplit(a: seq<ReviewItem>, x: ReviewItem, b: seq<ReviewItem>)
    ensures SumCals(a + [x] + b) == SumCals(a) + NumOr(x.cals, 0.0) + SumCals(b)
  {
    SumCalsAppend(a + [x], b);
    SumCalsAppend(a, [x]);
    assert [x][..0] == [];
  }

  /** Removing an item lowers the review total by exactly its calories. */
  lemma SumCalsRemove(items: seq<ReviewItem>, i: nat)
    requires i < |items|
    ensures SumCals(items[..i] + items[i + 1..]) == SumCals(items) - NumOr(items[i].cals, 0.0)
  {
    var before, after := items[..i], items[i + 1..];
    SplitAt(items, i);
    SumCalsSplit(before, items[i], after);
    SumCalsAppend(before, after);
  }

  /** Editing an item's calories moves the review total by the difference. */
  lemma SumCalsEdit(items: seq<ReviewItem>, i: nat, raw: string, parsed: Option<real>)
    requires i < |items|
    ensures SumCals(items[i := EditedItem(items[i], Cals, raw, parsed)]) ==
            SumCals(items) - NumOr(items[i].cals, 0.0) + NumOr(parsed, 0.0)
  {
    var before, after := items[..i], items[i + 1..];
    var e := EditedItem(items[i], Cals, raw, parsed);
    UpdateAt(items, i, e);
    SplitAt(items, i);
    SumCalsSplit(before, e, after);
    SumCalsSplit(before, items[i], after);
    assert NumOr(Some(NumOr(parsed, 0.0)), 0.0) == NumOr(parsed, 0.0);
  }

  // ---------------------------------------------------------------------
  // From review items to ledger entries
  // ---------------------------------------------------------------------

  /** The entry `confirmReview` and `addCombo` make of an item: a food entry
      of the current category at the shared timestamp, with 0 for numbers
      that do not parse, zero macros and micros when missing and a score of
      5 when the item has none. */
  function ItemEntry(item: ReviewItem, cat: string, ts: Timestamp): (e: Entry)
    ensures e.kind == Food && e.timestamp == ts && e.category == cat && e.desc == item.desc
    ensures Truthy(item.cals) ==> e.cals == item.cals.value
    ensures !Truthy(item.cals) ==> e.cals == 0.0
    ensures Truthy(item.weight) ==> e.weight == item.weight
    ensures !Truthy(item.weight) ==> e.weight == Some(0.0)
    ensures item.macros.Some? ==> e.macros == item.macros.value
    ensures item.macros.None? ==> e.macros == ZeroMacros
    ensures item.micros.Some? ==> e.micros == item.micros
    ensures item.micros.None? ==> e.micros == Some(ZeroMicros)
    ensures Truthy(item.score) ==> e.score == item.score
    ensures !Truthy(item.score) ==> e.score == Some(5.0)
  {
    Entry(ts, item.desc, Food, NumOr(item.cals, 0.0), Some(NumOr(item.weight, 0.0)),
          item.macros.GetOr(ZeroMacros), Some(item.micros.GetOr(ZeroMicros)), cat,
          Some(NumOr(item.score, 5.0)))
  }

  /** The meal `addMealToDB` stores: the generated id and today's key come
      first, so fields of the data with the same names win. */
  function Stamped(data: MealData, freshId: MealId, today: Day): (m: Meal)
    ensures m.entry == data.entry
    ensures data.id.None? ==> m.id == freshId
    ensures data.id.Some? ==> m.id == data.id.value
    ensures data.dateKey.None? ==> m.dateKey == today
    ensures data.dateKey.Some? ==> m.dateKey == data.dateKey.value
  {
    Meal(data.id.GetOr(freshId), data.dateKey.GetOr(today), data.entry)
  }

  /** The meals a batch of items appends: one per item, in order, with the
      i-th fresh id, today's key and one shared timestamp. */
  function ItemMeals(items: seq<ReviewItem>, cat: string, now: Timestamp, ids: nat -> MealId): (ms: seq<Meal>)
    ensures |ms| == |items|
    ensures forall i :: 0 <= i < |items| ==>
              ms[i] == Meal(ids(i), DayOf(now), ItemEntry(items[i], cat, now))
  {
    if items == [] then []
    else
      var n := |items| - 1;
      ItemMeals(items[..n], cat, now, ids) + [Meal(ids(n), DayOf(now), ItemEntry(items[n], cat, now))]
  }

  lemma ItemMealsSnoc(items: seq<ReviewItem>, i: nat, cat: string, now: Timestamp, ids: nat -> MealId)
    requires i < |items|
    ensures ItemMeals(items[..i + 1], cat, now, ids) ==
            ItemMeals(items[..i], cat, now, ids) + [Meal(ids(i), DayOf(now), ItemEntry(items[i], cat, now))]
  {
    assert items[..i + 1][..i] == items[..i];
  }

  /** The meals after the `i`-th item's `addMealToDB` are those of `i + 1` items. */
  lemma ItemAdded(items: seq<ReviewItem>, i: nat, cat: string, now: Timestamp, ids: nat -> MealId,
                  meals0: seq<Meal>, meals: seq<Meal>)
    requires i < |items|
    requires meals == (meals0 + ItemMeals(items[..i], cat, now, ids)) +
                      [Stamped(MealData(None, None, ItemEntry(items[i], cat, now)), ids(i), DayOf(now))]
    ensures meals == meals0 + ItemMeals(items[..i + 1], cat, now, ids)
  {
    ItemMealsSnoc(items, i, cat, now, ids);
    AppendAssoc(meals0, ItemMeals(items[..i], cat, now, ids),
                [Meal(ids(i), DayOf(now), ItemEntry(items[i], cat, now))]);
  }

  /** `after` is at most `n` levels above `before`, and every level gained
      paid exactly 5 credits. */
  predicate GainedAtMost(before: Profile, after: Profile, n: nat) {
    before.level <= after.level <= before.level + n &&
    after.credits - 5 * after.level == before.credits - 5 * before.level
  }

  /** The last recorded activity falls on `day`. */
  predicate ActiveOn(p: Profile, day: Day) {
    p.lastActivity.Some? && DayOf(p.lastActivity.value) == day
  }

  /** The stored profile after one `addMealToDB` that brings the ledger to
      `count` meals: 20 XP, then the refresh effect. */
  function MealAwarded(stored: Option<Profile>, count: nat, todayWater: real, now: Timestamp): (r: Option<Profile>)
    ensures ProfileOf(stored).level <= ProfileOf(r).level <= ProfileOf(stored).level + 1
    ensures ProfileOf(r).credits - 5 * ProfileOf(r).level == ProfileOf(stored).credits - 5 * ProfileOf(stored).level
    ensures ProfileOf(r).lastActivity.Some? && DayOf(ProfileOf(r).lastActivity.value) == DayOf(now)
  {
    Gamification.EffectsStored(Some(Gamification.Leveled(ProfileOf(stored), 20)), count, todayWater, now)
  }

  // ---------------------------------------------------------------------
  // Day stats
  // ---------------------------------------------------------------------

  /** Today's entry after `addWater(ml)`: no floor at 0, so a negative amount
      can drive the total below zero; every other day is kept. */
  function WaterAdded(stored: Option<map<Day, DayStat>>, today: Day, ml: real): (r: map<Day, DayStat>)
    ensures today in r
    ensures r[today] == StatsWithToday(stored, today)[today].(water := TodayWater(stored, today) + ml)
    ensures forall d :: d != today ==> (d in r <==> d in StatsWithToday(stored, today))
    ensures forall d :: d != today && d in r ==> r[d] == StatsWithToday(stored, today)[d]
  {
    var stats := StatsWithToday(stored, today);
    stats[today := stats[today].(water := stats[today].water + ml)]
  }

  /** Adding an amount and then its opposite restores today's water. */
  lemma WaterUndo(stored: Option<map<Day, DayStat>>, today: Day, ml: real)
    ensures TodayWater(Some(WaterAdded(Some(WaterAdded(stored, today, ml)), today, -ml)), today) ==
            TodayWater(stored, today)
    ensures WaterAdded(Some(WaterAdded(stored, today, ml)), today, -ml) == StatsWithToday(stored, today)
  {
    var s := StatsWithToday(stored, today);
    var twice := WaterAdded(Some(WaterAdded(stored, today, ml)), today, -ml);
    assert twice.Keys == s.Keys;
  }

  /** Today's entry after `toggleFasting`: an active fast (a truthy start)
      ends only when confirmed, without recording minutes; otherwise a fast
      starts now. */
  function FastingToggled(stored: Option<map<Day, DayStat>>, today: Day, confirmed: bool, now: Timestamp): (r: map<Day, DayStat>)
    ensures var before := StatsWithToday(stored, today)[today];
            var active := before.fastingStart.Some? && before.fastingStart.value != 0;
            today in r &&
            r[today] == (if !active then before.(fastingStart := Some(now))
                         else if confirmed then before.(fastingStart := None)
                         else before)
    ensures forall d :: d != today ==> (d in r <==> d in StatsWithToday(stored, today))
    ensures forall d :: d != today && d in r ==> r[d] == StatsWithToday(stored, today)[d]
  {
    var stats := StatsWithToday(stored, today);
    var s := stats[today];
    if s.fastingStart.Some? && s.fastingStart.value != 0 then
      if confirmed then stats[today := s.(fastingStart := None)] else stats
    else stats[today := s.(fastingStart := Some(now))]
  }

  /** Starting a fast and then confirming its end restores the day's entry
      when no fast was active. */
  lemma FastingToggleUndo(stored: Option<map<Day, DayStat>>, today: Day, t1: Timestamp, t2: Timestamp)
    requires StatsWithToday(stored, today)[today].fastingStart == None
    requires t1 != 0
    ensures FastingToggled(Some(FastingToggled(stored, today, true, t1)), today, true, t2) ==
            StatsWithToday(stored, today)
  {
    var s := StatsWithToday(stored, today);
    var twice := FastingToggled(Some(FastingToggled(stored, today, true, t1)), today, true, t2);
    assert twice.Keys == s.Keys;
  }

  // ---------------------------------------------------------------------
  // String trimming for combo names
  // ---------------------------------------------------------------------

  /** The white space `String.prototype.trim` removes. */
  predicate IsSpace(c: char) {
    c in {' ', '\t', '\n', '\r', '\U{000B}', '\U{000C}', '\U{00A0}', '\U{1680}', '\U{2028}',
          '\U{2029}', '\U{202F}', '\U{205F}', '\U{3000}', '\U{FEFF}'}
    || ('\U{2000}' <= c <= '\U{200A}')
  }

  function TrimStart(s: string): (r: string)
    ensures |r| <= |s| && r == s[|s| - |r|..]
    ensures forall i :: 0 <= i < |s| - |r| ==> IsSpace(s[i])
    ensures r != [] ==> !IsSpace(r[0])
  {
    if s != [] && IsSpace(s[0]) then
      var r := TrimStart(s[1..]);
      assert forall i :: 1 <= i < |s| - |r| ==> s[i] == s[1..][i - 1];
      r
    else s
  }

  function TrimEnd(s: string): (r: string)
    ensures |r| <= |s| && r == s[..|r|]
    ensures forall i :: |r| <= i < |s| ==> IsSpace(s[i])
    ensures r != [] ==> !IsSpace(r[|r| - 1])
  {
    if s != [] && IsSpace(s[|s| - 1]) then
      var r := TrimEnd(s[..|s| - 1]);
      assert forall i :: |r| <= i < |s| - 1 ==> s[i] == s[..|s| - 1][i];
      r
    else s
  }

  /** `trim()`: a name is blank exactly when it is all white space. */
  function Trim(s: string): (r: string)
    ensures r == [] <==> forall i :: 0 <= i < |s| ==> IsSpace(s[i])
    ensures r != [] ==> !IsSpace(r[0]) && !IsSpace(r[|r| - 1])
  {
    TrimBlank(s);
    TrimEnd(TrimStart(s))
  }

  lemma TrimBlank(s: string)
    ensures TrimEnd(TrimStart(s)) == [] <==> forall i :: 0 <= i < |s| ==> IsSpace(s[i])
    ensures TrimEnd(TrimStart(s)) != [] ==> !IsSpace(TrimStart(s)[0])
  {
    var t := TrimStart(s);
    var k := |s| - |t|;
    if t != [] {
      assert s[k] == t[0];
    }
  }

  /** `combos.find(c => c.id === id)`: the first combo with that id. */
  function FindCombo(combos: seq<Combo>, id: int): (r: Option<Combo>)
    ensures r.None? <==> forall i :: 0 <= i < |combos| ==> combos[i].id != id
    ensures r.Some? ==> exists i :: 0 <= i < |combos| && combos[i] == r.value &&
                          r.value.id == id && forall j :: 0 <= j < i ==> combos[j].id != id
  {
    if combos == [] then None
    else if combos[0].id == id then Some(combos[0])
    else
      var r := FindCombo(combos[1..], id);
      if r.Some? then
        var i :| 0 <= i < |combos| - 1 && combos[1..][i] == r.value && r.value.id == id &&
                 forall j :: 0 <= j < i ==> combos[1..][j].id != id;
        assert combos[i + 1] == r.value;
        r
      else r
  }

  // ---------------------------------------------------------------------
  // The controller
  // ---------------------------------------------------------------------

  /** Why `confirmReview` stopped without saving. */
  datatype ConfirmOutcome = Confirmed | NoItems | BlankComboName

  class App {
    const db: Ledger
    var reviewItems: seq<ReviewItem>

    constructor (db: Ledger)
      ensures this.db == db && reviewItems == []
    {
      this.db := db;
      reviewItems := [];
    }

    /** `refreshUI` at `now`: today's totals for the dashboard, then the
        badge and streak effect. */
    method RefreshUI(now: Timestamp) returns (d: Dashboard)
      modifies db`profile
      ensures var t := TotalsOf(Filter(db.GetMeals(), (m: Meal) => m.dateKey == DayOf(now)));
              d == Dashboard(Remaining(old(db.GetProfile()).target, t),
                             Remaining(old(db.GetProfile()).target, t) < 0.0, t)
      ensures db.profile == Gamification.EffectsStored(old(db.profile), |db.GetMeals()|,
                                                        TodayWater(db.dayStats, DayOf(now)), now)
    {
      var p := db.GetProfile();
      var t := DailyTotals(db.GetMeals(), DayOf(now));
      var remaining := p.target - (t.intake - t.burned);
      d := Dashboard(remaining, remaining < 0.0, t);
      Gamification.RefreshEffects(db, now);
    }

    /** `addMealToDB(data)`: appends one meal, awards 20 XP and refreshes. */
    method AddMealToDB(data: MealData, freshId: MealId, now: Timestamp)
      modifies db`meals, db`profile
      ensures db.meals == Some(old(db.GetMeals()) + [Stamped(data, freshId, DayOf(now))])
      ensures db.profile == MealAwarded(old(db.profile), |old(db.GetMeals())| + 1,
                                        TodayWater(db.dayStats, DayOf(now)), now)
    {
      var meals := db.GetMeals();
      meals := meals + [Meal(data.id.GetOr(freshId), data.dateKey.GetOr(DayOf(now)), data.entry)];
      db.meals := Some(meals);
      Gamification.AddXP(db, 20);
      var _ := RefreshUI(now);
    }

    /** `deleteMeal(id)`: drops every meal with that id, keeping the others in order. */
    method DeleteMeal(id: MealId, now: Timestamp)
      modifies db`meals, db`profile
      ensures db.meals == Some(Filter(old(db.GetMeals()), (m: Meal) => m.id != id))
      ensures db.profile == Gamification.EffectsStored(old(db.profile), |db.GetMeals()|,
                                                        TodayWater(db.dayStats, DayOf(now)), now)
    {
      var meals := Filter(db.GetMeals(), (m: Meal) => m.id != id);
      db.meals := Some(meals);
      var _ := RefreshUI(now);
    }

    /** Appends the meals for `items` one `addMealToDB` at a time: each
        gains at most one level, paying 5 credits per level, and stamps
        today's activity. */
    method AddItems(items: seq<ReviewItem>, cat: string, now: Timestamp, ids: nat -> MealId)
      modifies db`meals, db`profile
      ensures db.GetMeals() == old(db.GetMeals()) + ItemMeals(items, cat, now, ids)
      ensures GainedAtMost(old(db.GetProfile()), db.GetProfile(), |items|)
      ensures |items| > 0 ==> ActiveOn(db.GetProfile(), DayOf(now))
      ensures items == [] ==> db.profile == old(db.profile)
    {
      ghost var meals0, p0 := db.GetMeals(), db.GetProfile();
      var i := 0;
      while i < |items|
        invariant 0 <= i <= |items|
        invariant db.GetMeals() == meals0 + ItemMeals(items[..i], cat, now, ids)
        invariant GainedAtMost(p0, db.GetProfile(), i)
        invariant i > 0 ==> ActiveOn(db.GetProfile(), DayOf(now))
        invariant i == 0 ==> db.profile == old(db.profile)
      {
        AddItem(items, i, cat, now, ids, meals0, p0);
        i := i + 1;
      }
      assert items[..|items|] == items;
    }

    /** One iteration of the item loop: `addMealToDB` of the `i`-th item's entry. */
    method AddItem(items: seq<ReviewItem>, i: nat, cat: string, now: Timestamp, ids: nat -> MealId,
                   ghost meals0: seq<Meal>, ghost p0: Profile)
      requires i < |items|
      requires db.GetMeals() == meals0 + ItemMeals(items[..i], cat, now, ids)
      requires GainedAtMost(p0, db.GetProfile(), i)
      modifies db`meals, db`profile
      ensures db.GetMeals() == meals0 + ItemMeals(items[..i + 1], cat, now, ids)
      ensures GainedAtMost(p0, db.GetProfile(), i + 1)
      ensures ActiveOn(db.GetProfile(), DayOf(now))
    {
      AddMealToDB(MealData(None, None, ItemEntry(items[i], cat, now)), ids(i), now);
      ItemAdded(items, i, cat, now, ids, meals0, db.GetMeals());
    }

    /** `initReview(items)`: the review list becomes the items, or empty. */
    method InitReview(items: Option<seq<ReviewItem>>)
      modifies this`reviewItems
      ensures reviewItems == items.GetOr([])
    {
      reviewItems := items.GetOr([]);
    }

    /** `updateReviewItem(index, field, value)`: a no-op without an item at
        `index`; otherwise only that item's field changes. */
    method UpdateReviewItem(index: int, field: ReviewField, raw: string, parsed: Option<real>)
      modifies this`reviewItems
      ensures 0 <= index < |old(reviewItems)| ==>
                reviewItems == old(reviewItems)[index := EditedItem(old(reviewItems)[index], field, raw, parsed)]
      ensures !(0 <= index < |old(reviewItems)|) ==> reviewItems == old(reviewItems)
    {
      if !(0 <= index < |reviewItems|) {
        return;
      }
      var item := reviewItems[index];
      if field == Cals || field == Weight {
        var v := NumOr(parsed, 0.0);
        item := if field == Cals then item.(cals := Some(v)) else item.(weight := Some(v));
      } else {
        item := item.(desc := raw);
      }
      reviewItems := reviewItems[index := item];
    }

    /** `removeReviewItem(index)`: `splice(index, 1)`. */
    method RemoveReviewItem(index: int)
      modifies this`reviewItems
      ensures reviewItems == Spliced(old(reviewItems), index)
    {
      var k := SpliceStart(|reviewItems|, index);
      if k < |reviewItems| {
        reviewItems := reviewItems[..k] + reviewItems[k + 1..];
      }
    }

    /** `addManualReviewItem`: appends the fixed 100 g / 100 kcal template. */
    method AddManualReviewItem()
      modifies this`reviewItems
      ensures reviewItems == old(reviewItems) + [ManualItem]
    {
      reviewItems := reviewItems + [ManualItem];
    }

    /** `recalculateTotals`: the rounded sum of the items' calories. */
    method RecalculateTotals() returns (total: int)
      ensures total == Round(SumCals(reviewItems))
    {
      var sum := 0.0;
      var i := 0;
      while i < |reviewItems|
        invariant 0 <= i <= |reviewItems|
        invariant sum == SumCals(reviewItems[..i])
      {
        assert reviewItems[..i + 1][..i] == reviewItems[..i];
        sum := sum + NumOr(reviewItems[i].cals, 0.0);
        i := i + 1;
      }
      assert reviewItems[..|reviewItems|] == reviewItems;
      total := Round(sum);
    }

    /** `confirmReview`: nothing is saved without items or, when a combo is
        to be saved, without a non-blank name. Otherwise at most one combo
        holding a copy of the items, then one meal per item sharing one
        timestamp, and the review list empties. */
    method ConfirmReview(saveCombo: bool, comboName: string, comboId: int, cat: string,
                         now: Timestamp, ids: nat -> MealId) returns (outcome: ConfirmOutcome)
      modifies this`reviewItems, db`meals, db`profile, db`combos
      ensures outcome == (if |old(reviewItems)| == 0 then NoItems
                          else if saveCombo && Trim(comboName) == [] then BlankComboName
                          else Confirmed)
      ensures outcome != Confirmed ==>
                reviewItems == old(reviewItems) && db.meals == old(db.meals) &&
                db.profile == old(db.profile) && db.combos == old(db.combos)
      ensures outcome == Confirmed ==> reviewItems == []
      ensures outcome == Confirmed ==>
                db.combos == (if saveCombo then Some(old(db.GetCombos()) + [Combo(comboId, Trim(comboName), old(reviewItems))])
                              else old(db.combos))
      ensures outcome == Confirmed ==>
                db.GetMeals() == old(db.GetMeals()) + ItemMeals(old(reviewItems), cat, now, ids)
      ensures outcome == Confirmed ==>
                GainedAtMost(old(db.GetProfile()), db.GetProfile(), |old(reviewItems)|) &&
                ActiveOn(db.GetProfile(), DayOf(now))
    {
      if |reviewItems| == 0 {
        return NoItems;
      }
      if saveCombo {
        var name := Trim(comboName);
        if name == [] {
          return BlankComboName;
        }
        var combos := db.GetCombos();
        combos := combos + [Combo(comboId, name, reviewItems)];
        db.combos := Some(combos);
      }
      AddItems(reviewItems, cat, now, ids);
      reviewItems := [];
      outcome := Confirmed;
    }

    /** `cancelReview`: the review list empties; nothing is stored. */
    method CancelReview()
      modifies this`reviewItems
      ensures reviewItems == []
    {
      reviewItems := [];
    }

    /** `addCombo(id)`: replays the first combo with that id as meals; an
        unknown id adds nothing. */
    method AddCombo(id: int, cat: string, now: Timestamp, ids: nat -> MealId)
      modifies db`meals, db`profile
      ensures FindCombo(db.GetCombos(), id).None? ==> db.meals == old(db.meals) && db.profile == old(db.profile)
      ensures FindCombo(db.GetCombos(), id).Some? ==>
                var items := FindCombo(db.GetCombos(), id).value.items;
                db.GetMeals() == old(db.GetMeals()) + ItemMeals(items, cat, now, ids) &&
                GainedAtMost(old(db.GetProfile()), db.GetProfile(), |items|) &&
                (|items| > 0 ==> ActiveOn(db.GetProfile(), DayOf(now)))
    {
      var combo := FindCombo(db.GetCombos(), id);
      if combo.None? {
        return;
      }
      AddItems(combo.value.items, cat, now, ids);
    }

    /** `deleteCombo(id)`: after confirmation, drops every combo with that id. */
    method DeleteCombo(id: int, confirmed: bool)
      modifies db`combos
      ensures !confirmed ==> db.combos == old(db.combos)
      ensures confirmed ==> db.combos == Some(Filter(old(db.GetCombos()), (c: Combo) => c.id != id))
    {
      if !confirmed {
        return;
      }
      var combos := Filter(db.GetCombos(), (c: Combo) => c.id != id);
      db.combos := Some(combos);
    }

    /** `addWater(ml)`. */
    method AddWater(ml: real, now: Timestamp)
      modifies db`dayStats, db`profile
      ensures db.dayStats == Some(WaterAdded(old(db.dayStats), DayOf(now), ml))
      ensures db.profile == Gamification.EffectsStored(old(db.profile), |db.GetMeals()|,
                                                        TodayWater(db.dayStats, DayOf(now)), now)
    {
      var today := DayOf(now);
      var stats := db.GetDayStats(today);
      stats := stats[today := stats[today].(water := stats[today].water + ml)];
      db.dayStats := Some(stats);
      var _ := RefreshUI(now);
    }

    /** `toggleFasting`; `confirmed` is the answer to the end-fast prompt. */
    method ToggleFasting(confirmed: bool, now: Timestamp)
      modifies db`dayStats, db`profile
      ensures db.dayStats == Some(FastingToggled(old(db.dayStats), DayOf(now), confirmed, now))
      ensures db.profile == Gamification.EffectsStored(old(db.profile), |db.GetMeals()|,
                                                        TodayWater(db.dayStats, DayOf(now)), now)
    {
      var today := DayOf(now);
      var stats := db.GetDayStats(today);
      if stats[today].fastingStart.Some? && stats[today].fastingStart.value != 0 {
        if confirmed {
          stats := stats[today := stats[today].(fastingStart := None)];
        }
      } else {
        stats := stats[today := stats[today].(fastingStart := Some(now))];
      }
      db.dayStats := Some(stats);
      var _ := RefreshUI(now);
    }
  }
}
