/** The earlier single-file revision of the engine (app.js): a level table
    with cumulative XP, a separate streak record, badges kept in
    `p.badges`, the XP bar, and the single-item review. */
module Legacy {
  import opened Wrappers
  import opened Database
  import opened Lists
  import Gamification
  import AppLogic

  // ---------------------------------------------------------------------
  // Profile defaulting
  // ---------------------------------------------------------------------

  /** The default of the legacy `getProfile`: the current default without
      micro targets. */
  const LegacyDefault := DefaultProfile.(microTargets := None)

  /** The legacy `getProfile`: the stored profile with a missing weight or
      measurement history filled in, or the default. */
  function LegacyProfileOf(stored: Option<Profile>): (r: Profile)
    ensures r.weightHistory.Some? && r.measurementsHistory.Some?
    ensures stored.None? ==> r == LegacyDefault
    ensures stored.Some? ==>
              r.(weightHistory := stored.value.weightHistory, measurementsHistory := stored.value.measurementsHistory) == stored.value
  {
    var p := stored.GetOr(LegacyDefault);
    p.(measurementsHistory := Some(p.measurementsHistory.GetOr([])),
       weightHistory := Some(p.weightHistory.GetOr([])))
  }

  // ---------------------------------------------------------------------
  // Levels
  // ---------------------------------------------------------------------

  /** `Gamification.levels`: the XP at which each level starts. */
  const Levels: seq<int> := [0, 100, 300, 600, 1000, 1500, 2100, 2800, 3600, 5000]

  /** `levels[level] || 999999`: a missing or zero entry gives 999999. */
  function Threshold(level: int): (t: int)
    ensures 0 < level < |Levels| ==> t == Levels[level]
    ensures !(0 < level < |Levels|) ==> t == 999999
  {
    if 0 <= level < |Levels| && Levels[level] != 0 then Levels[level] else 999999
  }

  /** The profile after the legacy `addXP(amount)`: XP accumulates and is
      never reset; reaching the threshold of the current level gives one
      level and 5 credits, however far past it the XP goes. */
  function XpAdded(p: Profile, amount: int): (r: Profile)
    ensures r.xp == p.xp + amount
    ensures r.level == p.level + 1 <==> p.xp + amount >= Threshold(p.level)
    ensures r.level == p.level <==> p.xp + amount < Threshold(p.level)
    ensures r.credits - 5 * r.level == p.credits - 5 * p.level
    ensures r.(xp := p.xp, level := p.level, credits := p.credits) == p
  {
    var q := p.(xp := p.xp + amount);
    if q.xp >= Threshold(p.level) then q.(level := p.level + 1, credits := p.credits + 5) else q
  }

  /** A run of `addXP` calls, in order. */
  function XpRun(p: Profile, amounts: seq<int>): Profile {
    if amounts == [] then p else XpAdded(XpRun(p, amounts[..|amounts| - 1]), amounts[|amounts| - 1])
  }

  function Sum(s: seq<int>): int {
    if s == [] then 0 else Sum(s[..|s| - 1]) + s[|s| - 1]
  }

  /** Over a run of calls the XP is the sum of the amounts, at most one level
      is gained per call, and every level gained paid exactly 5 credits. */
  lemma {:induction false} XpRunSpec(p: Profile, amounts: seq<int>)
    ensures XpRun(p, amounts).xp == p.xp + Sum(amounts)
    ensures p.level <= XpRun(p, amounts).level <= p.level + |amounts|
    ensures XpRun(p, amounts).credits - 5 * XpRun(p, amounts).level == p.credits - 5 * p.level
  {
    if amounts != [] {
      XpRunSpec(p, amounts[..|amounts| - 1]);
    }
  }

  /** Past the table every threshold is 999999, so once the XP is there
      each further call with a non-negative amount gives another level. */
  lemma PastTableLevelsEveryCall(p: Profile, amount: int)
    requires p.level >= |Levels| - 1 && p.xp >= 999999 && amount >= 0
    ensures XpAdded(p, amount).level == p.level + 1
    ensures XpAdded(XpAdded(p, amount), amount).level == p.level + 2
  {
  }

  /** `addXP(amount)` on the stored profile. */
  method AddXP(db: Ledger, amount: int)
    modifies db`profile
    ensures db.profile == Some(XpAdded(LegacyProfileOf(old(db.profile)), amount))
  {
    var p := LegacyProfileOf(db.profile);
    p := p.(xp := p.xp + amount);
    var nextLevelXP := Threshold(p.level);
    if p.xp >= nextLevelXP {
      p := p.(level := p.level + 1, credits := p.credits + 5);
    }
    db.profile := Some(p);
  }

  // ---------------------------------------------------------------------
  // XP bar
  // ---------------------------------------------------------------------

  /** `levels[level - 1] || 0`. */
  function LevelBase(level: int): int {
    if 0 <= level - 1 < |Levels| then Levels[level - 1] else 0
  }

  /** `levels[level] || base + 1000`. */
  function LevelNext(level: int): int {
    if 0 <= level < |Levels| && Levels[level] != 0 then Levels[level] else LevelBase(level) + 1000
  }

  /** The next level always lies above the base of the current one. */
  lemma NextAboveBase(level: int)
    ensures LevelNext(level) > LevelBase(level)
  {
  }

  /** The width of the XP bar in percent: the share of the way from the
      level's base to the next level, capped at 100. */
  function Progress(xp: int, level: int): (r: real)
    ensures r <= 100.0
    ensures r == 100.0 <==> xp >= LevelNext(level)
    ensures xp >= LevelBase(level) ==> r >= 0.0
  {
    NextAboveBase(level);
    var base, next := LevelBase(level), LevelNext(level);
    var span := (next - base) as real;
    var share := (xp - base) as real / span;
    assert share * span == (xp - base) as real;
    var progress := share * 100.0;
    if progress < 100.0 then progress else 100.0
  }

  /** More XP never shrinks the bar within a level. */
  lemma ProgressMonotone(x1: int, x2: int, level: int)
    requires x1 <= x2
    ensures Progress(x1, level) <= Progress(x2, level)
  {
    NextAboveBase(level);
    var base, next := LevelBase(level), LevelNext(level);
    var span := (next - base) as real;
    assert (x1 - base) as real / span <= (x2 - base) as real / span;
  }

  // ---------------------------------------------------------------------
  // Streak record
  // ---------------------------------------------------------------------

  /** The streak record after logging in on `today`; None: already logged
      in today, nothing changes. */
  function StreakStepped(s: Streak, today: Day): (r: Option<Streak>)
    ensures r.None? <==> s.lastLogin == Some(today)
    ensures r.Some? ==> r.value.lastLogin == Some(today)
    ensures r.Some? && s.lastLogin == Some(today - 1) ==> r.value.current == s.current + 1
    ensures r.Some? && s.lastLogin != Some(today - 1) ==> r.value.current == 1
    ensures r.Some? ==> r.value.max >= r.value.current && r.value.max >= s.max &&
                        (r.value.max == r.value.current || r.value.max == s.max)
  {
    if s.lastLogin == Some(today) then None
    else
      var current := if s.lastLogin == Some(today - 1) then s.current + 1 else 1;
      Some(Streak(current, Some(today), if current > s.max then current else s.max))
  }

  /** The record after logging in on `n` consecutive days from `first`. */
  function StreakDays(s: Streak, first: Day, n: nat): Streak {
    if n == 0 then s
    else
      var t := StreakDays(s, first, n - 1);
      StreakStepped(t, first + n - 1).GetOr(t)
  }

  /** Logging in on `n` consecutive days after a gap makes a streak of `n`,
      and the best streak is at least `n`. */
  lemma {:induction false} ConsecutiveLogins(s: Streak, first: Day, n: nat)
    requires s.lastLogin != Some(first) && s.lastLogin != Some(first - 1)
    ensures n > 0 ==> StreakDays(s, first, n).current == n && StreakDays(s, first, n).max >= n &&
                      StreakDays(s, first, n).lastLogin == Some(first + n - 1)
  {
    if n > 1 {
      ConsecutiveLogins(s, first, n - 1);
    }
  }

  /** The legacy `checkStreak` on `today`: a new day updates the record and
      awards 10 XP through `addXP`; the same day changes nothing. */
  method CheckStreak(db: Ledger, today: Day)
    modifies db`streak, db`profile
    ensures StreakStepped(old(db.GetStreak()), today).None? ==>
              db.streak == old(db.streak) && db.profile == old(db.profile)
    ensures StreakStepped(old(db.GetStreak()), today).Some? ==>
              db.streak == StreakStepped(old(db.GetStreak()), today) &&
              db.profile == Some(XpAdded(LegacyProfileOf(old(db.profile)), 10))
  {
    var s := db.GetStreak();
    var yesterday := today - 1;
    if s.lastLogin != Some(today) {
      if s.lastLogin == Some(yesterday) {
        s := s.(current := s.current + 1);
      } else {
        s := s.(current := 1);
      }
      s := s.(max := if s.current > s.max then s.current else s.max);
      s := s.(lastLogin := Some(today));
      db.streak := Some(s);
      AddXP(db, 10);
    }
  }

  // ---------------------------------------------------------------------
  // Badges
  // ---------------------------------------------------------------------

  /** The five legacy rules, in the order they are tried. */
  function LegacyRules(mealCount: nat, todayWater: real, streakCurrent: int): (rs: seq<Gamification.Rule>)
    ensures |rs| == 5
  {
    [Gamification.Rule("first_step", mealCount >= 1),
     Gamification.Rule("water_master", todayWater >= 2500.0),
     Gamification.Rule("streak_3", streakCurrent >= 3),
     Gamification.Rule("streak_7", streakCurrent >= 7),
     Gamification.Rule("expert", mealCount >= 50)]
  }

  /** The stored profile after the legacy `checkBadges`: when something was
      unlocked, the entry snapshot with the grown badge list, which
      overwrites the XP of the nested `addXP(50)` calls; otherwise nothing
      is written. */
  function BadgesStored(stored: Option<Profile>, mealCount: nat, todayWater: real, streakCurrent: int): (r: Option<Profile>)
  {
    var p := LegacyProfileOf(stored);
    var u := Gamification.Unlock(p.badges, LegacyRules(mealCount, todayWater, streakCurrent));
    if |u| > |p.badges| then Some(p.(badges := u)) else stored
  }

  /** Badges are never listed twice, every passing rule's badge is held
      afterwards, and the profile keeps its XP, level and credits: the
      50 XP per new badge is lost. */
  lemma BadgesStoredSpec(stored: Option<Profile>, mealCount: nat, todayWater: real, streakCurrent: int)
    requires Gamification.NoDup(LegacyProfileOf(stored).badges)
    ensures var r := LegacyProfileOf(BadgesStored(stored, mealCount, todayWater, streakCurrent));
            var p := LegacyProfileOf(stored);
            var rules := LegacyRules(mealCount, todayWater, streakCurrent);
            Gamification.NoDup(r.badges) &&
            (forall k :: 0 <= k < |rules| && rules[k].passes ==> rules[k].id in r.badges) &&
            r.xp == p.xp && r.level == p.level && r.credits == p.credits
  {
    var p := LegacyProfileOf(stored);
    var rules := LegacyRules(mealCount, todayWater, streakCurrent);
    Gamification.UnlockSpec(p.badges, rules);
  }

  /** The legacy `checkBadges` on `today`. */
  method CheckBadges(db: Ledger, today: Day)
    modifies db`profile
    ensures db.profile == BadgesStored(old(db.profile), |db.GetMeals()|, TodayWater(db.dayStats, today), db.GetStreak().current)
  {
    var p := LegacyProfileOf(db.profile);
    var meals := db.GetMeals();
    var streak := db.GetStreak();
    var rules := LegacyRules(|meals|, db.GetDayStats(today)[today].water, streak.current);
    var held := p.badges;
    var newBadges := 0;
    var i := 0;
    while i < |rules|
      invariant 0 <= i <= |rules|
      invariant p.badges == Gamification.Unlock(held, rules[..i])
      invariant p == LegacyProfileOf(old(db.profile)).(badges := p.badges)
      invariant newBadges == |p.badges| - |held|
      invariant newBadges == 0 ==> db.profile == old(db.profile)
    {
      var r := rules[i];
      Gamification.UnlockStep(held, rules, i);
      if r.passes && r.id !in p.badges {
        p := p.(badges := p.badges + [r.id]);
        newBadges := newBadges + 1;
        AddXP(db, 50);
      }
      i := i + 1;
    }
    assert rules[..|rules|] == rules;
    if newBadges > 0 {
      db.profile := Some(p);
    }
  }

  // ---------------------------------------------------------------------
  // Refresh and the ledger
  // ---------------------------------------------------------------------

  /** The profile and streak after the state effect of the legacy
      `refreshUI`: badges with the streak as it was, then the streak. */
  function Refreshed(profile: Option<Profile>, streak: Option<Streak>, mealCount: nat, todayWater: real, today: Day)
    : (r: (Option<Profile>, Option<Streak>))
    ensures var s := streak.GetOr(DefaultStreak);
            StreakStepped(s, today).None? ==> r.1 == streak
    ensures r.1.Some? ==> r.1.value.max >= r.1.value.current || r.1 == streak
  {
    var afterBadges := BadgesStored(profile, mealCount, todayWater, streak.GetOr(DefaultStreak).current);
    var stepped := StreakStepped(streak.GetOr(DefaultStreak), today);
    if stepped.None? then (afterBadges, streak)
    else (Some(XpAdded(LegacyProfileOf(afterBadges), 10)), stepped)
  }

  /** `refreshUI`'s `checkBadges(); checkStreak()` on `today`. */
  method Refresh(db: Ledger, today: Day)
    modifies db`profile, db`streak
    ensures (db.profile, db.streak) ==
            Refreshed(old(db.profile), old(db.streak), |db.GetMeals()|, TodayWater(db.dayStats, today), today)
  {
    CheckBadges(db, today);
    CheckStreak(db, today);
  }

  /** The fields of the legacy review form as `parseInt` reads them (None:
      not a number). */
  datatype ReviewForm = ReviewForm(desc: string, cals: Option<int>, p: Option<int>, c: Option<int>, f: Option<int>)

  /** `parseInt(v) || 0`. */
  function IntOr0(v: Option<int>): (r: int)
    ensures v.Some? ==> r == v.value
    ensures v.None? ==> r == 0
  {
    if v.Some? && v.value != 0 then v.value else 0
  }

  /** The entry the legacy `confirmReview` logs: a food entry of the current
      category with whole numbers or 0, no fibre and a score of 5. */
  function ReviewEntry(form: ReviewForm, cat: string, now: Timestamp): (e: Entry)
    ensures e.kind == Food && e.timestamp == now && e.category == cat && e.desc == form.desc
    ensures e.score == Some(5.0) && e.macros.fib == 0.0
    ensures e.cals == IntOr0(form.cals) as real
    ensures e.macros.p == IntOr0(form.p) as real && e.macros.c == IntOr0(form.c) as real &&
            e.macros.f == IntOr0(form.f) as real
  {
    Entry(now, form.desc, Food, IntOr0(form.cals) as real, None,
          Macros(IntOr0(form.p) as real, IntOr0(form.c) as real, IntOr0(form.f) as real, 0.0),
          None, cat, Some(5.0))
  }

  /** The legacy `App`: the ledger and the pending single-item review. */
  class LegacyApp {
    const db: Ledger
    var reviewData: Option<ReviewItem>

    constructor (db: Ledger)
      ensures this.db == db && reviewData == None
    {
      this.db := db;
      reviewData := None;
    }

    /** `addMealToDB(data)` on `today`: appends one meal, awards 20 XP, then
        refreshes. */
    method AddMealToDB(data: MealData, freshId: MealId, today: Day)
      modifies db`meals, db`profile, db`streak
      ensures db.meals == Some(old(db.GetMeals()) + [AppLogic.Stamped(data, freshId, today)])
      ensures (db.profile, db.streak) ==
              Refreshed(Some(XpAdded(LegacyProfileOf(old(db.profile)), 20)), old(db.streak),
                        |old(db.GetMeals())| + 1, TodayWater(db.dayStats, today), today)
    {
      var meals := db.GetMeals();
      meals := meals + [Meal(data.id.GetOr(freshId), data.dateKey.GetOr(today), data.entry)];
      db.meals := Some(meals);
      AddXP(db, 20);
      Refresh(db, today);
    }

    /** `deleteMeal(id)` on `today`: drops every meal with that id. */
    method DeleteMeal(id: MealId, today: Day)
      modifies db`meals, db`profile, db`streak
      ensures db.meals == Some(Filter(old(db.GetMeals()), (m: Meal) => m.id != id))
      ensures (db.profile, db.streak) ==
              Refreshed(old(db.profile), old(db.streak), |db.GetMeals()|, TodayWater(db.dayStats, today), today)
    {
      var meals := Filter(db.GetMeals(), (m: Meal) => m.id != id);
      db.meals := Some(meals);
      Refresh(db, today);
    }

    /** `addWater(ml)` at `now`: today's water grows by `ml`, with no floor,
        then the refresh runs on the new total. */
    method AddWater(ml: real, now: Timestamp)
      modifies db`dayStats, db`profile, db`streak
      ensures db.dayStats == Some(AppLogic.WaterAdded(old(db.dayStats), DayOf(now), ml))
      ensures TodayWater(db.dayStats, DayOf(now)) == TodayWater(old(db.dayStats), DayOf(now)) + ml
      ensures (db.profile, db.streak) ==
              Refreshed(old(db.profile), old(db.streak), |db.GetMeals()|, TodayWater(db.dayStats, DayOf(now)), DayOf(now))
    {
      var today := DayOf(now);
      var stats := db.GetDayStats(today);
      stats := stats[today := stats[today].(water := stats[today].water + ml)];
      db.dayStats := Some(stats);
      Refresh(db, today);
    }

    /** `toggleFasting` at `now`; `confirmed` is the answer to the end-fast
        prompt. */
    method ToggleFasting(confirmed: bool, now: Timestamp)
      modifies db`dayStats, db`profile, db`streak
      ensures db.dayStats == Some(AppLogic.FastingToggled(old(db.dayStats), DayOf(now), confirmed, now))
      ensures (db.profile, db.streak) ==
              Refreshed(old(db.profile), old(db.streak), |db.GetMeals()|, TodayWater(db.dayStats, DayOf(now)), DayOf(now))
    {
      var today := DayOf(now);
      var stats := db.GetDayStats(today);
      if stats[today].fastingStart.Some? && stats[today].fastingStart.value != 0 {
        if confirmed {
          stats := stats[today := stats[today].(fastingStart := None)];
        }
      } else {
        stats := stats[today := stats[today].(fastingStart := Some(now))];
      }
      db.dayStats := Some(stats);
      Refresh(db, today);
    }

    /** `cancelReview`: drops the pending review and logs nothing. */
    method CancelReview()
      modifies this`reviewData
      ensures reviewData == None
    {
      reviewData := None;
    }

    /** `confirmReview` with the form as read at `now`: nothing without
        review data; otherwise one meal is logged and the review closed. */
    method ConfirmReview(form: ReviewForm, cat: string, now: Timestamp, freshId: MealId)
      modifies this`reviewData, db`meals, db`profile, db`streak
      ensures old(reviewData).None? ==>
                reviewData == old(reviewData) && db.meals == old(db.meals) &&
                db.profile == old(db.profile) && db.streak == old(db.streak)
      ensures old(reviewData).Some? ==>
                reviewData == None &&
                db.meals == Some(old(db.GetMeals()) + [Meal(freshId, DayOf(now), ReviewEntry(form, cat, now))]) &&
                (db.profile, db.streak) ==
                Refreshed(Some(XpAdded(LegacyProfileOf(old(db.profile)), 20)), old(db.streak),
                          |old(db.GetMeals())| + 1, TodayWater(db.dayStats, DayOf(now)), DayOf(now))
    {
      if reviewData.None? {
        return;
      }
      var finalData := Entry(now, form.desc, Food, IntOr0(form.cals) as real, None,
                             Macros(IntOr0(form.p) as real, IntOr0(form.c) as real, IntOr0(form.f) as real, 0.0),
                             None, cat, Some(5.0));
      AddMealToDB(MealData(None, None, finalData), freshId, DayOf(now));
      reviewData := None;
    }
  }
}
