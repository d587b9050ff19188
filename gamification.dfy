/** The XP, level, credit, streak and badge engine over the stored profile
    (js/logic/gamification.js). */
module Gamification {
  import opened Wrappers
  import opened Database

  /** XP a profile of `level` needs to reach the next level. */
  function NextLevelXP(level: int): int {
    level * 500
  }

  /** `calculateTransactionXP(actionType, metadata)`: a base amount per
      action plus the colourful-plate bonus when `metadata.itemCount >= 3`. */
  function TransactionXP(action: string, itemCount: Option<int>): (xp: int)
    ensures var bonus := xp - (if action == "meal_entry" then 50
                               else if action == "combo_entry" || action == "daily_streak" then 100
                               else 0);
            bonus == (if itemCount.Some? && itemCount.value >= 3 then 30 else 0)
    ensures 0 <= xp <= 130
  {
    var base := match action
      case "meal_entry" => 50
      case "combo_entry" => 100
      case "daily_streak" => 100
      case _ => 0;
    if itemCount.Some? && itemCount.value != 0 && itemCount.value >= 3 then base + 30 else base
  }

  /** The profile after `addXP(amount)`: the threshold is tested once, so a
      call levels up at most once however large the amount, and the progress
      bar restarts at 0. */
  function Leveled(p: Profile, amount: int): (r: Profile)
    ensures r.level == p.level || r.level == p.level + 1
    ensures r.level == p.level + 1 <==> p.xp + amount >= NextLevelXP(p.level)
    ensures r.level == p.level ==> r.xp == p.xp + amount && r.credits == p.credits
    ensures r.level == p.level + 1 ==> r.xp == 0 && r.credits == p.credits + 5
    ensures r.credits - 5 * r.level == p.credits - 5 * p.level
    ensures r.(xp := p.xp, level := p.level, credits := p.credits) == p
  {
    var xp := p.xp + amount;
    if xp >= NextLevelXP(p.level) then p.(level := p.level + 1, credits := p.credits + 5, xp := 0)
    else p.(xp := xp)
  }

  /** `n` successive `addXP(amount)` calls, as confirming `n` review items makes. */
  function LeveledTimes(p: Profile, amount: int, n: nat): Profile {
    if n == 0 then p else Leveled(LeveledTimes(p, amount, n - 1), amount)
  }

  /** Each call levels up at most once, so `n` calls gain at most `n` levels;
      credits move in step with the level. */
  lemma {:induction false} LeveledTimesBounds(p: Profile, amount: int, n: nat)
    ensures p.level <= LeveledTimes(p, amount, n).level <= p.level + n
    ensures LeveledTimes(p, amount, n).credits - 5 * LeveledTimes(p, amount, n).level
            == p.credits - 5 * p.level
    ensures LeveledTimes(p, amount, n).(xp := p.xp, level := p.level, credits := p.credits) == p
  {
    if n > 0 {
      LeveledTimesBounds(p, amount, n - 1);
    }
  }

  /** With a non-negative amount that stays below every threshold reached,
      no level is gained and the XP adds up. */
  lemma {:induction false} LeveledTimesBelowThreshold(p: Profile, amount: nat, n: nat)
    requires p.xp + n * amount < NextLevelXP(p.level)
    ensures LeveledTimes(p, amount, n) == p.(xp := p.xp + n * amount)
  {
    if n > 0 {
      assert p.xp + (n - 1) * amount <= p.xp + n * amount;
      LeveledTimesBelowThreshold(p, amount, n - 1);
    }
  }

  /** The profile `checkStreak` writes at `now`, or None when it returns
      early because the last activity was already today. */
  function StreakUpdate(p: Profile, now: Timestamp): (r: Option<Profile>)
    ensures r.None? <==> p.lastActivity.Some? && DayOf(p.lastActivity.value) == DayOf(now)
    ensures r.Some? ==> r.value.lastActivity == Some(now)
    ensures r.Some? && p.lastActivity.Some? && DayOf(p.lastActivity.value) == DayOf(now) - 1 ==>
              r.value.streakDays == p.streakDays + 1 && r.value.xp == p.xp + 100
    ensures r.Some? && !(p.lastActivity.Some? && DayOf(p.lastActivity.value) == DayOf(now) - 1) ==>
              r.value.streakDays == 1 && r.value.xp == p.xp
    ensures r.Some? ==> r.value.level == p.level && r.value.credits == p.credits
    ensures r.Some? ==> r.value.(xp := p.xp, streakDays := p.streakDays, lastActivity := p.lastActivity) == p
  {
    var today := DayOf(now);
    var last := if p.lastActivity.Some? then Some(DayOf(p.lastActivity.value)) else None;
    if last == Some(today) then None
    else if last == Some(today - 1) then
      Some(p.(streakDays := p.streakDays + 1,
              xp := p.xp + TransactionXP("daily_streak", None),
              lastActivity := Some(now)))
    else Some(p.(streakDays := 1, lastActivity := Some(now)))
  }

  /** The profile after one `checkStreak` per day at the given times. */
  function StreakRun(p: Profile, times: seq<Timestamp>): Profile {
    if times == [] then p
    else
      var q := StreakRun(p, times[..|times| - 1]);
      StreakUpdate(q, times[|times| - 1]).GetOr(q)
  }

  /** Checking in on `k` consecutive days right after the last activity
      extends the streak by `k` and earns 100 XP per day, without levelling. */
  lemma {:induction false} ConsecutiveDays(p: Profile, times: seq<Timestamp>)
    requires p.lastActivity.Some?
    requires forall i :: 0 <= i < |times| ==> DayOf(times[i]) == DayOf(p.lastActivity.value) + i + 1
    ensures StreakRun(p, times).streakDays == p.streakDays + |times|
    ensures StreakRun(p, times).xp == p.xp + 100 * |times|
    ensures StreakRun(p, times).level == p.level && StreakRun(p, times).credits == p.credits
    ensures |times| > 0 ==> StreakRun(p, times).lastActivity == Some(times[|times| - 1])
    ensures |times| == 0 ==> StreakRun(p, times) == p
  {
    if |times| > 0 {
      var init := times[..|times| - 1];
      ConsecutiveDays(p, init);
      var q := StreakRun(p, init);
      if |init| > 0 {
        assert DayOf(q.lastActivity.value) == DayOf(times[|times| - 1]) - 1;
      }
    }
  }

  /** One badge rule: its id and whether it holds now. */
  datatype Rule = Rule(id: string, passes: bool)

  /** The five rules of `checkBadges`, in the order they are tried. */
  function Rules(mealCount: nat, todayWater: real, streakDays: int): (rs: seq<Rule>)
    ensures |rs| == 5
    ensures rs[0] == Rule("first_step", mealCount >= 1)
    ensures rs[1] == Rule("water_master", todayWater >= 2500.0)
    ensures rs[2] == Rule("streak_3", streakDays >= 3)
    ensures rs[3] == Rule("streak_7", streakDays >= 7)
    ensures rs[4] == Rule("expert", mealCount >= 50)
  {
    [Rule("first_step", mealCount >= 1),
     Rule("water_master", todayWater >= 2500.0),
     Rule("streak_3", streakDays >= 3),
     Rule("streak_7", streakDays >= 7),
     Rule("expert", mealCount >= 50)]
  }

  predicate NoDup(s: seq<string>) {
    forall i, j :: 0 <= i < j < |s| ==> s[i] != s[j]
  }

  /** The unlocked list after trying `rules` in order: each passing rule's id
      is pushed unless already present. */
  function Unlock(held: seq<string>, rules: seq<Rule>): (r: seq<string>)
    ensures |r| >= |held| && r[..|held|] == held
  {
    if rules == [] then held
    else
      var u := Unlock(held, rules[..|rules| - 1]);
      var last := rules[|rules| - 1];
      if last.passes && last.id !in u then u + [last.id] else u
  }

  /** Every passing rule's id ends up held; what is new comes from a passing
      rule and was not held; no id is pushed twice; and the list grows
      exactly when some passing rule's id was missing. */
  lemma {:induction false} UnlockSpec(held: seq<string>, rules: seq<Rule>)
    ensures var r := Unlock(held, rules);
            (forall k :: 0 <= k < |rules| && rules[k].passes ==> rules[k].id in r) &&
            (forall j :: |held| <= j < |r| ==>
               r[j] !in held && exists k :: 0 <= k < |rules| && rules[k].passes && rules[k].id == r[j]) &&
            (NoDup(held) ==> NoDup(r)) &&
            (|r| == |held| <==> forall k :: 0 <= k < |rules| && rules[k].passes ==> rules[k].id in held)
  {
    if rules != [] {
      var init := rules[..|rules| - 1];
      UnlockSpec(held, init);
      var u := Unlock(held, init);
      var last := rules[|rules| - 1];
      assert forall k :: 0 <= k < |init| ==> rules[k] == init[k];
      if last.passes && last.id !in u {
        var r := u + [last.id];
        assert r[|r| - 1] == rules[|rules| - 1].id;
      }
    }
  }

  /** Trying one more rule: its id is pushed when it passes and is new. */
  lemma UnlockStep(held: seq<string>, rules: seq<Rule>, i: nat)
    requires i < |rules|
    ensures Unlock(held, rules[..i + 1]) ==
            if rules[i].passes && rules[i].id !in Unlock(held, rules[..i])
            then Unlock(held, rules[..i]) + [rules[i].id] else Unlock(held, rules[..i])
  {
    assert rules[..i + 1][..i] == rules[..i];
  }

  /** The stored profile after `checkBadges`. The profile is read once at
      entry; the nested `addXP(50)` calls write the store, but when anything
      was unlocked the entry snapshot is written last, so their XP is lost.
      When nothing was unlocked nothing is written. */
  function BadgesStored(stored: Option<Profile>, mealCount: nat, todayWater: real): (r: Option<Profile>)
    ensures r != stored ==> r.Some? && r.value.badges == r.value.achievements.GetOr([])
    ensures r != stored ==>
              r.value.xp == ProfileOf(stored).xp && r.value.level == ProfileOf(stored).level &&
              r.value.credits == ProfileOf(stored).credits
    ensures r != stored ==> r.value.(achievements := None, badges := []) ==
                              ProfileOf(stored).(achievements := None, badges := [])
  {
    var p := ProfileOf(stored);
    var held := p.achievements.GetOr([]);
    var rules := Rules(mealCount, todayWater, p.streakDays);
    var u := Unlock(held, rules);
    if |u| > |held| then Some(p.(achievements := Some(u), badges := u)) else stored
  }

  /** After `checkBadges` every rule that holds has its badge, and a list
      without repeats stays without repeats. */
  lemma BadgesStoredUnlocks(stored: Option<Profile>, mealCount: nat, todayWater: real)
    ensures var held := ProfileOf(stored).achievements.GetOr([]);
            var after := ProfileOf(BadgesStored(stored, mealCount, todayWater)).achievements.GetOr([]);
            (forall rule :: rule in Rules(mealCount, todayWater, ProfileOf(stored).streakDays) && rule.passes ==>
               rule.id in after) &&
            (NoDup(held) ==> NoDup(after))
  {
    var p := ProfileOf(stored);
    var rules := Rules(mealCount, todayWater, p.streakDays);
    UnlockSpec(p.achievements.GetOr([]), rules);
  }

  /** `addXP`: re-reads the profile, levels it and writes it back. */
  method AddXP(db: Ledger, amount: int)
    modifies db`profile
    ensures db.profile == Some(Leveled(old(db.GetProfile()), amount))
  {
    var p := db.GetProfile();
    db.profile := Some(Leveled(p, amount));
  }

  /** `checkStreak` at `now`. */
  method CheckStreak(db: Ledger, now: Timestamp)
    modifies db`profile
    ensures db.profile == (match StreakUpdate(old(db.GetProfile()), now)
                           case Some(q) => Some(q)
                           case None => old(db.profile))
  {
    var p := db.GetProfile();
    var today := DayOf(now);
    var last := if p.lastActivity.Some? then Some(DayOf(p.lastActivity.value)) else None;
    if last == Some(today) {
      return;
    }
    if last == Some(today - 1) {
      p := p.(streakDays := p.streakDays + 1);
      p := p.(xp := p.xp + TransactionXP("daily_streak", None));
    } else {
      p := p.(streakDays := 1);
    }
    p := p.(lastActivity := Some(now));
    db.profile := Some(p);
  }

  /** `checkBadges` at `now`: one `addXP(50)` per newly unlocked badge, then
      the entry snapshot with the grown list, or no write at all. */
  method CheckBadges(db: Ledger, now: Timestamp)
    modifies db`profile
    ensures db.profile == BadgesStored(old(db.profile), |db.GetMeals()|, TodayWater(db.dayStats, DayOf(now)))
  {
    var p := db.GetProfile();
    var meals := db.GetMeals();
    var streak := p.streakDays;
    var held := p.achievements.GetOr([]);
    var unlocked := held;
    var rules := Rules(|meals|, db.GetDayStats(DayOf(now))[DayOf(now)].water, streak);
    var newBadges := 0;
    var i := 0;
    while i < |rules|
      invariant 0 <= i <= |rules|
      invariant unlocked == Unlock(held, rules[..i])
      invariant newBadges == |unlocked| - |held|
      invariant newBadges == 0 ==> db.profile == old(db.profile)
    {
      var rule := rules[i];
      UnlockStep(held, rules, i);
      if rule.passes && rule.id !in unlocked {
        unlocked := unlocked + [rule.id];
        newBadges := newBadges + 1;
        AddXP(db, 50);
      }
      i := i + 1;
    }
    assert rules[..|rules|] == rules;
    assert rules == Rules(|meals|, TodayWater(db.dayStats, DayOf(now)), ProfileOf(old(db.profile)).streakDays);
    if newBadges > 0 {
      p := p.(achievements := Some(unlocked), badges := unlocked);
      db.profile := Some(p);
    }
  }

  /** The stored profile after the state effect of `refreshUI`: badges
      first, then the streak. Neither step can level up, and afterwards the
      last activity is today. */
  function EffectsStored(stored: Option<Profile>, mealCount: nat, todayWater: real, now: Timestamp): (r: Option<Profile>)
    ensures ProfileOf(r).lastActivity.Some? && DayOf(ProfileOf(r).lastActivity.value) == DayOf(now)
    ensures ProfileOf(r).level == ProfileOf(stored).level
    ensures ProfileOf(r).credits == ProfileOf(stored).credits
  {
    var afterBadges := BadgesStored(stored, mealCount, todayWater);
    match StreakUpdate(ProfileOf(afterBadges), now)
    case Some(q) => Some(q)
    case None => afterBadges
  }

  /** The state effect of every `refreshUI`: `checkBadges` then `checkStreak`. */
  method RefreshEffects(db: Ledger, now: Timestamp)
    modifies db`profile
    ensures db.profile == EffectsStored(old(db.profile), |db.GetMeals()|, TodayWater(db.dayStats, DayOf(now)), now)
  {
    CheckBadges(db, now);
    CheckStreak(db, now);
  }
}
