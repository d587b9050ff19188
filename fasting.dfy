/** The manual fasting editor (js/ui/fasting.js): logging a fast that is
    still running or one that has ended, on today's day-stats entry. */
module Fasting {
  import opened Wrappers
  import opened Database
  import Gamification

  /** How `save` ends: the two rejections, a running fast, or a completed
      fast with the length it reports in hours and minutes. */
  datatype Outcome = MissingStart | EndNotAfterStart | Started | Logged(hours: int, minutes: int)

  /** The end field counts only when its timestamp is truthy. */
  predicate HasEnd(end: Option<Timestamp>) {
    end.Some? && end.value != 0
  }

  /** The length of a fast in minutes, as a real number. */
  function Minutes(start: Timestamp, end: Timestamp): real {
    (end - start) as real / 60000.0
  }

  /** The hours and minutes of a positive duration given in minutes, as
      the confirmation message floors them. */
  function Clock(d: real): (hm: (int, int))
    requires d > 0.0
    ensures 0 <= hm.0 && 0 <= hm.1 < 60
    ensures hm.0 * 60 + hm.1 == d.Floor
  {
    var h := (d / 60.0).Floor;
    var m := (d - 60.0 * h as real).Floor;
    assert (d - 60.0 * h as real) + (60 * h) as real == d;
    (h, m)
  }

  /** The outcome of `save` for the two form values (None: an empty field). */
  function OutcomeOf(start: Option<Timestamp>, end: Option<Timestamp>): (o: Outcome)
    ensures o == MissingStart <==> start.None?
    ensures o == EndNotAfterStart <==> start.Some? && HasEnd(end) && end.value <= start.value
    ensures o == Started <==> start.Some? && !HasEnd(end)
    ensures o.Logged? ==> start.Some? && HasEnd(end) && start.value < end.value &&
                          0 <= o.minutes < 60 &&
                          o.hours * 60 + o.minutes == Minutes(start.value, end.value).Floor
  {
    if start.None? then MissingStart
    else if HasEnd(end) && end.value <= start.value then EndNotAfterStart
    else if !HasEnd(end) then Started
    else
      var hm := Clock(Minutes(start.value, end.value));
      Logged(hm.0, hm.1)
  }

  predicate Rejected(o: Outcome) {
    o == MissingStart || o == EndNotAfterStart
  }

  /** The day stats after an accepted `save`: a running fast sets today's
      start and keeps the minutes already logged today; a completed fast
      adds its minutes to today's total and clears the start. */
  function SavedStats(stored: Option<map<Day, DayStat>>, today: Day, start: Timestamp, end: Option<Timestamp>): (r: map<Day, DayStat>)
    ensures today in r
    ensures forall d :: d != today ==> (d in r <==> d in StatsWithToday(stored, today))
    ensures forall d :: d != today && d in r ==> r[d] == StatsWithToday(stored, today)[d]
    ensures r[today].water == TodayWater(stored, today)
  {
    var stats := StatsWithToday(stored, today);
    var s := stats[today];
    if !HasEnd(end) then stats[today := s.(fastingStart := Some(start))]
    else stats[today := s.(fastingMinutes := Some(NumOr(s.fastingMinutes, 0.0) + Minutes(start, end.value)),
                           fastingStart := None)]
  }

  /** A running fast leaves today's logged minutes as they were and makes
      today's fast active from `start`. */
  lemma StartedKeepsMinutes(stored: Option<map<Day, DayStat>>, today: Day, start: Timestamp, end: Option<Timestamp>)
    requires !HasEnd(end)
    ensures SavedStats(stored, today, start, end)[today].fastingMinutes ==
            StatsWithToday(stored, today)[today].fastingMinutes
    ensures SavedStats(stored, today, start, end)[today].fastingStart == Some(start)
  {
  }

  /** A completed fast that ends after it starts strictly increases today's
      logged minutes (a missing total counts as 0), by exactly its length,
      and leaves no fast active. */
  lemma LoggedAddsMinutes(stored: Option<map<Day, DayStat>>, today: Day, start: Timestamp, end: Timestamp)
    requires end != 0 && start < end
    ensures var before := NumOr(StatsWithToday(stored, today)[today].fastingMinutes, 0.0);
            var after := SavedStats(stored, today, start, Some(end))[today].fastingMinutes;
            after.Some? && after.value == before + Minutes(start, end) && after.value > before
    ensures SavedStats(stored, today, start, Some(end))[today].fastingStart == None
  {
  }

  /** Closing a fast by hand overrides a running fast saved earlier the
      same day: the result is as if only the completed fast was saved. */
  lemma LoggedOverridesStarted(stored: Option<map<Day, DayStat>>, today: Day, s1: Timestamp, s2: Timestamp, end: Timestamp)
    requires end != 0
    ensures SavedStats(Some(SavedStats(stored, today, s1, None)), today, s2, Some(end)) ==
            SavedStats(stored, today, s2, Some(end))
  {
    var once := SavedStats(stored, today, s2, Some(end));
    var twice := SavedStats(Some(SavedStats(stored, today, s1, None)), today, s2, Some(end));
    assert twice.Keys == once.Keys;
  }

  /** `Fasting.save` on the form values at time `now`: a rejection changes
      nothing; otherwise the day stats are written and the `refreshUI`
      effect runs. */
  method Save(db: Ledger, start: Option<Timestamp>, end: Option<Timestamp>, now: Timestamp) returns (o: Outcome)
    modifies db`dayStats, db`profile
    ensures o == OutcomeOf(start, end)
    ensures Rejected(o) ==> db.dayStats == old(db.dayStats) && db.profile == old(db.profile)
    ensures !Rejected(o) ==> db.dayStats == Some(SavedStats(old(db.dayStats), DayOf(now), start.value, end))
    ensures !Rejected(o) ==> db.profile == Gamification.EffectsStored(old(db.profile), |db.GetMeals()|,
                                                                      TodayWater(db.dayStats, DayOf(now)), now)
  {
    if start.None? {
      return MissingStart;
    }
    var startTs := start.value;
    if HasEnd(end) && end.value <= startTs {
      return EndNotAfterStart;
    }
    var today := DayOf(now);
    var stats := db.GetDayStats(today);
    if !HasEnd(end) {
      stats := stats[today := stats[today].(fastingStart := Some(startTs))];
      o := Started;
    } else {
      var duration := Minutes(startTs, end.value);
      stats := stats[today := stats[today].(fastingMinutes := Some(NumOr(stats[today].fastingMinutes, 0.0) + duration),
                                            fastingStart := None)];
      var hm := Clock(duration);
      o := Logged(hm.0, hm.1);
    }
    db.dayStats := Some(stats);
    Gamification.RefreshEffects(db, now);
  }
}
