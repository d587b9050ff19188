/** The local ledger: the records the app keeps in browser storage and the
    accessors that read them with lazy defaults (js/data/database.js). */
module Database {
  import opened Wrappers

  /** A calendar day as a day number: yesterday is `today - 1`. */
  type Day = int
  /** Milliseconds since the epoch (`Date.now()`). */
  type Timestamp = int
  type MealId = int

  const MsPerDay: int := 86400000
  const MsPerHour: int := 3600000

  /** The calendar day a timestamp falls on (the source formats it as YYYY-MM-DD). */
  function DayOf(ts: Timestamp): Day {
    ts / MsPerDay
  }

  /** The hour of the day of a timestamp (`new Date(ts).getHours()`). */
  function HourOf(ts: Timestamp): (h: int)
    ensures 0 <= h < 24
  {
    (ts / MsPerHour) % 24
  }

  /** JavaScript truthiness of a number read from a form or a record:
      a missing value or NaN (None) and 0 are falsy. */
  predicate Truthy(x: Option<real>) {
    x.Some? && x.value != 0.0
  }

  /** `x || fallback` on a number. */
  function NumOr(x: Option<real>, fallback: real): (r: real)
    ensures Truthy(x) ==> r == x.value
    ensures !Truthy(x) ==> r == fallback
  {
    if Truthy(x) then x.value else fallback
  }

  /** `Math.round`: halves round up. */
  function Round(x: real): (r: int)
    ensures x - 0.5 < r as real <= x + 0.5
  {
    (x + 0.5).Floor
  }

  // ---------------------------------------------------------------------
  // Records
  // ---------------------------------------------------------------------

  datatype Macros = Macros(p: real, c: real, f: real, fib: real)
  const ZeroMacros := Macros(0.0, 0.0, 0.0, 0.0)

  datatype Micros = Micros(sodium: real, sugar: real, potassium: real)
  const ZeroMicros := Micros(0.0, 0.0, 0.0)

  /** The `type` field of a ledger entry; Untyped is an entry with neither tag. */
  datatype MealType = Food | Exercise | Untyped

  /** What the caller of `addMealToDB` supplies. */
  datatype Entry = Entry(
    timestamp: Timestamp,
    desc: string,
    kind: MealType,
    cals: real,
    weight: Option<real>,
    macros: Macros,
    micros: Option<Micros>,
    category: string,
    score: Option<real>)

  /** A stored ledger entry: an id and a day key in front of the entry. */
  datatype Meal = Meal(id: MealId, dateKey: Day, entry: Entry)

  /** The argument of `addMealToDB`: its own `id`/`dateKey`, if it has them,
      win over the generated ones because the spread comes last. */
  datatype MealData = MealData(id: Option<MealId>, dateKey: Option<Day>, entry: Entry)

  datatype DayStat = DayStat(water: real, fastingStart: Option<Timestamp>, fastingMinutes: Option<real>)

  /** The entry `getDayStats` creates for a day without one. */
  const FreshDayStat := DayStat(0.0, None, None)

  datatype MicroTargets = MicroTargets(sodium: real, sugar: real)
  datatype CustomMacros = CustomMacros(p: real, c: real, f: real)
  datatype WeightEntry = WeightEntry(date: Day, weight: real)
  datatype MeasurementEntry = MeasurementEntry(date: Day, waist: Option<real>, hip: real, fatPct: real)
  datatype ApiUsage = ApiUsage(totalTokens: int, totalRequests: int)

  datatype Profile = Profile(
    name: string,
    weight: real,
    height: real,
    age: real,
    gender: string,
    target: real,
    fiberTarget: real,
    strategy: string,
    microTargets: Option<MicroTargets>,
    customMacros: CustomMacros,
    credits: int,
    xp: int,
    level: int,
    badges: seq<string>,
    achievements: Option<seq<string>>,
    streakDays: int,
    lastActivity: Option<Timestamp>,
    weightHistory: Option<seq<WeightEntry>>,
    measurementsHistory: Option<seq<MeasurementEntry>>,
    apiUsage: Option<ApiUsage>,
    onboardingDone: bool)

  const DefaultMicroTargets := MicroTargets(2300.0, 50.0)

  /** The profile `getProfile` returns when nothing is stored. It has no
      `achievements_unlocked`, `streak_days` or `last_activity_timestamp`;
      a missing `streak_days` behaves as 0 everywhere the core reads it. */
  const DefaultProfile := Profile(
    name := "", weight := 70.0, height := 170.0, age := 30.0, gender := "male",
    target := 2000.0, fiberTarget := 25.0, strategy := "balanced",
    microTargets := Some(DefaultMicroTargets),
    customMacros := CustomMacros(30.0, 40.0, 30.0),
    credits := 50, xp := 0, level := 1, badges := [],
    achievements := None, streakDays := 0, lastActivity := None,
    weightHistory := Some([]), measurementsHistory := Some([]),
    apiUsage := None, onboardingDone := false)

  /** A review item as the estimator returns it and the review screen edits it.
      Numbers are what `parseFloat` would make of the field: None for a
      missing or unparseable one. */
  datatype ReviewItem = ReviewItem(
    desc: string,
    weight: Option<real>,
    cals: Option<real>,
    macros: Option<Macros>,
    micros: Option<Micros>,
    score: Option<real>)

  datatype Combo = Combo(id: int, name: string, items: seq<ReviewItem>)

  datatype Streak = Streak(current: int, lastLogin: Option<Day>, max: int)
  const DefaultStreak := Streak(0, None, 0)

  datatype ShoppingItem = ShoppingItem(name: string, quantity: string, checked: bool)
  datatype ShoppingCategory = ShoppingCategory(category: string, items: seq<ShoppingItem>)

  /** The weekly plan is produced elsewhere and stored as it comes. */
  type PlannerWeek = seq<seq<string>>

  // ---------------------------------------------------------------------
  // Lazy defaulting
  // ---------------------------------------------------------------------

  /** The three sub-records `getProfile` guarantees. */
  predicate Filled(p: Profile) {
    p.microTargets.Some? && p.measurementsHistory.Some? && p.weightHistory.Some?
  }

  /** `getProfile`'s migration: fills a missing `microTargets`,
      `measurementsHistory` or `weightHistory` and nothing else. */
  function Normalize(p: Profile): (r: Profile)
    ensures Filled(r)
    ensures Filled(p) ==> r == p
    ensures r.(microTargets := p.microTargets,
               measurementsHistory := p.measurementsHistory,
               weightHistory := p.weightHistory) == p
    ensures p.microTargets.None? ==> r.microTargets == Some(DefaultMicroTargets)
    ensures p.measurementsHistory.None? ==> r.measurementsHistory == Some([])
    ensures p.weightHistory.None? ==> r.weightHistory == Some([])
  {
    p.(microTargets := if p.microTargets.Some? then p.microTargets else Some(DefaultMicroTargets),
       measurementsHistory := if p.measurementsHistory.Some? then p.measurementsHistory else Some([]),
       weightHistory := if p.weightHistory.Some? then p.weightHistory else Some([]))
  }

  /** `getProfile` on the stored profile (None: absent or unreadable). */
  function ProfileOf(stored: Option<Profile>): (r: Profile)
    ensures Filled(r)
    ensures stored.None? ==> r == DefaultProfile
    ensures stored.Some? ==> r == Normalize(stored.value)
  {
    Normalize(stored.GetOr(DefaultProfile))
  }

  /** `getDayStats`: the stored map with a zeroed entry for today added
      when today has none; nothing is written back. */
  function StatsWithToday(stored: Option<map<Day, DayStat>>, today: Day): (r: map<Day, DayStat>)
    ensures today in r
    ensures forall d :: d != today ==> (d in r <==> d in stored.GetOr(map[]))
    ensures forall d :: d in stored.GetOr(map[]) ==> d in r && r[d] == stored.GetOr(map[])[d]
    ensures today !in stored.GetOr(map[]) ==> r[today] == FreshDayStat
  {
    var all := stored.GetOr(map[]);
    if today in all then all else all[today := FreshDayStat]
  }

  /** Today's water as `DB.getDayStats()[today].water` reads it. */
  function TodayWater(stored: Option<map<Day, DayStat>>, today: Day): real {
    StatsWithToday(stored, today)[today].water
  }

  lemma {:induction false} EmptyStoreDefaults(today: Day)
    ensures ProfileOf(None).level == 1 && ProfileOf(None).xp == 0
    ensures ProfileOf(None).credits == 50 && ProfileOf(None).target == 2000.0
    ensures ProfileOf(None).strategy == "balanced"
    ensures ProfileOf(None).weightHistory == Some([]) && ProfileOf(None).measurementsHistory == Some([])
    ensures StatsWithToday(None, today) == map[today := FreshDayStat]
    ensures TodayWater(None, today) == 0.0
  {
  }

  // ---------------------------------------------------------------------
  // The stored records
  // ---------------------------------------------------------------------

  /** One field per storage key, holding the decoded value (None: absent
      or unreadable). Every mutator of the app re-reads a field, changes
      the value and assigns it back, as the source does with `DB.set`. */
  class Ledger {
    var profile: Option<Profile>
    var meals: Option<seq<Meal>>
    var dayStats: Option<map<Day, DayStat>>
    var streak: Option<Streak>
    var combos: Option<seq<Combo>>
    var planner: Option<PlannerWeek>
    var shoppingList: Option<seq<ShoppingCategory>>

    constructor ()
      ensures profile == None && meals == None && dayStats == None && streak == None
      ensures combos == None && planner == None && shoppingList == None
    {
      profile, meals, dayStats, streak := None, None, None, None;
      combos, planner, shoppingList := None, None, None;
    }

    function GetProfile(): Profile
      reads this
    {
      ProfileOf(profile)
    }

    /** `getMeals`: the whole unfiltered ledger, [] when absent. */
    function GetMeals(): seq<Meal>
      reads this
    {
      meals.GetOr([])
    }

    function GetDayStats(today: Day): map<Day, DayStat>
      reads this
    {
      StatsWithToday(dayStats, today)
    }

    /** `getStreak`: the legacy streak record, {0, null, 0} when absent. */
    function GetStreak(): Streak
      reads this
    {
      streak.GetOr(DefaultStreak)
    }

    function GetCombos(): seq<Combo>
      reads this
    {
      combos.GetOr([])
    }
  }
}
