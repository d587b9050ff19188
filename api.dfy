/** The boundary around the model service (js/services/api.js): the credit
    and input gates in front of every request, the remaining macros sent
    with a suggestion, the clean-up and `{…}` extraction of a reply, and
    when the credit is taken. The requests themselves are parameters. */
module Api {
  import opened Wrappers
  import opened Database
  import opened Lists
  import ProfileLogic
  import AppLogic

  // ---------------------------------------------------------------------
  // Remaining macros
  // ---------------------------------------------------------------------

  /** Today's entries (by `dateKey`) of one type. */
  function TodayOf(meals: seq<Meal>, today: Day, kind: MealType): (r: seq<Meal>)
    ensures forall i :: 0 <= i < |r| ==> r[i].dateKey == today && r[i].entry.kind == kind
  {
    Filter(meals, (m: Meal) => m.dateKey == today && m.entry.kind == kind)
  }

  /** A new entry joins today's entries of its type, at the end, and no others. */
  lemma TodayOfSnoc(meals: seq<Meal>, today: Day, kind: MealType, m: Meal)
    ensures TodayOf(meals + [m], today, kind) ==
            TodayOf(meals, today, kind) + (if m.dateKey == today && m.entry.kind == kind then [m] else [])
  {
    assert (meals + [m])[..|meals|] == meals;
  }

  function SumCals(ms: seq<Meal>): real {
    if ms == [] then 0.0 else SumCals(ms[..|ms| - 1]) + ms[|ms| - 1].entry.cals
  }

  function SumMacros(ms: seq<Meal>): Macros {
    if ms == [] then ZeroMacros
    else
      var t := SumMacros(ms[..|ms| - 1]);
      var m := ms[|ms| - 1].entry.macros;
      Macros(t.p + m.p, t.c + m.c, t.f + m.f, t.fib)
  }

  /** One more entry adds its calories and macros to the sums. */
  lemma SumsSnoc(ms: seq<Meal>, m: Meal)
    ensures SumCals(ms + [m]) == SumCals(ms) + m.entry.cals
    ensures var t, u := SumMacros(ms + [m]), SumMacros(ms);
            t.p == u.p + m.entry.macros.p && t.c == u.c + m.entry.macros.c && t.f == u.f + m.entry.macros.f
  {
    assert (ms + [m])[..|ms|] == ms;
  }

  function Max0(x: real): real {
    if x > 0.0 then x else 0.0
  }

  /** What is left for today. */
  datatype Remaining = Remaining(cals: real, p: real, c: real, f: real)

  /** `rem`: the calorie target minus the net intake, which may go
      negative, and each macro goal minus what was eaten, never below 0.
      Only entries typed 'food' count as eaten, only 'exercise' as burned. */
  function RemainingFor(p: Profile, meals: seq<Meal>, today: Day): (r: Remaining)
    ensures r.cals == p.target - (SumCals(TodayOf(meals, today, Food)) - SumCals(TodayOf(meals, today, Exercise)))
    ensures r.cals > p.target <==> SumCals(TodayOf(meals, today, Exercise)) > SumCals(TodayOf(meals, today, Food))
    ensures r.p >= 0.0 && r.c >= 0.0 && r.f >= 0.0
    ensures var goals := ProfileLogic.CalculateMacros(p);
            var eaten := SumMacros(TodayOf(meals, today, Food));
            (eaten.p <= goals.p as real ==> r.p == goals.p as real - eaten.p) &&
            (eaten.p >= goals.p as real ==> r.p == 0.0) &&
            (eaten.c <= goals.c as real ==> r.c == goals.c as real - eaten.c) &&
            (eaten.c >= goals.c as real ==> r.c == 0.0) &&
            (eaten.f <= goals.f as real ==> r.f == goals.f as real - eaten.f) &&
            (eaten.f >= goals.f as real ==> r.f == 0.0)
  {
    var food := TodayOf(meals, today, Food);
    var burned := SumCals(TodayOf(meals, today, Exercise));
    var eaten := SumMacros(food);
    var goals := ProfileLogic.CalculateMacros(p);
    Remaining(p.target - (SumCals(food) - burned),
              Max0(goals.p as real - eaten.p), Max0(goals.c as real - eaten.c), Max0(goals.f as real - eaten.f))
  }

  /** Logging a food entry for today lowers the calories left by exactly
      its calories, unclamped, and with non-negative macros never raises
      what is left of a macro. */
  lemma FoodLowersRemaining(p: Profile, meals: seq<Meal>, today: Day, m: Meal)
    requires m.dateKey == today && m.entry.kind == Food
    requires m.entry.macros.p >= 0.0 && m.entry.macros.c >= 0.0 && m.entry.macros.f >= 0.0
    ensures var before := RemainingFor(p, meals, today);
            var after := RemainingFor(p, meals + [m], today);
            after.cals == before.cals - m.entry.cals &&
            after.p <= before.p && after.c <= before.c && after.f <= before.f
  {
    TodayOfSnoc(meals, today, Food, m);
    TodayOfSnoc(meals, today, Exercise, m);
    assert TodayOf(meals, today, Exercise) + [] == TodayOf(meals, today, Exercise);
    SumsSnoc(TodayOf(meals, today, Food), m);
  }

  /** Logging exercise for today raises the calories left by what it
      burned and leaves the macros left as they were. */
  lemma ExerciseRaisesRemaining(p: Profile, meals: seq<Meal>, today: Day, m: Meal)
    requires m.dateKey == today && m.entry.kind == Exercise
    ensures var before := RemainingFor(p, meals, today);
            var after := RemainingFor(p, meals + [m], today);
            after == before.(cals := before.cals + m.entry.cals)
  {
    TodayOfSnoc(meals, today, Food, m);
    TodayOfSnoc(meals, today, Exercise, m);
    assert TodayOf(meals, today, Food) + [] == TodayOf(meals, today, Food);
    SumsSnoc(TodayOf(meals, today, Exercise), m);
  }

  // ---------------------------------------------------------------------
  // Reply clean-up
  // ---------------------------------------------------------------------

  /** `s.replace(/pat/g, '')` for a literal pattern: matches removed left
      to right, without overlap. */
  function RemoveAll(s: string, pat: string): (r: string)
    requires pat != []
    ensures |r| <= |s|
    decreases |s|
  {
    if |s| < |pat| then s
    else if s[..|pat|] == pat then RemoveAll(s[|pat|..], pat)
    else [s[0]] + RemoveAll(s[1..], pat)
  }

  const Fence: string := "```"

  /** The reply text with every "```json" and then every "```" removed. */
  function StripFences(s: string): string {
    RemoveAll(RemoveAll(s, "```json"), Fence)
  }

  /** No three backticks in a row. */
  predicate NoFence(t: string) {
    forall j :: 0 <= j && j + 2 < |t| ==> !(t[j] == '`' && t[j + 1] == '`' && t[j + 2] == '`')
  }

  /** What removing fences keeps at the front: a leading backtick, or two,
      of the result were already there in the text. */
  lemma {:induction false} FenceFreeFront(s: string)
    ensures var r := RemoveAll(s, Fence);
            (|r| >= 1 && r[0] == '`' ==> |s| >= 1 && s[0] == '`') &&
            (|r| >= 2 && r[0] == '`' && r[1] == '`' ==> |s| >= 2 && s[0] == '`' && s[1] == '`')
    decreases |s|
  {
    if |s| >= 3 {
      if s[..3] == Fence {
        FenceFreeFront(s[3..]);
      } else {
        FenceFreeFront(s[1..]);
      }
    }
  }

  /** Removing "```" leaves no "```": a run of backticks keeps fewer than three. */
  lemma {:induction false} RemoveFencesComplete(s: string)
    ensures NoFence(RemoveAll(s, Fence))
    decreases |s|
  {
    if |s| >= 3 {
      if s[..3] == Fence {
        RemoveFencesComplete(s[3..]);
      } else {
        var rest := RemoveAll(s[1..], Fence);
        RemoveFencesComplete(s[1..]);
        FenceFreeFront(s[1..]);
        var r := [s[0]] + rest;
        forall j | 0 <= j && j + 2 < |r|
          ensures !(r[j] == '`' && r[j + 1] == '`' && r[j + 2] == '`')
        {
          if j > 0 {
            assert r[j] == rest[j - 1] && r[j + 1] == rest[j] && r[j + 2] == rest[j + 1];
          }
        }
      }
    }
  }

  /** A cleaned reply holds no code fence at all. */
  lemma StripFencesComplete(s: string)
    ensures NoFence(StripFences(s))
  {
    RemoveFencesComplete(RemoveAll(s, "```json"));
  }

  /** A text whose pattern's first character never occurs is left alone. */
  lemma {:induction false} RemoveAllAbsent(s: string, pat: string)
    requires pat != [] && pat[0] !in s
    ensures RemoveAll(s, pat) == s
    decreases |s|
  {
    if |s| >= |pat| {
      assert s[..|pat|][0] == s[0];
      RemoveAllAbsent(s[1..], pat);
      assert s == [s[0]] + s[1..];
    }
  }

  /** A reply without backticks is not changed by the clean-up. */
  lemma StripFencesPlain(s: string)
    requires '`' !in s
    ensures StripFences(s) == s
  {
    RemoveAllAbsent(s, "```json");
    RemoveAllAbsent(s, Fence);
  }

  // ---------------------------------------------------------------------
  // `{…}` extraction
  // ---------------------------------------------------------------------

  /** The first position of `c` in `s`. */
  function FirstIndex(s: string, c: char): (r: Option<nat>)
    ensures r.None? <==> c !in s
    ensures r.Some? ==> r.value < |s| && s[r.value] == c && c !in s[..r.value]
  {
    if s == [] then None
    else if s[0] == c then Some(0)
    else
      var t := FirstIndex(s[1..], c);
      if t.None? then None
      else
        assert s[..t.value + 1] == [s[0]] + s[1..][..t.value];
        Some(t.value + 1)
  }

  /** The last position of `c` in `s`. */
  function LastIndex(s: string, c: char): (r: Option<nat>)
    ensures r.None? <==> c !in s
    ensures r.Some? ==> r.value < |s| && s[r.value] == c && c !in s[r.value + 1..]
  {
    if s == [] then None
    else if s[|s| - 1] == c then Some(|s| - 1)
    else
      var t := LastIndex(s[..|s| - 1], c);
      if t.None? then None
      else
        assert s[t.value + 1..] == s[..|s| - 1][t.value + 1..] + [s[|s| - 1]];
        Some(t.value)
  }

  /** Some '{' stands before some '}'. */
  predicate HasObject(s: string) {
    exists i, k :: 0 <= i < k < |s| && s[i] == '{' && s[k] == '}'
  }

  /** A '{' before a '}' exists exactly when the first '{' comes before the last '}'. */
  lemma ObjectBounds(s: string)
    ensures HasObject(s) <==>
            FirstIndex(s, '{').Some? && LastIndex(s, '}').Some? && FirstIndex(s, '{').value < LastIndex(s, '}').value
  {
    if HasObject(s) {
      var i, k :| 0 <= i < k < |s| && s[i] == '{' && s[k] == '}';
      assert s[i] in s && s[k] in s;
    }
  }

  /** `txt.match(/\{[\s\S]*\}/)[0]`: from the first '{' to the last '}'. */
  function ExtractObject(s: string): (r: Option<string>)
    ensures r.None? <==> !HasObject(s)
    ensures r.Some? ==> var i, k := FirstIndex(s, '{').value, LastIndex(s, '}').value;
                        i < k && r.value == s[i..k + 1]
    ensures r.Some? ==> |r.value| >= 2 && r.value[0] == '{' && r.value[|r.value| - 1] == '}'
  {
    ObjectBounds(s);
    var i := FirstIndex(s, '{');
    var k := LastIndex(s, '}');
    if i.Some? && k.Some? && i.value < k.value then Some(s[i.value..k.value + 1]) else None
  }

  // ---------------------------------------------------------------------
  // Requests
  // ---------------------------------------------------------------------

  /** `imgSrc && imgSrc.startsWith('data:image')`. */
  predicate HasImage(src: string) {
    |src| >= 10 && src[..10] == "data:image"
  }

  /** What came back from a request: whether the reply has a first
      candidate, the text of its first part when the path to it exists, and
      its usage metadata. */
  datatype ModelReply = ModelReply(hasCandidate: bool, text: Option<string>, usage: Option<ProfileLogic.UsageMetadata>)

  /** Why an action stopped. `RequestFailed` is a request or a reply body
      that did not arrive; `NoCandidate` a reply without a first candidate or
      text; `NoJson` a text with no `{…}`; `BadJson` one that does not parse. */
  datatype Failure = NoCredits | NoInput | RequestFailed | NoCandidate | NoJson | BadJson

  datatype Outcome<T> = Failed(why: Failure) | Succeeded(value: T)

  /** Clean-up, extraction and `JSON.parse` of a reply text. */
  function Decode<T>(text: string, parse: string -> Option<T>): (o: Outcome<T>)
    ensures o == Failed(NoJson) <==> !HasObject(StripFences(text))
    ensures o.Succeeded? ==> exists obj :: ExtractObject(StripFences(text)) == Some(obj) && parse(obj) == Some(o.value)
    ensures o.Failed? ==> o.why == NoJson || o.why == BadJson
  {
    match ExtractObject(StripFences(text))
    case None => Failed(NoJson)
    case Some(obj) =>
      match parse(obj)
      case None => Failed(BadJson)
      case Some(v) => Succeeded(v)
  }

  /** The parsed object of a meal analysis: its `items`, when present. */
  datatype ParsedMeal = ParsedMeal(items: Option<seq<ReviewItem>>)

  /** The outcome of `analyzeAI`: credits are checked first, then the input. */
  function AnalyzeOutcome(credits: int, desc: string, imgSrc: string, reply: Option<ModelReply>,
                          parse: string -> Option<ParsedMeal>): (o: Outcome<seq<ReviewItem>>)
    ensures o == Failed(NoCredits) <==> credits <= 0
    ensures o == Failed(NoInput) <==> credits > 0 && desc == "" && !HasImage(imgSrc)
    ensures o.Succeeded? ==> reply.Some? && reply.value.hasCandidate && reply.value.text.Some? &&
                             exists m :: Decode(reply.value.text.value, parse) == Succeeded(m) && o.value == m.items.GetOr([])
  {
    if credits <= 0 then Failed(NoCredits)
    else if desc == "" && !HasImage(imgSrc) then Failed(NoInput)
    else if reply.None? then Failed(RequestFailed)
    else if !reply.value.hasCandidate || reply.value.text.None? then Failed(NoCandidate)
    else match Decode(reply.value.text.value, parse)
      case Failed(why) => Failed(why)
      case Succeeded(m) => Succeeded(m.items.GetOr([]))
  }

  /** The profile `analyzeAI` writes last: the snapshot read before the
      request with one credit less. */
  function Charged(p: Profile): (r: Profile)
    ensures r.credits == p.credits - 1
    ensures r.(credits := p.credits) == p
  {
    p.(credits := p.credits - 1)
  }

  /** `analyzeAI` with the description, the preview image source, the
      reply to its request and the `JSON.parse` of a text. Every failure
      leaves the profile and the review list alone. On success the usage
      counters are updated and the review list set, and then the snapshot
      read before the request is written back with one credit less, so
      the stored usage counters end as they were before the call. */
  method AnalyzeAI(db: Ledger, app: AppLogic.App, desc: string, imgSrc: string, reply: Option<ModelReply>,
                   parse: string -> Option<ParsedMeal>) returns (o: Outcome<seq<ReviewItem>>)
    modifies db`profile, app`reviewItems
    ensures o == AnalyzeOutcome(old(db.GetProfile()).credits, desc, imgSrc, reply, parse)
    ensures o.Failed? ==> db.profile == old(db.profile) && app.reviewItems == old(app.reviewItems)
    ensures o.Succeeded? ==> app.reviewItems == o.value && db.profile == Some(Charged(old(db.GetProfile())))
  {
    var p := db.GetProfile();
    if p.credits <= 0 {
      return Failed(NoCredits);
    }
    if desc == "" && !HasImage(imgSrc) {
      return Failed(NoInput);
    }
    if reply.None? {
      return Failed(RequestFailed);
    }
    var json := reply.value;
    if !json.hasCandidate || json.text.None? {
      return Failed(NoCandidate);
    }
    var txt := StripFences(json.text.value);
    var jsonMatch := ExtractObject(txt);
    if jsonMatch.None? {
      return Failed(NoJson);
    }
    var result := parse(jsonMatch.value);
    if result.None? {
      return Failed(BadJson);
    }
    ProfileLogic.UpdateApiUsage(db, json.usage);
    app.InitReview(result.value.items);
    db.profile := Some(Charged(p));
    o := Succeeded(result.value.items.GetOr([]));
  }

  /** A successful analysis takes exactly one credit and, because the
      snapshot is written last, leaves every other profile field, the usage
      counters included, as it was. */
  lemma AnalyzeKeepsUsage(p: Profile)
    ensures Charged(p).apiUsage == p.apiUsage
    ensures Charged(p).credits == p.credits - 1
    ensures Charged(p) != p.(apiUsage := Some(ProfileLogic.UsageAfter(p.apiUsage, None))).(credits := p.credits - 1)
  {
  }

  /** What `fridgeClearoutAI` produces: the recipe text and the calories
      left for today that the prompt quotes. */
  datatype Recipe = Recipe(text: string, remainingCals: real)

  /** The outcome of `fridgeClearoutAI`: the input is checked before the credits. */
  function FridgeOutcome(p: Profile, meals: seq<Meal>, today: Day, ingredients: string, imgSrc: string,
                         reply: Option<ModelReply>): (o: Outcome<Recipe>)
    ensures o == Failed(NoInput) <==> ingredients == "" && !HasImage(imgSrc)
    ensures o == Failed(NoCredits) <==> !(ingredients == "" && !HasImage(imgSrc)) && p.credits <= 0
    ensures o.Succeeded? ==> o.value.remainingCals == RemainingFor(p, meals, today).cals
  {
    if ingredients == "" && !HasImage(imgSrc) then Failed(NoInput)
    else if p.credits <= 0 then Failed(NoCredits)
    else if reply.None? then Failed(RequestFailed)
    else if !reply.value.hasCandidate || reply.value.text.None? then Failed(NoCandidate)
    else Succeeded(Recipe(reply.value.text.value, RemainingFor(p, meals, today).cals))
  }

  /** `fridgeClearoutAI` at day `today`. A reply that arrives always updates
      the usage counters; a recipe then writes the snapshot with one credit
      less over that update. */
  method FridgeClearout(db: Ledger, today: Day, ingredients: string, imgSrc: string, reply: Option<ModelReply>)
    returns (o: Outcome<Recipe>)
    modifies db`profile
    ensures o == FridgeOutcome(old(db.GetProfile()), old(db.GetMeals()), today, ingredients, imgSrc, reply)
    ensures o.Succeeded? ==> db.profile == Some(Charged(old(db.GetProfile())))
    ensures o == Failed(NoCandidate) ==>
              db.profile == Some(old(db.GetProfile()).(apiUsage := Some(ProfileLogic.UsageAfter(old(db.GetProfile()).apiUsage, reply.value.usage))))
    ensures o.Failed? && o.why != NoCandidate ==> db.profile == old(db.profile)
  {
    if ingredients == "" && !HasImage(imgSrc) {
      return Failed(NoInput);
    }
    var p := db.GetProfile();
    if p.credits <= 0 {
      return Failed(NoCredits);
    }
    var rem := RemainingFor(p, db.GetMeals(), today).cals;
    if reply.None? {
      return Failed(RequestFailed);
    }
    var json := reply.value;
    ProfileLogic.UpdateApiUsage(db, json.usage);
    if !json.hasCandidate || json.text.None? {
      return Failed(NoCandidate);
    }
    db.profile := Some(Charged(p));
    o := Succeeded(Recipe(json.text.value, rem));
  }

  /** The parsed object of an exercise estimate: its `cals` and `desc`. */
  datatype Estimate = Estimate(cals: Option<real>, desc: Option<string>)

  /** The outcome of `analyzeExerciseAI`: the description is checked before the credits. */
  function ExerciseOutcome(credits: int, desc: string, reply: Option<ModelReply>,
                           parse: string -> Option<Estimate>): (o: Outcome<Estimate>)
    ensures o == Failed(NoInput) <==> desc == ""
    ensures o == Failed(NoCredits) <==> desc != "" && credits <= 0
    ensures o.Succeeded? ==> reply.Some? && reply.value.hasCandidate && reply.value.text.Some? &&
                             Decode(reply.value.text.value, parse) == o
  {
    if desc == "" then Failed(NoInput)
    else if credits <= 0 then Failed(NoCredits)
    else if reply.None? then Failed(RequestFailed)
    else if !reply.value.hasCandidate || reply.value.text.None? then Failed(NoCandidate)
    else Decode(reply.value.text.value, parse)
  }

  /** `analyzeExerciseAI`: only a reply without a first candidate updates
      the usage counters; an estimate writes the snapshot with one credit less. */
  method AnalyzeExercise(db: Ledger, desc: string, reply: Option<ModelReply>, parse: string -> Option<Estimate>)
    returns (o: Outcome<Estimate>)
    modifies db`profile
    ensures o == ExerciseOutcome(old(db.GetProfile()).credits, desc, reply, parse)
    ensures o.Succeeded? ==> db.profile == Some(Charged(old(db.GetProfile())))
    ensures o.Failed? && reply.Some? && !reply.value.hasCandidate && desc != "" && old(db.GetProfile()).credits > 0 ==>
              db.profile == Some(old(db.GetProfile()).(apiUsage := Some(ProfileLogic.UsageAfter(old(db.GetProfile()).apiUsage, reply.value.usage))))
    ensures o.Failed? && !(reply.Some? && !reply.value.hasCandidate && desc != "" && old(db.GetProfile()).credits > 0) ==>
              db.profile == old(db.profile)
  {
    var p := db.GetProfile();
    if desc == "" {
      return Failed(NoInput);
    }
    if p.credits <= 0 {
      return Failed(NoCredits);
    }
    if reply.None? {
      return Failed(RequestFailed);
    }
    var json := reply.value;
    if !json.hasCandidate {
      ProfileLogic.UpdateApiUsage(db, json.usage);
      return Failed(NoCandidate);
    }
    if json.text.None? {
      return Failed(NoCandidate);
    }
    o := Decode(json.text.value, parse);
    if o.Succeeded? {
      db.profile := Some(Charged(p));
    }
  }

  /** `suggestMeal` at day `today`: no credits stops it; otherwise the
      remaining macros the prompt quotes. Nothing is written. */
  method SuggestMeal(db: Ledger, today: Day) returns (rem: Option<Remaining>)
    ensures rem.None? <==> db.GetProfile().credits <= 0
    ensures rem.Some? ==> rem.value == RemainingFor(db.GetProfile(), db.GetMeals(), today)
  {
    var p := db.GetProfile();
    if p.credits <= 0 {
      return None;
    }
    rem := Some(RemainingFor(p, db.GetMeals(), today));
  }

  /** Every action refuses without credits, and the refusal never spends one:
      `analyzeAI` reports the credits before the input, the fridge and the
      exercise estimate report the input first. */
  lemma GateOrder(p: Profile, meals: seq<Meal>, today: Day, imgSrc: string, reply: Option<ModelReply>,
                  parseMeal: string -> Option<ParsedMeal>, parseEx: string -> Option<Estimate>)
    requires p.credits <= 0 && !HasImage(imgSrc)
    ensures AnalyzeOutcome(p.credits, "", imgSrc, reply, parseMeal) == Failed(NoCredits)
    ensures FridgeOutcome(p, meals, today, "", imgSrc, reply) == Failed(NoInput)
    ensures ExerciseOutcome(p.credits, "", reply, parseEx) == Failed(NoInput)
    ensures forall d :: d != "" ==> ExerciseOutcome(p.credits, d, reply, parseEx) == Failed(NoCredits)
  {
  }
}
