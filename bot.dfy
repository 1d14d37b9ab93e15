/**
 * The two command handlers of bot.py: `meals`, which groups the planned meals
 * by weekday, and `plan`, which seeds the generator with the ISO year and week,
 * draws seven recipes for each of breakfast, lunch and dinner from one shared
 * set, assigns them to the weekdays and writes the assignment back.
 */
module Bot {
  import opened Base
  import opened Prng
  import opened Utils

  // ---------------------------------------------------------------------------
  // Relation ids: "".join(id.split('-'))
  // ---------------------------------------------------------------------------

  /** `s.split(sep)`: the pieces between separators, empty pieces included. */
  function Split(s: string, sep: char): (parts: seq<string>)
    ensures |parts| >= 1
    ensures forall i :: 0 <= i < |parts| ==> sep !in parts[i]
  {
    if s == [] then [[]]
    else
      var rest := Split(s[1..], sep);
      if s[0] == sep then [[]] + rest else [[s[0]] + rest[0]] + rest[1..]
  }

  /** `sep.join(parts)`. */
  function JoinWith(parts: seq<string>, sep: string): string {
    if parts == [] then []
    else if |parts| == 1 then parts[0]
    else parts[0] + sep + JoinWith(parts[1..], sep)
  }

  /** `s` with every dash removed. */
  function StripDashes(s: string): (r: string)
    ensures |r| <= |s|
    ensures forall c :: c in r <==> c in s && c != '-'
  {
    if s == [] then []
    else (if s[0] == '-' then [] else [s[0]]) + StripDashes(s[1..])
  }

  /** `"".join(s.split('-'))` removes the dashes and nothing else. */
  lemma {:induction false} JoinSplitStripsDashes(s: string)
    ensures JoinWith(Split(s, '-'), "") == StripDashes(s)
  {
    if s != [] {
      var rest := Split(s[1..], '-');
      JoinSplitStripsDashes(s[1..]);
      if s[0] == '-' {
        assert Split(s, '-') == [[]] + rest;
      } else {
        var parts := Split(s, '-');
        assert parts[1..] == rest[1..];
        if |rest| > 1 {
          assert rest == [rest[0]] + rest[1..];
        }
      }
    }
  }

  /** An id without dashes, such as a key of the weekday table, is looked up as it is. */
  lemma {:induction false} StripDashesKeepsPlain(s: string)
    requires '-' !in s
    ensures StripDashes(s) == s
  {
    if s != [] {
      StripDashesKeepsPlain(s[1..]);
    }
  }

  // ---------------------------------------------------------------------------
  // meals
  // ---------------------------------------------------------------------------

  /** A row of the planned-meals query: its title and the ids of the day pages its "When" relation holds. */
  datatype PlannedMeal = PlannedMeal(title: string, when: seq<string>)

  /** One meal scheduled on one weekday. */
  datatype Entry = Entry(day: string, name: string)

  /** The weekday table has an entry for every relation of `meal`, once its dashes are removed. */
  predicate KnownMeal(meal: PlannedMeal, weekdayOf: map<string, string>) {
    forall k :: 0 <= k < |meal.when| ==> StripDashes(meal.when[k]) in weekdayOf
  }

  /** Every lookup of the handler succeeds; otherwise Python raises KeyError. */
  predicate KnownDays(planned: seq<PlannedMeal>, weekdayOf: map<string, string>) {
    forall i :: 0 <= i < |planned| ==> KnownMeal(planned[i], weekdayOf)
  }

  /** The number of relations of the first `n` meals. */
  function RelationCount(planned: seq<PlannedMeal>, n: nat): nat
    requires n <= |planned|
  {
    if n == 0 then 0 else RelationCount(planned, n - 1) + |planned[n - 1].when|
  }

  /** The entries of the first `k` relations of one meal. */
  ghost function MealEntries(meal: PlannedMeal, weekdayOf: map<string, string>, k: nat): (es: seq<Entry>)
    requires k <= |meal.when| && KnownMeal(meal, weekdayOf)
    ensures |es| == k
  {
    if k == 0 then []
    else MealEntries(meal, weekdayOf, k - 1) + [Entry(weekdayOf[StripDashes(meal.when[k - 1])], meal.title)]
  }

  /** The entries of the first `n` meals, in the order the handler visits them. */
  ghost function Entries(planned: seq<PlannedMeal>, weekdayOf: map<string, string>, n: nat): (es: seq<Entry>)
    requires n <= |planned| && KnownDays(planned, weekdayOf)
    ensures |es| == RelationCount(planned, n)
  {
    if n == 0 then []
    else Entries(planned, weekdayOf, n - 1) + MealEntries(planned[n - 1], weekdayOf, |planned[n - 1].when|)
  }

  /** One turn of the inner loop: create the day's list if it is missing, then append the name. */
  function AddEntry(meals: Dict<string, seq<string>>, e: Entry): Dict<string, seq<string>> {
    var withDay := if e.day in meals.values then meals else meals.Put(e.day, []);
    withDay.Put(e.day, withDay.values[e.day] + [e.name])
  }

  /** The dictionary the handler builds from a sequence of entries. */
  ghost function Group(es: seq<Entry>): (meals: Dict<string, seq<string>>) {
    if es == [] then Dict([], map[])
    else AddEntry(Group(es[..|es| - 1]), es[|es| - 1])
  }

  /** The dictionary is well formed: its key list has no repeats and lists exactly its keys. */
  lemma {:induction false} GroupValid(es: seq<Entry>)
    ensures Group(es).Valid()
  {
    if es != [] {
      GroupValid(es[..|es| - 1]);
    }
  }

  lemma GroupSnoc(es: seq<Entry>, e: Entry)
    ensures Group(es + [e]) == AddEntry(Group(es), e)
  {
    assert (es + [e])[..|es|] == es;
  }

  /** The two writes of a turn amount to one: append to the day's list, or start a list at the end of the keys. */
  lemma AddEntryShape(meals: Dict<string, seq<string>>, e: Entry)
    ensures AddEntry(meals, e)
         == if e.day in meals.values then Dict(meals.keys, meals.values[e.day := meals.values[e.day] + [e.name]])
            else Dict(meals.keys + [e.day], meals.values[e.day := [e.name]])
  {
    if e.day !in meals.values {
      assert [] + [e.name] == [e.name];
      assert meals.values[e.day := []][e.day := [] + [e.name]] == meals.values[e.day := [e.name]];
    }
  }

  /** The names of the entries on `day`, in order. */
  ghost function NamesOn(es: seq<Entry>, day: string): seq<string> {
    if es == [] then []
    else NamesOn(es[..|es| - 1], day) + if es[|es| - 1].day == day then [es[|es| - 1].name] else []
  }

  /** A day is a key exactly when some entry falls on it. */
  lemma {:induction false} GroupKeys(es: seq<Entry>, day: string)
    ensures day in Group(es).values <==> exists i :: 0 <= i < |es| && es[i].day == day
  {
    if es != [] {
      var before := es[..|es| - 1];
      var e := es[|es| - 1];
      GroupKeys(before, day);
      AddEntryShape(Group(before), e);
      if exists i :: 0 <= i < |es| && es[i].day == day {
        var i :| 0 <= i < |es| && es[i].day == day;
        if i < |before| {
          assert before[i].day == day;
        }
      }
      if day in Group(before).values {
        var i :| 0 <= i < |before| && before[i].day == day;
        assert es[i].day == day;
      }
    }
  }

  /** A day's list holds the names of the entries on that day, in their order; a day without entries has none. */
  lemma {:induction false} GroupNames(es: seq<Entry>, day: string)
    ensures day in Group(es).values ==> Group(es).values[day] == NamesOn(es, day)
    ensures day !in Group(es).values ==> NamesOn(es, day) == []
  {
    if es != [] {
      var before := es[..|es| - 1];
      var e := es[|es| - 1];
      GroupNames(before, day);
      AddEntryShape(Group(before), e);
      assert NamesOn(es, day) == NamesOn(before, day) + if e.day == day then [e.name] else [];
    }
  }

  /** The total length of the lists of `keys`. */
  ghost function LengthSum(keys: seq<string>, values: map<string, seq<string>>): nat
    requires Elems(keys) <= values.Keys
  {
    if keys == [] then 0
    else LengthSum(keys[..|keys| - 1], values) + |values[keys[|keys| - 1]]|
  }

  /** Changing the list of a day outside `keys` leaves the total unchanged. */
  lemma {:induction false} LengthSumOutside(keys: seq<string>, values: map<string, seq<string>>, day: string, names: seq<string>)
    requires Elems(keys) <= values.Keys && day !in Elems(keys)
    ensures LengthSum(keys, values[day := names]) == LengthSum(keys, values)
  {
    if keys != [] {
      var before := keys[..|keys| - 1];
      assert Elems(before) <= Elems(keys);
      LengthSumOutside(before, values, day, names);
    }
  }

  /** Appending one name to the list of a day that occurs once in `keys` adds one to the total. */
  lemma {:induction false} LengthSumAppend(keys: seq<string>, values: map<string, seq<string>>, day: string, name: string)
    requires Elems(keys) <= values.Keys && Distinct(keys) && day in Elems(keys)
    ensures LengthSum(keys, values[day := values[day] + [name]]) == LengthSum(keys, values) + 1
  {
    var before := keys[..|keys| - 1];
    var last := keys[|keys| - 1];
    assert Elems(before) <= Elems(keys);
    assert keys == before + [last];
    if last == day {
      assert day !in Elems(before);
      LengthSumOutside(before, values, day, values[day] + [name]);
    } else {
      assert day in Elems(before);
      LengthSumAppend(before, values, day, name);
    }
  }

  /** Every entry lands in exactly one list: the lists' total length is the number of entries. */
  lemma {:induction false} GroupTotal(es: seq<Entry>)
    ensures Group(es).Valid()
    ensures LengthSum(Group(es).keys, Group(es).values) == |es|
  {
    GroupValid(es);
    if es != [] {
      var before := es[..|es| - 1];
      var e := es[|es| - 1];
      var meals := Group(before);
      GroupTotal(before);
      assert es == before + [e];
      GroupSnoc(before, e);
      AddEntryShape(meals, e);
      if e.day in meals.values {
        LengthSumAppend(meals.keys, meals.values, e.day, e.name);
      } else {
        var keys := meals.keys + [e.day];
        var values := meals.values[e.day := [e.name]];
        assert keys[..|keys| - 1] == meals.keys;
        LengthSumOutside(meals.keys, meals.values, e.day, [e.name]);
        assert LengthSum(keys, values) == LengthSum(meals.keys, values) + 1;
      }
    }
  }

  /**
   * `meals`: groups the planned meals by weekday. The total length of the lists
   * is the number of relations of all planned meals.
   */
  lemma MealsTotal(planned: seq<PlannedMeal>, weekdayOf: map<string, string>)
    requires KnownDays(planned, weekdayOf)
    ensures var meals := Group(Entries(planned, weekdayOf, |planned|));
      meals.Valid() && LengthSum(meals.keys, meals.values) == RelationCount(planned, |planned|)
  {
    GroupTotal(Entries(planned, weekdayOf, |planned|));
  }

  /** The inner loop of `meals` in isolation: it adds the entries of one meal. */
  method AddMeal(meals: Dict<string, seq<string>>, meal: PlannedMeal, weekdayOf: map<string, string>,
                 ghost es: seq<Entry>)
    returns (result: Dict<string, seq<string>>)
    requires KnownMeal(meal, weekdayOf) && meals == Group(es)
    ensures result == Group(es + MealEntries(meal, weekdayOf, |meal.when|))
  {
    result := meals;
    var name := meal.title;
    var days := meal.when;
    assert es + MealEntries(meal, weekdayOf, 0) == es;
    for k := 0 to |days|
      invariant result == Group(es + MealEntries(meal, weekdayOf, k))
    {
      JoinSplitStripsDashes(days[k]);
      var dayOfTheWeek := weekdayOf[JoinWith(Split(days[k], '-'), "")];
      ghost var before := result;
      if dayOfTheWeek !in result.values {
        result := result.Put(dayOfTheWeek, []);
      }
      result := result.Put(dayOfTheWeek, result.values[dayOfTheWeek] + [name]);
      assert result == AddEntry(before, Entry(dayOfTheWeek, name));
      ghost var done := es + MealEntries(meal, weekdayOf, k);
      assert es + MealEntries(meal, weekdayOf, k + 1) == done + [Entry(dayOfTheWeek, name)];
      GroupSnoc(done, Entry(dayOfTheWeek, name));
    }
  }

  /**
   * The `meals` handler's loop: weekday name to the titles of the meals
   * planned on it, days in order of first appearance, names in query order.
   */
  method GroupPlannedMeals(planned: seq<PlannedMeal>, weekdayOf: map<string, string>) returns (meals: Dict<string, seq<string>>)
    requires KnownDays(planned, weekdayOf)
    ensures meals == Group(Entries(planned, weekdayOf, |planned|))
  {
    meals := Dict([], map[]);
    for i := 0 to |planned|
      invariant meals == Group(Entries(planned, weekdayOf, i))
    {
      meals := AddMeal(meals, planned[i], weekdayOf, Entries(planned, weekdayOf, i));
    }
  }

  // ---------------------------------------------------------------------------
  // The weekly seed: "{year}{week}".format(...)
  // ---------------------------------------------------------------------------

  function DigitChar(d: nat): char
    requires d < 10
  {
    ('0' as int + d) as char
  }

  predicate IsDigits(s: string) {
    forall i :: 0 <= i < |s| ==> '0' <= s[i] <= '9'
  }

  /** `str(n)`: the decimal digits of `n`, without leading zeros. */
  function DecimalString(n: nat): (s: string)
    ensures |s| >= 1 && IsDigits(s)
    ensures s[0] == '0' <==> n == 0
  {
    if n < 10 then [DigitChar(n)] else DecimalString(n / 10) + [DigitChar(n % 10)]
  }

  /** The number a string of decimal digits denotes (`int(s)`). */
  function ParseDecimal(s: string): nat
    requires IsDigits(s)
  {
    if s == [] then 0 else ParseDecimal(s[..|s| - 1]) * 10 + (s[|s| - 1] as int - '0' as int)
  }

  /** Reading the digits back gives the number: `int(str(n)) == n`. */
  lemma {:induction false} ParseDecimalString(n: nat)
    ensures ParseDecimal(DecimalString(n)) == n
  {
    if n >= 10 {
      var s := DecimalString(n);
      ParseDecimalString(n / 10);
      assert s[..|s| - 1] == DecimalString(n / 10);
    }
  }

  /** A four-digit year prints as four characters. */
  lemma FourDigits(n: nat)
    requires 1000 <= n <= 9999
    ensures |DecimalString(n)| == 4
  {
    assert |DecimalString(n / 1000)| == 1;
    assert n / 10 / 10 / 10 == n / 1000;
    assert |DecimalString(n / 100)| == 2 by {
      assert n / 100 / 10 == n / 1000;
    }
    assert |DecimalString(n / 10)| == 3 by {
      assert n / 10 / 10 == n / 100;
    }
  }

  /** The seed string of ISO week `week` of ISO year `year`. */
  function SeedOf(year: nat, week: nat): (seed: string)
    ensures IsDigits(seed) && |seed| >= 2
  {
    DecimalString(year) + DecimalString(week)
  }

  /**
   * For four-digit years the seed names its week: two (year, week) pairs share a
   * seed only when they are the same pair, so different weeks are seeded apart.
   */
  lemma SeedDeterminesWeek(year1: nat, week1: nat, year2: nat, week2: nat)
    requires 1000 <= year1 <= 9999 && 1000 <= year2 <= 9999
    requires SeedOf(year1, week1) == SeedOf(year2, week2)
    ensures year1 == year2 && week1 == week2
  {
    var seed := SeedOf(year1, week1);
    FourDigits(year1);
    FourDigits(year2);
    assert seed[..4] == DecimalString(year1) && seed[..4] == DecimalString(year2);
    assert seed[4..] == DecimalString(week1) && seed[4..] == DecimalString(week2);
    ParseDecimalString(year1);
    ParseDecimalString(year2);
    ParseDecimalString(week1);
    ParseDecimalString(week2);
  }

  // ---------------------------------------------------------------------------
  // plan
  // ---------------------------------------------------------------------------

  /** The keys of `meals_for_the_week`, in its order. */
  const MealNames: seq<string> := ["Breakfast", "Lunch", "Dinner"]

  /** The slot names are already capitalized, so each slot's filter matches its own name. */
  lemma MealNamesCapitalized(k: nat)
    requires k < |MealNames|
    ensures Capitalize(MealNames[k]) == MealNames[k]
  {
    CapitalizeKeeps(MealNames[k]);
  }

  /** `meal_cache`: the filtered recipe table of each meal slot. */
  ghost function MealTables(results: seq<Recipe>): (tables: seq<RecipeTable>) {
    [Filtered(results, MealNames[0]), Filtered(results, MealNames[1]), Filtered(results, MealNames[2])]
  }

  /** Why `plan` stops: the filter found no recipes at all, or a slot's sampler raised. */
  datatype PlanError = NoRecipes | Sampling(error: SampleError)

  /** The state the slot loop has reached: the set each slot drew, the shared set, and the generator position. */
  datatype Progress = Progress(chosen: seq<set<string>>, taken: set<string>, calls: nat)

  /** The slot loop after its first `n` slots, from an empty shared set at generator position `start`. */
  ghost function Slots(tables: seq<RecipeTable>, stream: nat -> nat, start: nat, n: nat): (r: Result<Progress, SampleError>)
    requires n <= |tables|
    ensures r.Ok? ==> |r.value.chosen| == n
  {
    if n == 0 then Ok(Progress([], {}, start))
    else
      match Slots(tables, stream, start, n - 1)
      case Err(e) => Err(e)
      case Ok(p) =>
        var keys := tables[n - 1].keys;
        var run := Sample(keys, p.taken, stream, p.calls);
        if run.failure.Some? then Err(run.failure.value)
        else
          var accepted := Accepted(keys, p.taken, stream, p.calls, run.draws);
          Ok(Progress(p.chosen + [accepted], p.taken + accepted, p.calls + run.draws))
  }

  /** One more slot: the next sampler run either raises or adds its set to the chosen sets and the shared set. */
  lemma SlotsNext(tables: seq<RecipeTable>, stream: nat -> nat, start: nat, n: nat)
    requires n < |tables| && Slots(tables, stream, start, n).Ok?
    ensures var p := Slots(tables, stream, start, n).value;
      var keys := tables[n].keys;
      var run := Sample(keys, p.taken, stream, p.calls);
      var accepted := Accepted(keys, p.taken, stream, p.calls, run.draws);
      Slots(tables, stream, start, n + 1)
        == if run.failure.Some? then Err(run.failure.value)
           else Ok(Progress(p.chosen + [accepted], p.taken + accepted, p.calls + run.draws))
  {
  }

  /** Once a slot's sampler has raised, the later slots are never reached. */
  lemma {:induction false} SlotsStopped(tables: seq<RecipeTable>, stream: nat -> nat, start: nat, n: nat, m: nat)
    requires n <= m <= |tables| && Slots(tables, stream, start, n).Err?
    ensures Slots(tables, stream, start, m) == Slots(tables, stream, start, n)
    decreases m - n
  {
    if n < m {
      SlotsStopped(tables, stream, start, n, m - 1);
    }
  }

  /**
   * The slots the loop fills: seven names each, drawn from the slot's own
   * table, no name in two slots, all of them in the shared set.
   */
  lemma {:induction false} SlotsDisjoint(tables: seq<RecipeTable>, stream: nat -> nat, start: nat, n: nat)
    requires n <= |tables| && Slots(tables, stream, start, n).Ok?
    ensures var p := Slots(tables, stream, start, n).value;
      && (forall i :: 0 <= i < n ==> |p.chosen[i]| == WeekLength && p.chosen[i] <= Elems(tables[i].keys))
      && (forall i :: 0 <= i < n ==> p.chosen[i] <= p.taken)
      && (forall i, j :: 0 <= i < j < n ==> p.chosen[i] !! p.chosen[j])
  {
    if n > 0 {
      var m := n - 1;
      SlotsDisjoint(tables, stream, start, m);
      SlotsGrow(tables, stream, start, m);
      var p := Slots(tables, stream, start, m).value;
      var q := Slots(tables, stream, start, n).value;
      assert forall i :: 0 <= i < m ==> q.chosen[i] == p.chosen[i];
      forall i | 0 <= i < n
        ensures |q.chosen[i]| == WeekLength && q.chosen[i] <= Elems(tables[i].keys) && q.chosen[i] <= q.taken
      {
        if i < m { assert q.chosen[i] == p.chosen[i]; }
      }
      forall i, j | 0 <= i < j < n
        ensures q.chosen[i] !! q.chosen[j]
      {
        if j < m { assert q.chosen[i] == p.chosen[i] && q.chosen[j] == p.chosen[j]; }
        else { assert q.chosen[i] == p.chosen[i] <= p.taken; }
      }
    }
  }

  /** A slot that is filled adds seven new names of its own table, and changes no earlier slot. */
  lemma SlotsGrow(tables: seq<RecipeTable>, stream: nat -> nat, start: nat, m: nat)
    requires m < |tables| && Slots(tables, stream, start, m + 1).Ok?
    ensures Slots(tables, stream, start, m).Ok?
    ensures var p := Slots(tables, stream, start, m).value;
      var q := Slots(tables, stream, start, m + 1).value;
      && q.chosen == p.chosen + [q.chosen[m]]
      && q.taken == p.taken + q.chosen[m]
      && |q.chosen[m]| == WeekLength
      && q.chosen[m] <= Elems(tables[m].keys)
      && q.chosen[m] !! p.taken
  {
    var p := Slots(tables, stream, start, m).value;
    var keys := tables[m].keys;
    SlotsNext(tables, stream, start, m);
    var run := Sample(keys, p.taken, stream, p.calls);
    SampleEnds(keys, p.taken, stream, p.calls);
    SampleAcceptsNewKeys(keys, p.taken, stream, p.calls, run.draws);
  }

  /** Moving one name from the rest of the set to the end of the list keeps the list a listing of what was taken. */
  lemma TakeOne(l: seq<string>, rest: set<string>, s: set<string>, name: string)
    requires Elems(l) + rest == s && Elems(l) !! rest && Distinct(l) && |l| + |rest| == |s|
    requires name in rest
    ensures var l', rest' := l + [name], rest - {name};
      Elems(l') + rest' == s && Elems(l') !! rest' && Distinct(l') && |l'| + |rest'| == |s|
  {
    var l' := l + [name];
    assert Elems(l') == Elems(l) + {name};
    DistinctConcat(l, [name]);
  }

  /** `list(s)`: the members of `s` in an order Python leaves unspecified. */
  method SetToList(s: set<string>) returns (l: seq<string>)
    ensures Elems(l) == s && Distinct(l) && |l| == |s|
  {
    l := [];
    var rest := s;
    while rest != {}
      invariant Elems(l) + rest == s && Elems(l) !! rest && Distinct(l) && |l| + |rest| == |s|
      decreases |rest|
    {
      var name :| name in rest;
      TakeOne(l, rest, s, name);
      l := l + [name];
      rest := rest - {name};
    }
  }

  /** The lists the slot loop stores hold exactly the sets `Slots` describes. */
  ghost predicate ListsMatch(lists: seq<seq<string>>, chosen: seq<set<string>>) {
    |lists| == |chosen| && forall i :: 0 <= i < |lists| ==> Distinct(lists[i]) && Elems(lists[i]) == chosen[i]
  }

  /** Storing one more list keeps the stored lists in step with the chosen sets. */
  lemma ListsMatchSnoc(lists: seq<seq<string>>, chosen: seq<set<string>>, list: seq<string>, names: set<string>)
    requires ListsMatch(lists, chosen) && Distinct(list) && Elems(list) == names
    ensures ListsMatch(lists + [list], chosen + [names])
  {
    var lists', chosen' := lists + [list], chosen + [names];
    forall i | 0 <= i < |lists'|
      ensures Distinct(lists'[i]) && Elems(lists'[i]) == chosen'[i]
    {
      if i < |lists| { assert lists'[i] == lists[i] && chosen'[i] == chosen[i]; }
    }
  }

  /**
   * The slot loop of `plan`: one shared `chosen_meals` set, then
   * `choose_unique_recipes` for each slot in turn, each result turned into a list.
   */
  method ChooseSlots(tables: seq<RecipeTable>, rng: Random) returns (r: Result<seq<seq<string>>, SampleError>)
    modifies rng
    ensures var run := Slots(tables, rng.stream, old(rng.calls), |tables|);
      && (run.Err? ==> r == Err(run.error))
      && (run.Ok? ==> r.Ok? && ListsMatch(r.value, run.value.chosen) && rng.calls == run.value.calls)
  {
    ghost var start := rng.calls;
    var chosenMeals := new NameSet();
    var lists: seq<seq<string>> := [];
    for i := 0 to |tables|
      invariant Slots(tables, rng.stream, start, i).Ok?
      invariant var p := Slots(tables, rng.stream, start, i).value;
        ListsMatch(lists, p.chosen) && chosenMeals.elems == p.taken && rng.calls == p.calls
    {
      ghost var p := Slots(tables, rng.stream, start, i).value;
      ghost var run := Sample(tables[i].keys, p.taken, rng.stream, p.calls);
      ghost var accepted := Accepted(tables[i].keys, p.taken, rng.stream, p.calls, run.draws);
      SlotsNext(tables, rng.stream, start, i);
      var picked := ChooseUniqueRecipes(tables[i], chosenMeals, rng);
      assert chosenMeals.elems == p.taken + accepted && rng.calls == p.calls + run.draws;
      if picked.Err? {
        SlotsStopped(tables, rng.stream, start, i + 1, |tables|);
        return Err(picked.error);
      }
      var list := SetToList(picked.value);
      ListsMatchSnoc(lists, p.chosen, list, accepted);
      lists := lists + [list];
    }
    return Ok(lists);
  }

  /** `sum(lists, [])`: the lists one after another. */
  function Flatten(lists: seq<seq<string>>): (flat: seq<string>) {
    if lists == [] then [] else Flatten(lists[..|lists| - 1]) + lists[|lists| - 1]
  }

  /** With seven names per slot, the name at flat index `7 * s + d` is name `d` of slot `s`. */
  lemma {:induction false} FlattenWeeks(lists: seq<seq<string>>)
    requires forall s :: 0 <= s < |lists| ==> |lists[s]| == WeekLength
    ensures |Flatten(lists)| == WeekLength * |lists|
    ensures forall s, d :: 0 <= s < |lists| && 0 <= d < WeekLength ==> Flatten(lists)[WeekLength * s + d] == lists[s][d]
  {
    if lists != [] {
      var before := lists[..|lists| - 1];
      FlattenWeeks(before);
      assert forall s :: 0 <= s < |before| ==> before[s] == lists[s];
    }
  }

  /** Every name of the flat list comes from one of the lists. */
  lemma {:induction false} FlattenMembers(lists: seq<seq<string>>, name: string)
    requires name in Flatten(lists)
    ensures exists s :: 0 <= s < |lists| && name in lists[s]
  {
    var before := lists[..|lists| - 1];
    var last := lists[|lists| - 1];
    if name in Flatten(before) {
      FlattenMembers(before, name);
      var s :| 0 <= s < |before| && name in before[s];
      assert name in lists[s];
    } else {
      assert name in last;
    }
  }

  /** The flat list of slots drawn from one shared set has no repeated name. */
  lemma {:induction false} FlattenDistinct(lists: seq<seq<string>>)
    requires forall s :: 0 <= s < |lists| ==> Distinct(lists[s])
    requires forall s, t :: 0 <= s < t < |lists| ==> Elems(lists[s]) !! Elems(lists[t])
    ensures Distinct(Flatten(lists))
  {
    if lists != [] {
      var before := lists[..|lists| - 1];
      var last := lists[|lists| - 1];
      FlattenDistinct(before);
      var front := Flatten(before);
      forall name | name in front
        ensures name !in last
      {
        FlattenMembers(before, name);
        var s :| 0 <= s < |before| && name in before[s];
        assert Elems(lists[s]) !! Elems(lists[|lists| - 1]);
        assert name in Elems(lists[s]);
      }
      DistinctConcat(front, last);
    }
  }

  /** The write instructions `plan` computes for the chosen slots and the weekday relation ids `days`. */
  ghost function PlanPages(results: seq<Recipe>, slots: seq<seq<string>>, days: seq<string>): (pages: PageTable)
    requires |days| >= WeekLength
    ensures pages.Valid()
  {
    var flat := Flatten(slots);
    MealMapKeys(flat, days);
    PageRelationsValid(results, flat, DayMap(flat, days, |flat|), |results|);
    PageRelations(results, flat, DayMap(flat, days, |flat|), |results|)
  }

  /**
   * The tail of `plan`, from `days_relation_ids` to `update_notion_with_meals`:
   * flatten the slots, map every chosen name to its weekday relation, compute
   * every page's relation list and send the updates.
   */
  method WriteWeek(results: seq<Recipe>, mealsForTheWeek: seq<seq<string>>, daysRelationIds: seq<string>, client: NotionClient)
    returns (failures: nat)
    requires |daysRelationIds| >= WeekLength
    modifies client
    ensures var pages := PlanPages(results, mealsForTheWeek, daysRelationIds);
      && client.updates == old(client.updates) + Writes(pages, |pages.keys|)
      && failures == FailureCount(pages, client.status, |pages.keys|)
  {
    var flatChosenMeals := Flatten(mealsForTheWeek);
    var chosenMealsToRelationIds := GetMealToRelationId(flatChosenMeals, daysRelationIds);
    MealMapKeys(flatChosenMeals, daysRelationIds);
    var pageToRelationId := GetPageToRelationId(results, flatChosenMeals, chosenMealsToRelationIds);
    failures := UpdateNotionWithMeals(client, pageToRelationId);
  }

  /** What a `plan` run that does not raise leaves: the three slot lists and the number of failed updates. */
  datatype PlanOutcome = PlanOutcome(slots: seq<seq<string>>, failures: nat)

  /**
   * `plan`: seeds the generator with the week, filters the recipe table per
   * slot, draws the slots from one shared set, maps every chosen name to the
   * weekday relation its position selects, and writes a relation list for
   * every page of the recipe table. `weekdays` is the weekday-page table, in
   * its key order; `generator` stands for Python's seeding algorithm.
   */
  method Plan(results: seq<Recipe>, year: nat, week: nat, generator: string -> (nat -> nat),
              weekdays: Dict<string, string>, client: NotionClient)
    returns (r: Result<PlanOutcome, PlanError>)
    requires weekdays.Valid() && |weekdays.keys| == WeekLength
    modifies client
    ensures |results| == 0 ==> r == Err(NoRecipes) && client.updates == old(client.updates)
    ensures |results| > 0 ==>
      var run := Slots(MealTables(results), generator(SeedOf(year, week)), 0, |MealNames|);
      && (run.Err? ==> r == Err(Sampling(run.error)) && client.updates == old(client.updates))
      && (run.Ok? ==>
            && r.Ok?
            && ListsMatch(r.value.slots, run.value.chosen)
            && var pages := PlanPages(results, r.value.slots, weekdays.keys);
            && client.updates == old(client.updates) + Writes(pages, |pages.keys|)
            && r.value.failures == FailureCount(pages, client.status, |pages.keys|))
  {
    var seed := SeedOf(year, week);
    var rng := new Random(generator, seed);
    var breakfast := FilterRecipesForMeal(results, "Breakfast");
    var lunch := FilterRecipesForMeal(results, "Lunch");
    var dinner := FilterRecipesForMeal(results, "Dinner");
    if breakfast.None? || lunch.None? || dinner.None? {
      return Err(NoRecipes);
    }
    var tables := [breakfast.value, lunch.value, dinner.value];
    MealNamesCapitalized(0);
    MealNamesCapitalized(1);
    MealNamesCapitalized(2);
    assert tables == MealTables(results);
    var picked := ChooseSlots(tables, rng);
    if picked.Err? {
      return Err(Sampling(picked.error));
    }
    var mealsForTheWeek := picked.value;
    var failures := WriteWeek(results, mealsForTheWeek, weekdays.keys, client);
    return Ok(PlanOutcome(mealsForTheWeek, failures));
  }

  /** The slot lists of a run that does not raise, drawn from the filtered tables of `results`. */
  ghost predicate PlannedSlots(results: seq<Recipe>, stream: nat -> nat, slots: seq<seq<string>>) {
    var run := Slots(MealTables(results), stream, 0, |MealNames|);
    run.Ok? && ListsMatch(slots, run.value.chosen)
  }

  /** The slot lists, stated on the lists rather than the sets they hold. */
  lemma SlotLists(tables: seq<RecipeTable>, stream: nat -> nat, start: nat, slots: seq<seq<string>>)
    requires Slots(tables, stream, start, |tables|).Ok?
    requires ListsMatch(slots, Slots(tables, stream, start, |tables|).value.chosen)
    ensures |slots| == |tables|
    ensures forall s :: 0 <= s < |slots| ==> |slots[s]| == WeekLength && Distinct(slots[s])
    ensures forall s :: 0 <= s < |slots| ==> Elems(slots[s]) <= Elems(tables[s].keys)
    ensures forall s, t :: 0 <= s < t < |slots| ==> Elems(slots[s]) !! Elems(slots[t])
  {
    SlotsDisjoint(tables, stream, start, |tables|);
    forall s | 0 <= s < |slots|
      ensures |slots[s]| == WeekLength
    {
      DistinctSize(slots[s]);
    }
  }

  /** A chosen name of slot `s` is the title of a recipe carrying the slot's meal tag. */
  lemma SlotNameTagged(results: seq<Recipe>, stream: nat -> nat, slots: seq<seq<string>>, s: nat, d: nat)
    requires PlannedSlots(results, stream, slots)
    requires s < |slots| && d < |slots[s]|
    ensures exists i :: 0 <= i < |results| && results[i].title == slots[s][d] && MealNames[s] in results[i].tags
  {
    var tables := MealTables(results);
    SlotLists(tables, stream, 0, slots);
    assert slots[s][d] in Elems(slots[s]);
    assert slots[s][d] in Elems(tables[s].keys);
    FilteredKeys(results, MealNames[s], slots[s][d]);
  }

  /**
   * A `plan` run that does not raise fills three slots of seven names, and no
   * name is in two slots, so the flat list holds 21 distinct names.
   */
  lemma PlanSlots(results: seq<Recipe>, stream: nat -> nat, slots: seq<seq<string>>)
    requires PlannedSlots(results, stream, slots)
    ensures |slots| == |MealNames|
    ensures forall s :: 0 <= s < |slots| ==> |slots[s]| == WeekLength
    ensures |Flatten(slots)| == |MealNames| * WeekLength && Distinct(Flatten(slots))
  {
    SlotLists(MealTables(results), stream, 0, slots);
    FlattenWeeks(slots);
    FlattenDistinct(slots);
  }

  lemma WeekIndex(s: nat, d: nat)
    requires d < WeekLength
    ensures (WeekLength * s + d) % WeekLength == d
  {
    assert WeekLength * s + d == 7 * s + d;
  }

  /** Name `d` of every slot goes to weekday relation `d`: breakfast, lunch and dinner of a day share it. */
  lemma PlanDays(results: seq<Recipe>, stream: nat -> nat, slots: seq<seq<string>>, days: seq<string>, s: nat, d: nat)
    requires PlannedSlots(results, stream, slots) && |days| >= WeekLength
    requires s < |MealNames| && d < WeekLength
    ensures s < |slots| && d < |slots[s]|
    ensures var flat := Flatten(slots);
      slots[s][d] in DayMap(flat, days, |flat|) && DayMap(flat, days, |flat|)[slots[s][d]] == days[d]
  {
    PlanSlots(results, stream, slots);
    FlattenWeeks(slots);
    var flat := Flatten(slots);
    MealMapDays(flat, days, WeekLength * s + d);
    WeekIndex(s, d);
  }

  /**
   * Every page of the results is written: a chosen recipe gets the one relation
   * of the weekday its position in its slot selects, every other page the
   * empty list.
   */
  lemma PlanWrites(results: seq<Recipe>, stream: nat -> nat, slots: seq<seq<string>>, days: seq<string>, i: nat)
    requires PlannedSlots(results, stream, slots) && |days| >= WeekLength
    requires UniquePages(results) && i < |results|
    ensures forall s :: 0 <= s < |slots| ==> |slots[s]| == WeekLength
    ensures var pages := PlanPages(results, slots, days);
      && results[i].pageId in pages.values
      && (results[i].title !in Flatten(slots) ==> pages.values[results[i].pageId] == [])
      && forall s, d :: 0 <= s < |slots| && 0 <= d < |slots[s]| && slots[s][d] == results[i].title ==>
           pages.values[results[i].pageId] == [RelationRef(days[d])]
  {
    var flat := Flatten(slots);
    var dayOf := DayMap(flat, days, |flat|);
    MealMapKeys(flat, days);
    PlanSlots(results, stream, slots);
    PageRelationsLastWins(results, flat, dayOf, |results|, i);
    forall s, d | 0 <= s < |slots| && 0 <= d < |slots[s]| && slots[s][d] == results[i].title
      ensures PlanPages(results, slots, days).values[results[i].pageId] == [RelationRef(days[d])]
    {
      PlanDays(results, stream, slots, days, s, d);
      assert slots[s][d] in Elems(flat);
    }
  }

  /** Titles do not repeat in the query results. */
  predicate UniqueTitles(results: seq<Recipe>) {
    forall i, j :: 0 <= i < j < |results| ==> results[i].title != results[j].title
  }

  /** The indices of the results whose title is among the chosen names. */
  ghost function ChosenIndices(results: seq<Recipe>, flat: seq<string>): set<nat> {
    set i: nat | i < |results| && results[i].title in flat
  }

  /** The title and the page id of a result, by index. */
  ghost function TitleOf(results: seq<Recipe>): nat -> string {
    (i: nat) => if i < |results| then results[i].title else ""
  }

  ghost function PageOf(results: seq<Recipe>): nat -> string {
    (i: nat) => if i < |results| then results[i].pageId else ""
  }

  /** Every chosen name is the title of some result. */
  lemma ChosenTitles(results: seq<Recipe>, stream: nat -> nat, slots: seq<seq<string>>)
    requires PlannedSlots(results, stream, slots)
    ensures Image(ChosenIndices(results, Flatten(slots)), TitleOf(results)) == Elems(Flatten(slots))
  {
    var flat := Flatten(slots);
    var titleOf := TitleOf(results);
    SlotLists(MealTables(results), stream, 0, slots);
    forall name | name in Elems(flat)
      ensures name in Image(ChosenIndices(results, flat), titleOf)
    {
      FlattenMembers(slots, name);
      var s :| 0 <= s < |slots| && name in slots[s];
      var d :| 0 <= d < |slots[s]| && slots[s][d] == name;
      SlotNameTagged(results, stream, slots, s, d);
      var i :| 0 <= i < |results| && results[i].title == slots[s][d] && MealNames[s] in results[i].tags;
      assert i in ChosenIndices(results, flat) && titleOf(i) == name;
    }
  }

  /** With distinct titles, as many results are chosen as there are chosen names. */
  lemma ChosenCount(results: seq<Recipe>, stream: nat -> nat, slots: seq<seq<string>>)
    requires PlannedSlots(results, stream, slots) && UniqueTitles(results)
    ensures |ChosenIndices(results, Flatten(slots))| == |MealNames| * WeekLength
  {
    var titleOf := TitleOf(results);
    ChosenTitles(results, stream, slots);
    InjectiveImage(ChosenIndices(results, Flatten(slots)), titleOf);
    PlanSlots(results, stream, slots);
    DistinctSize(Flatten(slots));
  }

  /** The pages written with a relation rather than the empty list. */
  ghost function Linked(pages: PageTable): set<string> {
    set page | page in pages.values && |pages.values[page]| == 1
  }

  /** With distinct page ids, the pages that get a relation are the pages of the chosen results. */
  lemma SingletonPages(results: seq<Recipe>, flat: seq<string>, dayOf: map<string, string>)
    requires Covers(results, flat, dayOf) && UniquePages(results)
    ensures Linked(PageRelations(results, flat, dayOf, |results|)) == Image(ChosenIndices(results, flat), PageOf(results))
  {
    var pages := PageRelations(results, flat, dayOf, |results|);
    var pageOf := PageOf(results);
    forall page | page in Linked(pages)
      ensures page in Image(ChosenIndices(results, flat), pageOf)
    {
      PageRelationsKeys(results, flat, dayOf, |results|, page);
      var i :| 0 <= i < |results| && results[i].pageId == page;
      PageRelationsLastWins(results, flat, dayOf, |results|, i);
      assert i in ChosenIndices(results, flat);
    }
    forall i | i in ChosenIndices(results, flat)
      ensures pageOf(i) in pages.values && |pages.values[pageOf(i)]| == 1
    {
      PageRelationsLastWins(results, flat, dayOf, |results|, i);
    }
  }

  /**
   * With page ids and titles that do not repeat, exactly 21 pages get a
   * relation: one per chosen recipe.
   */
  lemma PlanSingletons(results: seq<Recipe>, stream: nat -> nat, slots: seq<seq<string>>, days: seq<string>)
    requires PlannedSlots(results, stream, slots) && |days| >= WeekLength
    requires UniquePages(results) && UniqueTitles(results)
    ensures |Linked(PlanPages(results, slots, days))| == |MealNames| * WeekLength
  {
    var flat := Flatten(slots);
    var dayOf := DayMap(flat, days, |flat|);
    MealMapKeys(flat, days);
    var pageOf := PageOf(results);
    var pages := PageRelations(results, flat, dayOf, |results|);
    assert PlanPages(results, slots, days) == pages;
    SingletonPages(results, flat, dayOf);
    var chosen := ChosenIndices(results, flat);
    assert forall x, y :: x in chosen && y in chosen && pageOf(x) == pageOf(y) ==> x == y;
    InjectiveImage(chosen, pageOf);
    ChosenCount(results, stream, slots);
  }
}
