/**
 * The planning helpers of utils.py: filtering recipes by meal tag, drawing seven
 * new recipes for a meal slot, assigning chosen recipes to weekday relations,
 * building the per-page write instructions and counting failed writes.
 */
module Utils {
  import opened Base
  import opened Prng

  /** A row of the recipe table: its page id, the plain text of its title, and the names of its tags. */
  datatype Recipe = Recipe(pageId: string, title: string, tags: seq<string>)

  /** One entry of a relation property, `{'id': id}`. */
  datatype RelationRef = RelationRef(id: string)

  /** `filter_recipes_for_meal`'s result: a dictionary from recipe title to recipe. */
  type RecipeTable = Dict<string, Recipe>

  // ---------------------------------------------------------------------------
  // filter_recipes_for_meal
  // ---------------------------------------------------------------------------

  function Upper(c: char): char {
    if 'a' <= c <= 'z' then (c as int - 32) as char else c
  }

  function Lower(c: char): char {
    if 'A' <= c <= 'Z' then (c as int + 32) as char else c
  }

  /** Every character in lower case. */
  function LowerAll(s: string): (r: string)
    ensures |r| == |s|
  {
    if s == [] then [] else [Lower(s[0])] + LowerAll(s[1..])
  }

  /** `str.capitalize` on ASCII text: the first character in upper case, the rest in lower case. */
  function Capitalize(s: string): (r: string)
    ensures |r| == |s|
  {
    if s == [] then [] else [Upper(s[0])] + LowerAll(s[1..])
  }

  /** Lower case leaves a string without upper-case letters as it is. */
  lemma {:induction false} LowerAllKeeps(s: string)
    requires forall i :: 0 <= i < |s| ==> !('A' <= s[i] <= 'Z')
    ensures LowerAll(s) == s
  {
    if s != [] {
      LowerAllKeeps(s[1..]);
    }
  }

  /** A word that is already capitalized is left as it is. */
  lemma CapitalizeKeeps(s: string)
    requires s != [] && !('a' <= s[0] <= 'z')
    requires forall i :: 1 <= i < |s| ==> !('A' <= s[i] <= 'Z')
    ensures Capitalize(s) == s
  {
    LowerAllKeeps(s[1..]);
  }

  /** The dictionary the filter loop leaves behind after visiting `recipes` in order. */
  ghost function Filtered(recipes: seq<Recipe>, tag: string): (t: RecipeTable)
    ensures t.Valid()
    decreases |recipes|
  {
    if recipes == [] then Dict([], map[])
    else
      var last := recipes[|recipes| - 1];
      var before := Filtered(recipes[..|recipes| - 1], tag);
      if tag in last.tags then before.Put(last.title, last) else before
  }

  /** A title is a key exactly when some recipe with that title carries the tag. */
  lemma {:induction false} FilteredKeys(recipes: seq<Recipe>, tag: string, title: string)
    ensures title in Filtered(recipes, tag).values <==>
            exists i :: 0 <= i < |recipes| && recipes[i].title == title && tag in recipes[i].tags
  {
    if recipes != [] {
      var n := |recipes| - 1;
      var before := recipes[..n];
      FilteredKeys(before, tag, title);
      assert forall i :: 0 <= i < n ==> before[i] == recipes[i];
      if exists i :: 0 <= i < |recipes| && recipes[i].title == title && tag in recipes[i].tags {
        var i :| 0 <= i < |recipes| && recipes[i].title == title && tag in recipes[i].tags;
        if i < n {
          assert before[i].title == title && tag in before[i].tags;
        }
      }
    }
  }

  /** Among tagged recipes sharing a title, the last one in the input is the one kept. */
  lemma {:induction false} FilteredLastWins(recipes: seq<Recipe>, tag: string, i: nat)
    requires i < |recipes| && tag in recipes[i].tags
    requires forall j :: i < j < |recipes| && tag in recipes[j].tags ==> recipes[j].title != recipes[i].title
    ensures recipes[i].title in Filtered(recipes, tag).values
    ensures Filtered(recipes, tag).values[recipes[i].title] == recipes[i]
  {
    var n := |recipes| - 1;
    if i < n {
      var before := recipes[..n];
      assert forall j :: i < j < n ==> before[j] == recipes[j];
      FilteredLastWins(before, tag, i);
    }
  }

  /**
   * `filter_recipes_for_meal`: None (Python's bare `return`) for an empty
   * collection or an empty tag; otherwise the title-to-recipe dictionary of the
   * recipes that carry a tag named `meal.capitalize()`.
   */
  method FilterRecipesForMeal(recipes: seq<Recipe>, meal: string) returns (r: Option<RecipeTable>)
    ensures r.None? <==> |recipes| == 0 || meal == ""
    ensures r.Some? ==> r.value == Filtered(recipes, Capitalize(meal))
  {
    if |recipes| <= 0 || meal == "" {
      return None;
    }
    var tag := Capitalize(meal);
    var forMeal := Dict([], map[]);
    for i := 0 to |recipes|
      invariant forMeal == Filtered(recipes[..i], tag)
    {
      var recipe := recipes[i];
      var tags := recipe.tags;
      ghost var before := forMeal;
      for k := 0 to |tags|
        invariant forMeal == if tag in tags[..k] then before.Put(recipe.title, recipe) else before
      {
        assert tags[..k + 1] == tags[..k] + [tags[k]];
        if tags[k] == tag {
          var name := recipe.title;
          forMeal := forMeal.Put(name, recipe);
        }
      }
      assert tags[..|tags|] == tags;
      assert recipes[..i + 1][..i] == recipes[..i];
    }
    assert recipes[..|recipes|] == recipes;
    return Some(forMeal);
  }

  // ---------------------------------------------------------------------------
  // choose_unique_recipes
  // ---------------------------------------------------------------------------

  /** The seven meals of a week, one per day. */
  const WeekLength := 7
  /** The loop raises once `attempts > MaxAttempts`, so it makes at most MaxAttempts + 1 draws. */
  const MaxAttempts := 25

  /** Python's `set` object that the caller shares across calls and the sampler adds to. */
  class NameSet {
    var elems: set<string>

    constructor ()
      ensures elems == {}
    {
      elems := {};
    }
  }

  /** Why the sampler gives up: `random.choice` on an empty list, or the attempt bound. */
  datatype SampleError = EmptyPool | TooManyAttempts

  /** How a run of the sampler ends: the draws it made and its error, if any. */
  datatype SampleRun = SampleRun(draws: nat, failure: Option<SampleError>)

  /** The names the first `n` draws over `keys` hit; no draw is made from an empty list. */
  ghost function Drawn(keys: seq<string>, stream: nat -> nat, start: nat, n: nat): set<string> {
    if n == 0 || keys == [] then {}
    else Drawn(keys, stream, start, n - 1) + {keys[Pick(stream, start + n - 1, |keys|)]}
  }

  /**
   * The loop's own set after each of the first `n` draws from generator position
   * `start`, starting empty: a drawn name joins it unless the shared set has it,
   * that is, unless it was taken on entry or an earlier draw added it.
   */
  ghost function Trace(keys: seq<string>, taken: set<string>, stream: nat -> nat, start: nat, n: nat): (t: seq<set<string>>)
    ensures |t| == n + 1
  {
    if n == 0 then [{}]
    else
      var t := Trace(keys, taken, stream, start, n - 1);
      var before := t[n - 1];
      if keys == [] then t + [before]
      else
        var name := keys[Pick(stream, start + n - 1, |keys|)];
        t + [if name in taken || name in before then before else before + {name}]
  }

  /** The loop's own set after `n` draws; the loop never makes more than MaxAttempts + 1. */
  ghost function Accepted(keys: seq<string>, taken: set<string>, stream: nat -> nat, start: nat, n: nat): set<string>
    requires n <= MaxAttempts + 1
  {
    Trace(keys, taken, stream, start, MaxAttempts + 1)[n]
  }

  /** The sampler loop after `attempts` draws: it stops with seven names, at the attempt bound, or on an empty list. */
  ghost function SampleFrom(keys: seq<string>, taken: set<string>, stream: nat -> nat, start: nat, attempts: nat): (run: SampleRun)
    requires attempts <= MaxAttempts + 1
    ensures attempts <= run.draws <= MaxAttempts + 1
    decreases MaxAttempts + 1 - attempts
  {
    if |Accepted(keys, taken, stream, start, attempts)| >= WeekLength then SampleRun(attempts, None)
    else if attempts > MaxAttempts then SampleRun(attempts, Some(TooManyAttempts))
    else if keys == [] then SampleRun(attempts, Some(EmptyPool))
    else SampleFrom(keys, taken, stream, start, attempts + 1)
  }

  /** The whole run of `choose_unique_recipes` over the key list `keys`, from generator position `start`. */
  ghost function Sample(keys: seq<string>, taken: set<string>, stream: nat -> nat, start: nat): (run: SampleRun)
    ensures run.draws <= MaxAttempts + 1
  {
    SampleFrom(keys, taken, stream, start, 0)
  }

  /** A longer trace extends a shorter one. */
  lemma {:induction false} TracePrefix(keys: seq<string>, taken: set<string>, stream: nat -> nat, start: nat, k: nat, m: nat)
    requires m <= k
    ensures Trace(keys, taken, stream, start, k)[m] == Trace(keys, taken, stream, start, m)[m]
    decreases k
  {
    if m < k {
      TracePrefix(keys, taken, stream, start, k - 1, m);
    }
  }

  /** Before any draw the loop's own set is empty. */
  lemma AcceptedStart(keys: seq<string>, taken: set<string>, stream: nat -> nat, start: nat)
    ensures Accepted(keys, taken, stream, start, 0) == {}
  {
    TracePrefix(keys, taken, stream, start, MaxAttempts + 1, 0);
  }

  /** One more draw adds the drawn name unless the shared set has it; an empty list adds nothing. */
  lemma AcceptedStep(keys: seq<string>, taken: set<string>, stream: nat -> nat, start: nat, n: nat)
    requires n <= MaxAttempts
    ensures var before := Accepted(keys, taken, stream, start, n);
      Accepted(keys, taken, stream, start, n + 1)
        == if keys == [] then before
           else
             var name := keys[Pick(stream, start + n, |keys|)];
             if name in taken || name in before then before else before + {name}
  {
    TracePrefix(keys, taken, stream, start, MaxAttempts + 1, n);
    TracePrefix(keys, taken, stream, start, MaxAttempts + 1, n + 1);
    TracePrefix(keys, taken, stream, start, n + 1, n);
  }

  lemma SubsetSize<T>(a: set<T>, b: set<T>)
    requires a <= b
    ensures |a| <= |b|
  {
    assert b == a + (b - a);
  }

  /** A draw adds at most one name. */
  lemma AcceptedGrows(keys: seq<string>, taken: set<string>, stream: nat -> nat, start: nat, n: nat)
    requires n <= MaxAttempts
    ensures Accepted(keys, taken, stream, start, n) <= Accepted(keys, taken, stream, start, n + 1)
    ensures |Accepted(keys, taken, stream, start, n + 1)| <= |Accepted(keys, taken, stream, start, n)| + 1
  {
    AcceptedStep(keys, taken, stream, start, n);
  }

  /** Draws only ever add names. */
  lemma {:induction false} AcceptedMonotone(keys: seq<string>, taken: set<string>, stream: nat -> nat, start: nat, m: nat, n: nat)
    requires m <= n <= MaxAttempts + 1
    ensures Accepted(keys, taken, stream, start, m) <= Accepted(keys, taken, stream, start, n)
    decreases n - m
  {
    if m < n {
      AcceptedMonotone(keys, taken, stream, start, m, n - 1);
      AcceptedGrows(keys, taken, stream, start, n - 1);
    }
  }

  /** Every drawn name is a key. */
  lemma {:induction false} DrawnInKeys(keys: seq<string>, stream: nat -> nat, start: nat, n: nat)
    ensures Drawn(keys, stream, start, n) <= Elems(keys)
  {
    if n > 0 && keys != [] {
      DrawnInKeys(keys, stream, start, n - 1);
    }
  }

  /** The accepted names are exactly the drawn names that the shared set did not have on entry. */
  lemma {:induction false} AcceptedAreFreshDraws(keys: seq<string>, taken: set<string>, stream: nat -> nat, start: nat, n: nat)
    requires n <= MaxAttempts + 1
    ensures Accepted(keys, taken, stream, start, n) == Drawn(keys, stream, start, n) - taken
  {
    if n == 0 {
      AcceptedStart(keys, taken, stream, start);
    } else {
      AcceptedAreFreshDraws(keys, taken, stream, start, n - 1);
      AcceptedStep(keys, taken, stream, start, n - 1);
      if keys != [] {
        var name := keys[Pick(stream, start + n - 1, |keys|)];
        assert Drawn(keys, stream, start, n) == Drawn(keys, stream, start, n - 1) + {name};
      }
    }
  }

  /** A turn of the loop that neither stops nor raises leaves the run unchanged. */
  lemma SampleFromTurn(keys: seq<string>, taken: set<string>, stream: nat -> nat, start: nat, attempts: nat)
    requires keys != [] && attempts <= MaxAttempts
    requires |Accepted(keys, taken, stream, start, attempts)| < WeekLength
    ensures SampleFrom(keys, taken, stream, start, attempts) == SampleFrom(keys, taken, stream, start, attempts + 1)
  {
  }

  /** Where the loop stops, the run ends. */
  lemma SampleFromStops(keys: seq<string>, taken: set<string>, stream: nat -> nat, start: nat, attempts: nat)
    requires attempts <= MaxAttempts + 1
    requires |Accepted(keys, taken, stream, start, attempts)| >= WeekLength || attempts > MaxAttempts || keys == []
    ensures SampleFrom(keys, taken, stream, start, attempts)
         == SampleRun(attempts,
                      if |Accepted(keys, taken, stream, start, attempts)| >= WeekLength then None
                      else if attempts > MaxAttempts then Some(TooManyAttempts)
                      else Some(EmptyPool))
  {
  }

  /** The run passes through every attempt the loop reaches: one that follows a turn ending short of seven. */
  lemma {:induction false} SampleReaches(keys: seq<string>, taken: set<string>, stream: nat -> nat, start: nat, attempts: nat)
    requires attempts <= MaxAttempts + 1
    requires attempts > 0 ==> keys != [] && |Accepted(keys, taken, stream, start, attempts - 1)| < WeekLength
    ensures Sample(keys, taken, stream, start) == SampleFrom(keys, taken, stream, start, attempts)
  {
    if attempts > 0 {
      if attempts > 1 {
        AcceptedGrows(keys, taken, stream, start, attempts - 2);
        SubsetSize(Accepted(keys, taken, stream, start, attempts - 2), Accepted(keys, taken, stream, start, attempts - 1));
      }
      SampleReaches(keys, taken, stream, start, attempts - 1);
      SampleFromTurn(keys, taken, stream, start, attempts - 1);
    }
  }

  /** Where the loop stops after reaching an attempt, the whole run ends there. */
  lemma SampleStopsAt(keys: seq<string>, taken: set<string>, stream: nat -> nat, start: nat, last: nat, attempts: nat)
    requires attempts <= MaxAttempts + 1
    requires attempts > 0 ==> keys != [] && attempts == last + 1 && |Accepted(keys, taken, stream, start, last)| < WeekLength
    requires |Accepted(keys, taken, stream, start, attempts)| >= WeekLength || attempts > MaxAttempts || keys == []
    ensures Sample(keys, taken, stream, start)
         == SampleRun(attempts,
                      if |Accepted(keys, taken, stream, start, attempts)| >= WeekLength then None
                      else if attempts > MaxAttempts then Some(TooManyAttempts)
                      else Some(EmptyPool))
  {
    SampleReaches(keys, taken, stream, start, attempts);
    SampleFromStops(keys, taken, stream, start, attempts);
  }

  /** How a run from any state can end: within the draw bound, with exactly seven names or with an error. */
  lemma {:induction false} SampleFromEnds(keys: seq<string>, taken: set<string>, stream: nat -> nat, start: nat, attempts: nat)
    requires keys != [] && attempts <= MaxAttempts + 1
    requires |Accepted(keys, taken, stream, start, attempts)| <= WeekLength
    ensures var run := SampleFrom(keys, taken, stream, start, attempts);
      && attempts <= run.draws <= MaxAttempts + 1
      && |Accepted(keys, taken, stream, start, run.draws)| <= WeekLength
      && (run.failure.None? <==> |Accepted(keys, taken, stream, start, run.draws)| == WeekLength)
      && (run.failure.Some? ==> run.failure == Some(TooManyAttempts) && run.draws == MaxAttempts + 1)
    decreases MaxAttempts + 1 - attempts
  {
    if |Accepted(keys, taken, stream, start, attempts)| < WeekLength && attempts <= MaxAttempts {
      AcceptedGrows(keys, taken, stream, start, attempts);
      SampleFromEnds(keys, taken, stream, start, attempts + 1);
      SampleFromTurn(keys, taken, stream, start, attempts);
    } else {
      SampleFromStops(keys, taken, stream, start, attempts);
    }
  }

  /** At most MaxAttempts + 1 draws; a run that does not raise accepts exactly seven names. */
  lemma SampleEnds(keys: seq<string>, taken: set<string>, stream: nat -> nat, start: nat)
    ensures var run := Sample(keys, taken, stream, start);
      && run.draws <= MaxAttempts + 1
      && (run.failure.None? ==> |Accepted(keys, taken, stream, start, run.draws)| == WeekLength)
      && (keys != [] && run.failure.Some? ==> run.failure == Some(TooManyAttempts) && run.draws == MaxAttempts + 1)
  {
    if keys != [] {
      AcceptedStart(keys, taken, stream, start);
      SampleFromEnds(keys, taken, stream, start, 0);
    } else {
      SampleEmptyPool(taken, stream, start);
    }
  }

  /** An empty key list fails on the first draw, before the generator moves. */
  lemma SampleEmptyPool(taken: set<string>, stream: nat -> nat, start: nat)
    ensures Sample([], taken, stream, start) == SampleRun(0, Some(EmptyPool))
  {
    AcceptedStart([], taken, stream, start);
  }

  /** Every accepted name is a key that was not taken on entry. */
  lemma SampleAcceptsNewKeys(keys: seq<string>, taken: set<string>, stream: nat -> nat, start: nat, n: nat)
    requires n <= MaxAttempts + 1
    ensures Accepted(keys, taken, stream, start, n) <= Elems(keys) - taken
  {
    DrawnInKeys(keys, stream, start, n);
    AcceptedAreFreshDraws(keys, taken, stream, start, n);
  }

  /** The sampler succeeds exactly when the first MaxAttempts + 1 draws hit seven names that are new. */
  lemma SampleSucceedsIff(keys: seq<string>, taken: set<string>, stream: nat -> nat, start: nat)
    requires keys != []
    ensures Sample(keys, taken, stream, start).failure.None?
        <==> |Accepted(keys, taken, stream, start, MaxAttempts + 1)| >= WeekLength
  {
    var run := Sample(keys, taken, stream, start);
    AcceptedStart(keys, taken, stream, start);
    SampleFromEnds(keys, taken, stream, start, 0);
    if run.failure.None? {
      AcceptedMonotone(keys, taken, stream, start, run.draws, MaxAttempts + 1);
      SubsetSize(Accepted(keys, taken, stream, start, run.draws), Accepted(keys, taken, stream, start, MaxAttempts + 1));
    }
  }

  /** With fewer than seven keys outside the shared set the sampler always raises. */
  lemma SampleFailsOnShortPool(keys: seq<string>, taken: set<string>, stream: nat -> nat, start: nat)
    requires |Elems(keys) - taken| < WeekLength
    ensures Sample(keys, taken, stream, start).failure.Some?
  {
    var run := Sample(keys, taken, stream, start);
    SampleEnds(keys, taken, stream, start);
    SampleAcceptsNewKeys(keys, taken, stream, start, run.draws);
    SubsetSize(Accepted(keys, taken, stream, start, run.draws), Elems(keys) - taken);
  }

  /**
   * The body of the loop after a draw: a drawn name the shared set lacks joins both sets.
   * Stated against the draw it follows, the `n`-th from generator position `start`.
   */
  method Record(recipe: string, uniqueRecipes: set<string>, globalRecipes: NameSet,
                ghost keys: seq<string>, ghost taken: set<string>, ghost stream: nat -> nat, ghost start: nat, ghost n: nat)
    returns (u: set<string>)
    requires n <= MaxAttempts && keys != [] && recipe == keys[Pick(stream, start + n, |keys|)]
    requires uniqueRecipes == Accepted(keys, taken, stream, start, n)
    requires globalRecipes.elems == taken + uniqueRecipes
    modifies globalRecipes
    ensures u == Accepted(keys, taken, stream, start, n + 1)
    ensures globalRecipes.elems == taken + u
  {
    AcceptedStep(keys, taken, stream, start, n);
    u := uniqueRecipes;
    if recipe !in globalRecipes.elems {
      u := u + {recipe};
      globalRecipes.elems := globalRecipes.elems + {recipe};
    }
  }

  /**
   * `choose_unique_recipes`: draws from the dictionary's key list until seven names
   * that are not in the shared set have been added to it, and raises once the
   * attempt counter has passed MaxAttempts. The result and the new state are the
   * run `Sample` describes: the names its draws add, the draws it makes and its error.
   */
  method ChooseUniqueRecipes(recipes: RecipeTable, globalRecipes: NameSet, rng: Random)
    returns (r: Result<set<string>, SampleError>)
    modifies globalRecipes, rng
    ensures var run := Sample(recipes.keys, old(globalRecipes.elems), rng.stream, old(rng.calls));
      var accepted := Accepted(recipes.keys, old(globalRecipes.elems), rng.stream, old(rng.calls), run.draws);
      && globalRecipes.elems == old(globalRecipes.elems) + accepted
      && rng.calls == old(rng.calls) + run.draws
      && r == (if run.failure.None? then Ok(accepted) else Err(run.failure.value))
  {
    ghost var keys, stream := recipes.keys, rng.stream;
    ghost var taken := globalRecipes.elems;
    ghost var start := rng.calls;
    var uniqueRecipes: set<string> := {};
    var attempts := 0;
    ghost var last := 0;
    AcceptedStart(keys, taken, stream, start);
    while |uniqueRecipes| < WeekLength
      invariant attempts <= MaxAttempts + 1
      invariant rng.calls == start + attempts
      invariant uniqueRecipes == Accepted(keys, taken, stream, start, attempts)
      invariant globalRecipes.elems == taken + uniqueRecipes
      invariant attempts > 0 ==> keys != [] && attempts == last + 1 && |Accepted(keys, taken, stream, start, last)| < WeekLength
      decreases MaxAttempts + 1 - attempts
    {
      if attempts > MaxAttempts {
        SampleStopsAt(keys, taken, stream, start, last, attempts);
        return Err(TooManyAttempts);
      }
      ghost var done := attempts;
      attempts := attempts + 1;
      var drawn := rng.Choice(recipes.keys);
      if drawn.None? {
        SampleStopsAt(keys, taken, stream, start, last, done);
        return Err(EmptyPool);
      }
      last := done;
      var recipe := drawn.value;
      uniqueRecipes := Record(recipe, uniqueRecipes, globalRecipes, keys, taken, stream, start, done);
    }
    SampleStopsAt(keys, taken, stream, start, last, attempts);
    return Ok(uniqueRecipes);
  }

  // ---------------------------------------------------------------------------
  // get_meal_to_relation_id
  // ---------------------------------------------------------------------------

  function Min(a: int, b: int): int {
    if a < b then a else b
  }

  /**
   * The dictionary the loop leaves after the first `n` names of the flat list:
   * the name at index `i` goes to day `i % 7`, a later index overwriting an earlier one.
   * The loop indexes `days` only below `min(n, 7)`.
   */
  ghost function DayMap(flat: seq<string>, days: seq<string>, n: nat): map<string, string>
    requires n <= |flat| && |days| >= Min(n, WeekLength)
  {
    if n == 0 then map[]
    else DayMap(flat, days, n - 1)[flat[n - 1] := days[(n - 1) % WeekLength]]
  }

  /** The names mapped after `n` steps are exactly the first `n` names. */
  lemma {:induction false} DayMapKeys(flat: seq<string>, days: seq<string>, n: nat, name: string)
    requires n <= |flat| && |days| >= Min(n, WeekLength)
    ensures name in DayMap(flat, days, n) <==> exists i :: 0 <= i < n && flat[i] == name
  {
    if n > 0 {
      DayMapKeys(flat, days, n - 1, name);
    }
  }

  /** A name maps to the day of its last occurrence. */
  lemma {:induction false} DayMapLastWins(flat: seq<string>, days: seq<string>, n: nat, i: nat)
    requires i < n <= |flat| && |days| >= Min(n, WeekLength)
    requires forall j :: i < j < n ==> flat[j] != flat[i]
    ensures flat[i] in DayMap(flat, days, n)
    ensures DayMap(flat, days, n)[flat[i]] == days[i % WeekLength]
  {
    if i < n - 1 {
      DayMapLastWins(flat, days, n - 1, i);
    }
  }

  /** The key set of `get_meal_to_relation_id`'s result is the set of names in the flat list. */
  lemma MealMapKeys(flat: seq<string>, days: seq<string>)
    requires |days| >= Min(|flat|, WeekLength)
    ensures DayMap(flat, days, |flat|).Keys == Elems(flat)
  {
    forall name | name in DayMap(flat, days, |flat|) || name in Elems(flat)
      ensures name in DayMap(flat, days, |flat|) && name in Elems(flat)
    {
      DayMapKeys(flat, days, |flat|, name);
      if name in Elems(flat) {
        var i :| 0 <= i < |flat| && flat[i] == name;
      }
    }
  }

  /** With distinct names, the name at index `i` goes to day `i % 7`. */
  lemma MealMapDays(flat: seq<string>, days: seq<string>, i: nat)
    requires |days| >= Min(|flat|, WeekLength) && Distinct(flat) && i < |flat|
    ensures flat[i] in DayMap(flat, days, |flat|)
    ensures DayMap(flat, days, |flat|)[flat[i]] == days[i % WeekLength]
  {
    DayMapLastWins(flat, days, |flat|, i);
  }

  /**
   * `get_meal_to_relation_id`: maps each name of the flat list to the weekday
   * relation its position selects. `days` must have an entry for every index
   * `i % 7` the loop reaches, or Python raises IndexError.
   */
  method GetMealToRelationId(flat: seq<string>, days: seq<string>) returns (m: map<string, string>)
    requires |days| >= Min(|flat|, WeekLength)
    ensures m == DayMap(flat, days, |flat|)
  {
    m := map[];
    for i := 0 to |flat|
      invariant m == DayMap(flat, days, i)
    {
      var relationId := days[i % WeekLength];
      m := m[flat[i] := relationId];
    }
  }

  // ---------------------------------------------------------------------------
  // get_page_to_relation_id
  // ---------------------------------------------------------------------------

  /** `get_page_to_relation_id`'s result: page id to the relation list to write. */
  type PageTable = Dict<string, seq<RelationRef>>

  /** The lookup `chosen_recipes_to_relation_ids[name]` succeeds for every chosen title among the results. */
  predicate Covers(results: seq<Recipe>, chosen: seq<string>, dayOf: map<string, string>) {
    forall i :: 0 <= i < |results| && results[i].title in chosen ==> results[i].title in dayOf
  }

  /** What the loop writes for one recipe: a one-entry relation list if its title was chosen, otherwise the empty list. */
  function Relations(recipe: Recipe, chosen: seq<string>, dayOf: map<string, string>): (r: seq<RelationRef>)
    requires recipe.title in chosen ==> recipe.title in dayOf
    ensures |r| <= 1
    ensures recipe.title in chosen <==> |r| == 1
    ensures recipe.title in chosen ==> r[0].id == dayOf[recipe.title]
  {
    if recipe.title in chosen then [RelationRef(dayOf[recipe.title])] else []
  }

  /** The dictionary the loop leaves after the first `n` results. */
  ghost function PageRelations(results: seq<Recipe>, chosen: seq<string>, dayOf: map<string, string>, n: nat): (t: PageTable)
    requires n <= |results| && Covers(results, chosen, dayOf)
  {
    if n == 0 then Dict([], map[])
    else PageRelations(results, chosen, dayOf, n - 1).Put(results[n - 1].pageId, Relations(results[n - 1], chosen, dayOf))
  }

  /** Each page id is listed once, and the list holds exactly the written pages. */
  lemma {:induction false} PageRelationsValid(results: seq<Recipe>, chosen: seq<string>, dayOf: map<string, string>, n: nat)
    requires n <= |results| && Covers(results, chosen, dayOf)
    ensures PageRelations(results, chosen, dayOf, n).Valid()
  {
    if n > 0 {
      PageRelationsValid(results, chosen, dayOf, n - 1);
    }
  }

  /** The pages written are exactly the pages of the results. */
  lemma {:induction false} PageRelationsKeys(results: seq<Recipe>, chosen: seq<string>, dayOf: map<string, string>, n: nat, page: string)
    requires n <= |results| && Covers(results, chosen, dayOf)
    ensures page in PageRelations(results, chosen, dayOf, n).values <==> exists i :: 0 <= i < n && results[i].pageId == page
  {
    if n > 0 {
      PageRelationsKeys(results, chosen, dayOf, n - 1, page);
    }
  }

  /** Page ids do not repeat in the query results. */
  predicate UniquePages(results: seq<Recipe>) {
    forall i, j :: 0 <= i < j < |results| ==> results[i].pageId != results[j].pageId
  }

  /** The page ids of the first `n` results, in order. */
  function PageIds(results: seq<Recipe>, n: nat): (ids: seq<string>)
    requires n <= |results|
    ensures |ids| == n && forall i :: 0 <= i < n ==> ids[i] == results[i].pageId
  {
    if n == 0 then [] else PageIds(results, n - 1) + [results[n - 1].pageId]
  }

  /** When page ids do not repeat, the pages are written in the order of the results. */
  lemma {:induction false} PageRelationsOrder(results: seq<Recipe>, chosen: seq<string>, dayOf: map<string, string>, n: nat)
    requires n <= |results| && Covers(results, chosen, dayOf)
    requires UniquePages(results)
    ensures PageRelations(results, chosen, dayOf, n).keys == PageIds(results, n)
  {
    if n > 0 {
      PageRelationsOrder(results, chosen, dayOf, n - 1);
      var page := results[n - 1].pageId;
      PageRelationsKeys(results, chosen, dayOf, n - 1, page);
    }
  }

  /** A page gets what the loop computes for its last occurrence in the results. */
  lemma {:induction false} PageRelationsLastWins(results: seq<Recipe>, chosen: seq<string>, dayOf: map<string, string>, n: nat, i: nat)
    requires i < n <= |results| && Covers(results, chosen, dayOf)
    requires forall j :: i < j < n ==> results[j].pageId != results[i].pageId
    ensures results[i].pageId in PageRelations(results, chosen, dayOf, n).values
    ensures PageRelations(results, chosen, dayOf, n).values[results[i].pageId] == Relations(results[i], chosen, dayOf)
  {
    if i < n - 1 {
      PageRelationsLastWins(results, chosen, dayOf, n - 1, i);
    }
  }

  /**
   * `get_page_to_relation_id`: a relation list for every page of the query
   * results, the chosen recipes' day relation or an empty list that clears the
   * page's days. A chosen title missing from `dayOf` makes Python raise KeyError.
   */
  method GetPageToRelationId(results: seq<Recipe>, chosen: seq<string>, dayOf: map<string, string>) returns (t: PageTable)
    requires Covers(results, chosen, dayOf)
    ensures t == PageRelations(results, chosen, dayOf, |results|) && t.Valid()
  {
    t := Dict([], map[]);
    for i := 0 to |results|
      invariant t == PageRelations(results, chosen, dayOf, i)
    {
      var recipe := results[i];
      var name := recipe.title;
      var pageId := recipe.pageId;
      if name in chosen {
        var relationId := dayOf[name];
        t := t.Put(pageId, [RelationRef(relationId)]);
      } else {
        t := t.Put(pageId, []);
      }
    }
    PageRelationsValid(results, chosen, dayOf, |results|);
  }

  // ---------------------------------------------------------------------------
  // update_notion_with_meals
  // ---------------------------------------------------------------------------

  /** The status code of a successful update. */
  const HttpOk := 200

  /**
   * The Notion client's update call, as far as the planner sees it: each request
   * is logged and answered with a status code. `status` stands for the server.
   */
  class NotionClient {
    const status: (string, seq<RelationRef>) -> int
    /** The update requests sent so far, oldest first. */
    var updates: seq<(string, seq<RelationRef>)>

    constructor (status: (string, seq<RelationRef>) -> int)
      ensures this.status == status && updates == []
    {
      this.status := status;
      updates := [];
    }

    /** `update_recipe_with_day(page, relations)`. */
    method UpdateRecipeWithDay(page: string, relations: seq<RelationRef>) returns (code: int)
      modifies this
      ensures updates == old(updates) + [(page, relations)]
      ensures code == status(page, relations)
    {
      updates := updates + [(page, relations)];
      code := status(page, relations);
    }
  }

  /** The requests the loop sends for the first `n` pages of `t`, in key order. */
  ghost function Writes(t: PageTable, n: nat): (w: seq<(string, seq<RelationRef>)>)
    requires t.Valid() && n <= |t.keys|
    ensures |w| == n
  {
    if n == 0 then [] else Writes(t, n - 1) + [(t.keys[n - 1], t.values[t.keys[n - 1]])]
  }

  /** The number of failed requests among the first `n` pages of `t`. */
  ghost function FailureCount(t: PageTable, status: (string, seq<RelationRef>) -> int, n: nat): nat
    requires t.Valid() && n <= |t.keys|
  {
    if n == 0 then 0
    else FailureCount(t, status, n - 1) + if status(t.keys[n - 1], t.values[t.keys[n - 1]]) != HttpOk then 1 else 0
  }

  /** Request `i` writes page `i` of the dictionary with its relation list. */
  lemma {:induction false} WritesAt(t: PageTable, n: nat, i: nat)
    requires t.Valid() && i < n <= |t.keys|
    ensures Writes(t, n)[i] == (t.keys[i], t.values[t.keys[i]])
  {
    if i < n - 1 {
      WritesAt(t, n - 1, i);
    }
  }

  /** Every page of the dictionary is written exactly once, with its own relation list. */
  lemma WritesEachPageOnce(t: PageTable)
    requires t.Valid()
    ensures var w := Writes(t, |t.keys|);
      && (forall i :: 0 <= i < |w| ==> w[i].0 in t.values && w[i].1 == t.values[w[i].0])
      && (forall i, j :: 0 <= i < j < |w| ==> w[i].0 != w[j].0)
      && (forall page :: page in t.values ==> exists i :: 0 <= i < |w| && w[i].0 == page)
  {
    var w := Writes(t, |t.keys|);
    forall i | 0 <= i < |w|
      ensures w[i] == (t.keys[i], t.values[t.keys[i]])
    {
      WritesAt(t, |t.keys|, i);
    }
    forall page | page in t.values
      ensures exists i :: 0 <= i < |w| && w[i].0 == page
    {
      assert page in Elems(t.keys);
      var i :| 0 <= i < |t.keys| && t.keys[i] == page;
      assert w[i].0 == page;
    }
  }

  /** The pages among the first `n` whose request fails. */
  ghost function FailedAmong(t: PageTable, status: (string, seq<RelationRef>) -> int, n: nat): set<string>
    requires t.Valid() && n <= |t.keys|
  {
    set i | 0 <= i < n && status(t.keys[i], t.values[t.keys[i]]) != HttpOk :: t.keys[i]
  }

  lemma {:induction false} FailureCountCounts(t: PageTable, status: (string, seq<RelationRef>) -> int, n: nat)
    requires t.Valid() && n <= |t.keys|
    ensures FailureCount(t, status, n) == |FailedAmong(t, status, n)|
  {
    if n > 0 {
      FailureCountCounts(t, status, n - 1);
      var page := t.keys[n - 1];
      var before := FailedAmong(t, status, n - 1);
      assert page !in before;
      if status(page, t.values[page]) != HttpOk {
        assert FailedAmong(t, status, n) == before + {page};
      } else {
        assert FailedAmong(t, status, n) == before;
      }
    }
  }

  /**
   * The count is the number of pages whose update does not answer 200; it is at
   * most the number of pages, and zero exactly when every update succeeds.
   */
  lemma FailuresArePages(t: PageTable, status: (string, seq<RelationRef>) -> int)
    requires t.Valid()
    ensures FailureCount(t, status, |t.keys|) == |set page | page in t.values && status(page, t.values[page]) != HttpOk|
    ensures FailureCount(t, status, |t.keys|) <= |t.values|
    ensures FailureCount(t, status, |t.keys|) == 0 <==> forall page :: page in t.values ==> status(page, t.values[page]) == HttpOk
  {
    var failed := set page | page in t.values && status(page, t.values[page]) != HttpOk;
    FailureCountCounts(t, status, |t.keys|);
    forall page | page in failed
      ensures page in FailedAmong(t, status, |t.keys|)
    {
      assert page in Elems(t.keys);
      var i :| 0 <= i < |t.keys| && t.keys[i] == page;
    }
    assert FailedAmong(t, status, |t.keys|) == failed;
    SubsetSize(failed, t.values.Keys);
    if FailureCount(t, status, |t.keys|) == 0 {
      assert failed == {};
      forall page | page in t.values
        ensures status(page, t.values[page]) == HttpOk
      {
        assert page !in failed;
      }
    }
  }

  /**
   * `update_notion_with_meals`: sends one update per page, in the dictionary's
   * key order, and returns how many did not answer 200.
   */
  method UpdateNotionWithMeals(client: NotionClient, pages: PageTable) returns (failures: nat)
    requires pages.Valid()
    modifies client
    ensures client.updates == old(client.updates) + Writes(pages, |pages.keys|)
    ensures failures == FailureCount(pages, client.status, |pages.keys|)
  {
    failures := 0;
    var order := pages.keys;
    for i := 0 to |order|
      invariant client.updates == old(client.updates) + Writes(pages, i)
      invariant failures == FailureCount(pages, client.status, i)
    {
      var page := order[i];
      var code := client.UpdateRecipeWithDay(page, pages.values[page]);
      if code != HttpOk {
        failures := failures + 1;
      }
    }
  }
}
