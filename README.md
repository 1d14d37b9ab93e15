# Meal planner model

A Dafny model of the meal-planning core of a Discord bot that plans a week of
meals from a Notion recipe table. It has two command handlers:

- `plan` seeds Python's generator with the ISO year and week. It splits the
  recipe table by meal tag (Breakfast, Lunch, Dinner) and draws seven recipes
  for each meal. The three draws share one "already chosen" set, so no recipe
  is used twice in the week. It gives the recipe at position `i` of each meal
  list weekday `i`, and writes a weekday relation, or an empty relation, back
  to every recipe page.
- `meals` reads the planned meals and groups their titles by weekday.

The project has four modules:

- `Base` (`base.dfy`): `Option`, `Result`, distinctness of sequences, and
  `Dict`. `Dict` is Python's insertion-ordered dictionary: a key list plus a
  map.
- `Prng` (`prng.dfy`): the `random` module, as an oracle.
  - After `random.seed(s)` the generator yields an arbitrary stream of numbers
    that depends only on `s`.
  - The `k`-th call of `random.choice` over `n` items takes item
    `stream(k) % n`.
- `Utils` (`utils.py`): the five planning helpers.
  - Each one is a method with the source's loops.
  - Each is proved against a recursive specification function (`Filtered`,
    `Sample`/`Accepted`, `DayMap`, `PageRelations`, `Writes`/`FailureCount`).
  - What the source promises is proved about that function in lemmas.
- `Bot` (`bot.py`): the grouping loop of `meals` and the pipeline of `plan`.
  They are specified the same way, by `Group`/`Entries` for `meals` and by
  `Slots`/`PlanPages` for `plan`.

The shared set that `choose_unique_recipes` updates in place is the class
`Utils.NameSet`. The generator is the class `Prng.Random`, whose draw counter
advances. The Notion client is the class `Utils.NotionClient`; it logs every
update request and answers it with a status code taken from an oracle.

## Model

| member | source | states |
|---|---|---|
| `Base.Dict.Put` | utils.py:23 | `d[k] = v` keeps a well-formed dictionary well formed: each key is listed once, and the list holds exactly the keys. |
| `Prng.Pick` | utils.py:39 | The index draw number `call` takes over `n` items is below `n`: the next stream value modulo the list length. |
| `Prng.Random.constructor` | bot.py:63 | `random.seed(seed)`: the stream is the one the seed selects, and no draw has been taken yet. |
| `Prng.Random.Choice` | utils.py:39 | `random.choice(items)` takes the item the next stream value selects and advances the counter by one. An empty list gives no item and leaves the counter as it was (Python's IndexError). |
| `Utils.Capitalize` | utils.py:21 | `str.capitalize` on ASCII text keeps the length of the string; `CapitalizeKeeps` states when a word is left as it is. |
| `Utils.LowerAllKeeps` | utils.py:21 | Lower-casing leaves a string without upper-case letters unchanged. |
| `Utils.CapitalizeKeeps` | utils.py:21 | A word whose first letter is not lower case and whose other letters are not upper case is its own capitalization. |
| `Utils.Filtered` | utils.py:15-23 | The dictionary the filter loop builds is well formed: each title is listed once, and the list holds exactly the keys. |
| `Utils.FilteredKeys` | utils.py:16-23 | A title is a key if and only if some input recipe with that title carries the tag. |
| `Utils.FilteredLastWins` | utils.py:23 | Among tagged recipes that share a title, the one kept is the last in input order. |
| `Utils.FilterRecipesForMeal` | utils.py:11-26 | Returns None exactly when the collection is empty or the meal is `''`. Otherwise returns the title-to-recipe dictionary for the tag `meal.capitalize()`. |
| `Utils.Trace` | utils.py:31-43 | The loop's own set before the first draw and after each of the first `n` draws: `n + 1` sets; `Accepted` picks the one after a given draw. `AcceptedStart`, `AcceptedStep`, `AcceptedMonotone` and `AcceptedAreFreshDraws` state what each draw does to it. |
| `Utils.NameSet.constructor` | bot.py:81 | `set()` starts empty. |
| `Utils.SampleFrom` | utils.py:33-39 | A run from attempt `a` makes between `a` and 26 draws. |
| `Utils.Sample` | utils.py:33-39 | A whole run of the sampler makes at most 26 draws. |
| `Utils.TracePrefix` | utils.py:33-43 | The loop's set after `m` draws does not depend on how many later draws are considered. |
| `Utils.AcceptedStart` | utils.py:31 | The loop's own set starts empty. |
| `Utils.AcceptedStep` | utils.py:39-43 | A draw adds the drawn name unless the shared set already holds it, either from entry or from an earlier draw. |
| `Utils.AcceptedGrows` | utils.py:41-43 | A draw adds at most one name and removes none. |
| `Utils.AcceptedMonotone` | utils.py:41-43 | Draws only ever add names. |
| `Utils.DrawnInKeys` | utils.py:39 | Every drawn name is a key of the recipe dictionary. |
| `Utils.AcceptedAreFreshDraws` | utils.py:39-43 | The accepted names are exactly the drawn names that were not in the shared set on entry. |
| `Utils.SampleFromTurn` | utils.py:33-39 | A turn that neither stops nor raises continues the same run. |
| `Utils.SampleFromStops` | utils.py:33-35 | The run ends with success at seven names, or with TooManyAttempts after 26 draws, or with EmptyPool on an empty key list. |
| `Utils.SampleReaches` | utils.py:33-39 | The run passes through every attempt the loop reaches. |
| `Utils.SampleStopsAt` | utils.py:33-45 | Where the loop exits, the whole run ends, with that draw count and that outcome. |
| `Utils.SampleFromEnds` | utils.py:33-37 | From any reachable state the run ends within 26 draws. It succeeds if and only if exactly seven names are accepted, and a failure on a non-empty list is TooManyAttempts after exactly 26 draws. |
| `Utils.SampleEnds` | utils.py:32-39 | At most 26 draws. A run that does not raise accepts exactly seven names. On a non-empty list, the only failure is TooManyAttempts after 26 draws. |
| `Utils.SampleEmptyPool` | utils.py:39 | An empty recipe dictionary fails with EmptyPool on the first draw, before the generator moves. |
| `Utils.SampleAcceptsNewKeys` | utils.py:39-43 | Every accepted name is a key of the dictionary that was not in the shared set on entry. |
| `Utils.SampleSucceedsIff` | utils.py:33-37 | On a non-empty key list, the sampler succeeds if and only if the first 26 draws hit at least seven names that are new to the shared set. |
| `Utils.SampleFailsOnShortPool` | utils.py:33-35 | With fewer than seven keys outside the shared set, it always raises. |
| `Utils.Record` | utils.py:41-43 | A drawn name that the shared set lacks joins both the loop's set and the shared set. The two sets stay in step with `Accepted`. |
| `Utils.ChooseUniqueRecipes` | utils.py:30-45 | The result, the new shared set and the number of draws taken from the generator are those of `Sample`. The shared set gains exactly the accepted names. The result is the accepted set, or the run's error. |
| `Utils.DayMap` | utils.py:69-74 | The dictionary the loop of `get_meal_to_relation_id` leaves after `n` names; its properties are stated by `DayMapKeys`, `DayMapLastWins`, `MealMapKeys` and `MealMapDays`. |
| `Utils.DayMapKeys` | utils.py:70-74 | After `n` steps, a name is mapped if and only if it is among the first `n` names of the flat list. |
| `Utils.DayMapLastWins` | utils.py:74 | A repeated name maps to the day `i % 7` of its last occurrence `i`. |
| `Utils.MealMapKeys` | utils.py:67-76 | The keys of `get_meal_to_relation_id`'s result are exactly the names of the flat list. |
| `Utils.MealMapDays` | utils.py:70-74 | With distinct names, `result[flat[i]] == days[i % 7]` for every index `i`. |
| `Utils.GetMealToRelationId` | utils.py:67-76 | The loop builds `DayMap` of the whole flat list. |
| `Utils.Relations` | utils.py:57-63 | A recipe gets a list of at most one relation. It gets exactly one if and only if its title was chosen, and that relation is the title's day. |
| `Utils.PageIds` | utils.py:52-56 | The page ids of the first `n` results, in order. |
| `Utils.PageRelations` | utils.py:50-63 | The dictionary the loop of `get_page_to_relation_id` leaves after `n` results; its properties are stated by `PageRelationsValid`, `PageRelationsKeys`, `PageRelationsOrder` and `PageRelationsLastWins`. |
| `Utils.PageRelationsValid` | utils.py:50-64 | The page dictionary is well formed. |
| `Utils.PageRelationsKeys` | utils.py:52-63 | A page is a key if and only if it is the page of some query result. |
| `Utils.PageRelationsOrder` | utils.py:52-63 | When page ids do not repeat, the keys are the page ids in query order. |
| `Utils.PageRelationsLastWins` | utils.py:56-63 | A page holds what the loop computes for its last occurrence: a one-element list with the title's day if the title was chosen, `[]` otherwise. |
| `Utils.GetPageToRelationId` | utils.py:49-64 | The loop builds `PageRelations` of all results, and the result is well formed. |
| `Utils.NotionClient.constructor` | bot.py:19 | `NotionClient()`: a client with the server's status oracle and no request sent yet. |
| `Utils.NotionClient.UpdateRecipeWithDay` | notion.py:59-72 | Each call logs one request `(page, relations)` and returns the server's status for it. |
| `Utils.Writes` | utils.py:84-86 | The loop sends one request per processed page. |
| `Utils.WritesAt` | utils.py:84-86 | Request `i` writes page `i` of the key order, with that page's relation list. |
| `Utils.WritesEachPageOnce` | utils.py:84-86 | Every request writes a page of the dictionary with its own list. No page is written twice, and every page is written. |
| `Utils.FailureCountCounts` | utils.py:81-90 | The counter equals the number of distinct pages whose request failed. |
| `Utils.FailuresArePages` | utils.py:81-90 | The count equals the number of pages whose update does not answer 200. It is at most the number of pages, and it is zero if and only if every update answers 200. |
| `Utils.UpdateNotionWithMeals` | utils.py:80-90 | Sends exactly the requests `Writes` lists, in key order, and returns `FailureCount`. |
| `Bot.Split` | bot.py:42 | `str.split` gives at least one piece, and no piece contains the separator. |
| `Bot.JoinWith` | bot.py:42 | `sep.join(parts)`; `JoinSplitStripsDashes` states what joining the dash-split pieces with `""` gives. |
| `Bot.StripDashes` | bot.py:42 | The result is no longer than the input. It holds exactly the input's characters other than `-`. |
| `Bot.JoinSplitStripsDashes` | bot.py:42 | `"".join(s.split('-'))` removes every dash and changes nothing else. |
| `Bot.StripDashesKeepsPlain` | bot.py:42 | An id without dashes, as the weekday table's keys are, is left as it is by the normalisation. |
| `Bot.MealEntries` | bot.py:41-42 | One meal contributes one entry per relation. |
| `Bot.Entries` | bot.py:35-42 | The handler sees one entry for every relation of every planned meal. |
| `Bot.AddEntry` | bot.py:44-48 | One turn of the inner loop of `meals`: create the day's list if it is missing, then append the name; `AddEntryShape` states its effect. |
| `Bot.Group` | bot.py:33-48 | The dictionary the `meals` loops build from the entries in order; its properties are stated by `GroupValid`, `GroupKeys`, `GroupNames` and `GroupTotal`. |
| `Bot.GroupValid` | bot.py:33-48 | The weekday dictionary is well formed. |
| `Bot.GroupSnoc` | bot.py:44-48 | Grouping one more entry is one more turn of the inner loop. |
| `Bot.AddEntryShape` | bot.py:45-48 | A turn appends the name to an existing day's list. A new day is added at the end of the key order with a one-name list. |
| `Bot.GroupKeys` | bot.py:44-48 | A weekday is a key if and only if some planned meal relates to it. |
| `Bot.GroupNames` | bot.py:35-48 | Each day's list holds the names of the entries on that day, in query order. |
| `Bot.LengthSumOutside` | bot.py:48 | Changing the list of a day that is not a key leaves the total length unchanged. |
| `Bot.LengthSumAppend` | bot.py:48 | Appending a name to an existing day's list adds one to the total length. |
| `Bot.GroupTotal` | bot.py:35-48 | Every entry lands in exactly one list: the total length of the lists is the number of entries. |
| `Bot.MealsTotal` | bot.py:33-48 | The total length of all day lists is the total number of relations across the planned meals. |
| `Bot.AddMeal` | bot.py:41-48 | The inner loop adds the entries of one meal to the grouping. |
| `Bot.GroupPlannedMeals` | bot.py:33-48 | The handler's loop builds `Group` of all entries, in query order. |
| `Bot.DecimalString` | bot.py:62 | `str(n)` is a non-empty string of digits with a leading zero only for 0. |
| `Bot.ParseDecimalString` | bot.py:62 | Reading the digits back gives the number. |
| `Bot.FourDigits` | bot.py:62 | A four-digit year prints as four characters. |
| `Bot.SeedOf` | bot.py:62 | The seed `"{year}{week}"` is a string of at least two decimal digits; `SeedDeterminesWeek` states that it names its week. |
| `Bot.SeedDeterminesWeek` | bot.py:61-63 | For four-digit years, two (year, week) pairs give the same seed only when they are the same pair. |
| `Bot.MealNamesCapitalized` | bot.py:68-72 | Each slot name is its own capitalization, so each slot's filter selects its own tag. |
| `Bot.MealTables` | bot.py:68-72 | `meal_cache`: the filtered table of Breakfast, Lunch and Dinner, in that order; `SlotNameTagged` states what a slot draws from it. |
| `Bot.Slots` | bot.py:81-83 | After `n` slots that do not raise, `n` sets have been chosen. |
| `Bot.SlotsNext` | bot.py:82-83 | The next slot's run either raises, or adds its accepted set to the chosen sets and to the shared set. |
| `Bot.SlotsStopped` | bot.py:82-83 | Once a slot raises, no later slot runs. |
| `Bot.SlotsDisjoint` | bot.py:81-83 | Each filled slot holds seven names of its own table, all in the shared set. No name is in two slots. |
| `Bot.SlotsGrow` | bot.py:83 | A filled slot adds seven names of its own table that were not yet taken, and leaves the earlier slots alone. |
| `Bot.TakeOne` | bot.py:83 | One step of listing a set keeps the list distinct and, together with what remains, covering the set. |
| `Bot.SetToList` | bot.py:83 | `list(s)` holds each member of `s` exactly once, in some order. |
| `Bot.ListsMatchSnoc` | bot.py:83 | Storing one more list keeps the stored lists in step with the chosen sets. |
| `Bot.ChooseSlots` | bot.py:80-83 | The slot loop returns `Slots`' error, or lists that list exactly the chosen sets, with the generator advanced by the draws made. |
| `Bot.Flatten` | bot.py:93 | `sum(lists, [])`: the slot lists one after another; `FlattenWeeks`, `FlattenMembers` and `FlattenDistinct` state its properties. |
| `Bot.FlattenWeeks` | bot.py:93 | With seven names per slot, the flat list has `7 * slots` names, and flat index `7 * s + d` holds name `d` of slot `s`. |
| `Bot.FlattenMembers` | bot.py:93 | Every name of the flat list comes from one of the slot lists. |
| `Bot.FlattenDistinct` | bot.py:81-93 | If each slot list is distinct and no two slots share a name, the flat list is distinct. |
| `Bot.PlanPages` | bot.py:90-98 | The write instructions `plan` computes form a well-formed dictionary. |
| `Bot.WriteWeek` | bot.py:89-99 | The requests sent and the failure count are those of `PlanPages`. |
| `Bot.Plan` | bot.py:58-99 | An empty recipe table stops with NoRecipes and writes nothing. A slot that raises stops with its error and writes nothing. Otherwise the three slot lists list the sets `Slots` draws from the week's seed, exactly `PlanPages`' requests are sent, and the failure count is returned. |
| `Bot.SlotLists` | bot.py:81-83 | The slot lists: as many lists as tables, each list seven distinct names of its own table, and no name in two lists. |
| `Bot.SlotNameTagged` | bot.py:68-83 | A name of slot `s` is the title of a recipe that carries the slot's meal tag. |
| `Bot.PlanSlots` | bot.py:81-93 | Three slots of seven names each, and a flat list of 21 distinct names. |
| `Bot.WeekIndex` | bot.py:96 | Flat index `7 * s + d` selects weekday `d`. |
| `Bot.PlanDays` | bot.py:90-96 | Name `d` of every slot maps to weekday relation `d`, so a day's breakfast, lunch and dinner share it. |
| `Bot.PlanWrites` | bot.py:96-98 | When page ids do not repeat in the query results, every page of the results is written. A chosen recipe gets the single relation of the weekday its position selects, and every other page gets `[]`. |
| `Bot.ChosenTitles` | bot.py:83-98 | The titles of the chosen results are exactly the chosen names. |
| `Bot.ChosenCount` | bot.py:93-98 | With distinct titles, exactly 21 results are chosen. |
| `Bot.SingletonPages` | utils.py:52-63 | With distinct page ids, the pages that get a relation are exactly the pages of the chosen results. |
| `Bot.PlanSingletons` | bot.py:93-98 | With distinct page ids and titles, exactly 21 pages get a relation. |

## Left out

- notion.py is not part of this model: the HTTP requests, headers, payloads and JSON decoding. The query results are parameters. `update_recipe_with_day`'s status code comes from an oracle of the page and its relation list; the loop writes each page once, so this loses no generality.
- The Discord side is not modelled: bot setup, the async command dispatch, `ctx.send`, and the table formatting with `format_output`, `format_output_weekly` and `debug`. These are user interface, network and printing.
- The clock and the module-level seeding at bot.py:24-26 are not modelled. `plan` takes the ISO year and week as parameters. Like the code, it reseeds the generator when it starts (bot.py:61-63).
- Python's generator algorithm is not modelled. `random.seed` selects an arbitrary stream, given by the `generator` parameter, and `random.choice` reduces the next stream value modulo the list length.
- constants.py and the environment configuration are not part of this model. `PAGE_FOR_WEEKDAY` is a parameter: a map for `meals` and a well-formed seven-entry `Dict` for `plan`.
- `list(set)` order: Python leaves it unspecified, so `SetToList` takes the members in an arbitrary order. The per-slot sets are fully determined by the seed; the order within a slot list is not.
- The `meals` handler's query is modelled only through its parameters: a planned meal is its title and the relation ids of its "When" property.
- Nested JSON access such as `properties["Name"]["title"][0]["plain_text"]` is flattened into `Recipe` and `PlannedMeal` fields. The KeyError and IndexError of malformed rows are not modelled.
- The KeyError of `PAGE_FOR_WEEKDAY[...]` in `meals` and of `chosen_recipes_to_relation_ids[name]` in `get_page_to_relation_id` are modelled as preconditions (`KnownDays`, `Covers`). So is the IndexError of `days_relation_ids[index % 7]` in `get_meal_to_relation_id`. Each states the exact condition under which the lookup succeeds.
- `Bot.Plan`: when the recipe table is empty, `filter_recipes_for_meal` returns None and `choose_unique_recipes(None, ...)` fails with AttributeError. The model returns `NoRecipes` instead of modelling the exception's type.
- `Bot.SeedDeterminesWeek`: stated for four-digit years only. For other widths, concatenating the decimal year and week can give the same seed for two different weeks.
- `Bot.PlanSingletons` and `Bot.ChosenCount`: the count of 21 assumes titles and page ids do not repeat in the query results. With repeated titles, more than 21 pages can get a relation.
- `Utils.ChooseUniqueRecipes`: the guard `attempts > 25` (utils.py:34) is tested before the increment (utils.py:37), so the loop makes up to 26 draws (`MaxAttempts + 1`).
- `Utils.Capitalize`: case mapping is ASCII only. Python's `str.capitalize` maps every Unicode cased letter and can change the length (`'ß'` becomes `'Ss'`). Every call site passes an ASCII literal (bot.py:69-71), so the tags the filter selects are the same.
- The progress prints of `update_notion_with_meals` (utils.py:85, 87) are not modelled; they only write to the console.
