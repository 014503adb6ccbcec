# Sims 2 Randomizer, modelled in Dafny

This project models the logic of `main.py` of Sims2Randomizer, a desktop helper for The Sims 2.
The window has three buttons, and each one appends a report to a read-only text log:

- **Randomize Sim** hands out 25 personality points over five axes. Each axis is capped at 10
  points. The report also gives two chemistry turn-ons and one turn-off sampled from a catalog,
  an aspiration and a favourite colour.
- **Random Event** picks one line from the event list.
- **Randomize Family** draws a household size from a configured inclusive range. Sim 1 is always
  an adult, and every further Sim gets an age and a gender drawn from the configured lists.

Each call into Python's `random` module is a nondeterministic pick (module `Randomness`), so
every property below holds for every outcome of the random draws. The Python exceptions those
calls raise on unusable catalogs are modelled as results, not as preconditions:

- `choice([])` raises IndexError.
- `sample` asked for more items than the catalog holds raises ValueError.
- `randint(lo, hi)` with `lo > hi` raises ValueError.

When one of these is raised, the handler stops before appending, so the log is unchanged.

Modules, in the order of the program:

- `Traits`: the allocation loop. The source's local dict is a `map` value that each round
  replaces. The dict is local to the handler, so no aliasing is lost.
- `Chemistry`: the three-way sample and its split into turn-ons and turn-off.
- `Sim`: the rest of `randomize_sim` and the loops that build its report.
- `Family`: the roster loop of `randomize_family` and its report.
- `InfoLog`: the append of `append_to_info_display`.
- `App`: the class `SimulationApp`, which holds the catalogs and the log.
- Helpers: `Common` (result types), `Randomness` (the random calls), `Text` (`str()` of an
  integer and `str.capitalize` on ASCII text).

The comment at main.py:91 speaks of 50 points, but the code hands out 25 (main.py:92). The model
follows the code.

When the drawn family size is below 1, Sim 1 is still listed. The roster then has
`max(num_sims, 1)` entries (`Family.Listed`).

## Model

| member | source | states |
|---|---|---|
| `Traits.InitialTraits` | main.py:89 | the table starts with exactly the five axes, every one at 0, and a total of 0 |
| `Traits.AxesDistinct` | main.py:89 | the five axis names are pairwise different |
| `Traits.SumOverZero` | main.py:89 | a table whose axes all hold 0 has a total of 0 |
| `Traits.Unsaturated` | main.py:102 | `remaining_traits` holds exactly the axes that are below 10 |
| `Traits.SumOverUpdate` | main.py:98-99 | setting one axis changes the total by exactly the change in that axis, and adding a point raises it by one |
| `Traits.PointRaisesTotal` | main.py:98-99 | giving one axis one more point raises the total by exactly one |
| `Traits.RoundAddsOnePoint` | main.py:93-105 | while fewer than 50 points are handed out, a round as `Traits.Round` describes keeps the five keys and every axis within 0 to 10, and hands out exactly one point |
| `Traits.SaturatedSum` | main.py:102-103 | if no axis is below 10, the total is at least 10 per axis |
| `Traits.UnsaturatedWhileBelowCapacity` | main.py:100-105 | while fewer than 50 points are handed out, `remaining_traits` is non-empty, so the `if remaining_traits:` guard never skips a round |
| `Traits.Round` | main.py:95-105 | one round keeps the five keys and gives exactly one point to exactly one axis that was below 10, leaving the others unchanged. That axis is the first pick when the first pick is below 10. No axis changes only when every axis is at 10 |
| `Traits.AllocateTraits` | main.py:89-105 | after the 25 rounds the table has exactly the five axes, each holding 0 to 10 points, and the points add up to exactly 25 |
| `Randomness.Choice` | main.py:95 | `random.choice` returns an element of the non-empty list it is given |
| `Randomness.RandInt` | main.py:141 | `random.randint(lo, hi)` returns a value in the inclusive range |
| `Randomness.SampleThree` | main.py:112 | `random.sample(..., 3)` takes three pairwise-distinct positions of the population |
| `Chemistry.Split` | main.py:112-118 | entries 0 and 1 of the sample are the turn-ons and entry 2 is the turn-off. All three come from distinct catalog positions |
| `Chemistry.DrawnLabelsDistinct` | main.py:112-118 | over a catalog without repeated labels, the two turn-ons and the turn-off are three different labels |
| `Chemistry.SampleChemistry` | main.py:112 | a catalog of fewer than three entries raises ValueError. Otherwise the split is drawn from three distinct positions |
| `Sim.GenerateSim` | main.py:89-124 | succeeds exactly when the chemistry catalog has at least 3 entries and the aspiration and colour lists are non-empty. ValueError comes before IndexError. On success the traits satisfy the allocation invariant, the chemistry is a distinct-position draw, and the aspiration and colour come from their lists |
| `Sim.RenderTraits` | main.py:107-109 | the loop writes the `Traits:` heading and then one `Name: value` line per axis, in key order |
| `Sim.RenderChemistry` | main.py:113-118 | the loop writes the two turn-ons, each followed by `, `, and then the turn-off line |
| `Sim.RenderSim` | main.py:107-126 | the accumulated `result_text` is the trait block, then the chemistry block, the aspiration and colour lines, and the closing rule |
| `Family.Listed` | main.py:143-145 | Sim 1 is always listed. A household size of at least 1 lists exactly that many Sims |
| `Family.DrawRoster` | main.py:145-150 | the loop fails with IndexError exactly when the age list is empty and a second Sim is due. Otherwise the roster has `Listed(size)` entries: Sim 1 as given, then every later Sim with an age and a gender from the lists. The text is the header, one numbered line per Sim, and the closing rule |
| `Family.RandomizeFamily` | main.py:140-150 | no genders raises IndexError, and `lo > hi` raises ValueError. If there are no ages it fails only when a second Sim is drawn. Otherwise it succeeds. On success the size is in `[lo, hi]`, Sim 1 is an "Adult" with a gender from the list, and the roster and text are as `Family.DrawRoster` states |
| `InfoLog.Appended` | main.py:157-158 | the new log keeps the old log as a prefix, then the blank-line separator, and ends with the new text |
| `InfoLog.LogOnlyGrows` | main.py:155-158 | over any run of appends, the original log stays a prefix, and the log grows by exactly the separators and the texts |
| `InfoLog.AppendedAllSplit` | main.py:155-158 | appending two runs of texts one after the other is the same as appending their concatenation |
| `App.SimulationApp.constructor` | main.py:20-32 | the catalogs are kept as loaded, and the display starts empty |
| `App.SimulationApp.AppendToInfoDisplay` | main.py:155-158 | the log becomes the old log, the separator and the text |
| `App.SimulationApp.RandomizeSim` | main.py:87-129 | a success appends exactly the rendered report of a profile that satisfies all of the above. An exception leaves the log unchanged |
| `App.SimulationApp.RandomEvent` | main.py:130-136 | an empty event list raises IndexError and leaves the log unchanged. Otherwise it appends the text of an event from the list |
| `App.SimulationApp.RandomizeFamily` | main.py:138-153 | no genders raises IndexError, `lo > hi` raises ValueError, and an empty age list fails only with IndexError. A success appends exactly the rendered report of a household that satisfies the family properties. An exception leaves the log unchanged |

## Left out

- Widget construction, layout, palette, fonts, style sheets, the window icon, scrolling the display
  and hiding its scroll bar (main.py:13-85, 160-171): these use PyQt5 and do not affect the logic.
- Reading characters.json, events.json and family.json (main.py:21-32): this is file I/O. The
  constructor receives the parsed lists. Missing files, missing keys, an `nr_of_sims` entry that
  is not a pair, and catalog values that are not strings are not modelled.
- The display widget's own text handling: the model treats `setPlainText` followed by
  `toPlainText` as returning the same string.
- The distribution of the random draws: the model says only which values a draw can produce.
- `Text.Capitalize`: models `str.capitalize` for ASCII letters only. Python's Unicode case mapping
  is not modelled, and the five axis names are ASCII.
- An exception raised inside a Qt slot: the model stops the handler and leaves the log as it was.
  What PyQt5 then does with the exception is not modelled.
- The animal list of family.json, the pets option, event add and remove, and empty-input
  warnings: `main.py` has none of them.
