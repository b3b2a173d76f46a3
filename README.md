# Miyako trip dashboard: verified model of its trip-state core

The application is a single-page Streamlit dashboard for one trip to Miyakojima.
Most of it displays fixed content: the itinerary, a map, checklists and a phrasebook.
Its only logic with state sits in `st.session_state`:

- a budget, an expense list, a one-line diary and a theme flag, seeded once per
  browser session from `miyako_data.json` (or built-in defaults when that file
  does not exist);
- six user actions that change that state, each followed by a rewrite of the
  whole four-field file;
- derived wallet metrics (spent, remaining, progress bar);
- a few small pure rules: the weather-code icon chain, the D-day label and the
  map-code lookup with its `"-"` default.

This project models that core in Dafny and proves its properties.

Modules:

- `Wrappers`: `Option`, for a missing file, a blank form field, a failed forecast.
- `Lists`: `RemoveAt`, Python's `list.pop(i)`.
- `Ledger`: the `Expense` record, the sum of amounts, remaining budget and the
  progress fraction (exact `real` arithmetic).
- `Trip`: the `Snapshot` of the four persisted fields, `Load`, every state
  transition as a pure function of the old snapshot, and the class `Session`.
  Its fields are the session keys plus `persisted`, which stands for the data
  file. Each `Session` method changes the fields it names, calls `Save` just as
  the script calls `save_data`, and is proved equal to its pure transition.
  `Session.Valid()` states that once the session is initialised, loading the
  file gives exactly the in-memory state; every method preserves it.
- `Weather`: WMO weather-code to icon classification, and the three-day loop
  that builds the forecast rows.
- `Sidebar`: the `D-n` / `D+n` label, with a decimal round trip.
- `Itinerary`: the MapCode column, a table lookup defaulting to `"-"`.

The code performs none of the following checks, and the model follows it:

- The budget input accepts any integer, negative included; there is no check.
- The delete handlers have no out-of-range error. Their index always comes from
  `enumerate` over the same list, so the delete methods require `i < |list|`.
- The progress bar is `min(1.0, spent / budget)` only. It is not clamped below,
  so it is guaranteed to lie in [0, 1] when all amounts are positive, as the
  add guard ensures (lemma `ProgressInUnitInterval`).
- A data file that exists but is malformed makes `json.load` raise; no recovery
  is attempted.

## Model

| member | source | states |
|---|---|---|
| `Lists.RemoveAt` | miyakojima_web.py:233 | `pop(i)` shortens the list by one, keeps the elements before and after `i` in order, and drops exactly one occurrence of the element at `i` |
| `Ledger.SumConcat` | miyakojima_web.py:364 | the total spent over two concatenated expense lists is the sum of their totals |
| `Ledger.SumAppend` | miyakojima_web.py:379 | appending an expense raises the total spent by exactly its amount |
| `Ledger.SumRemoveAt` | miyakojima_web.py:390 | deleting the expense at `i` lowers the total spent by exactly that row's amount |
| `Ledger.SumPermutation` | miyakojima_web.py:364 | the total spent does not depend on the order in which expenses were logged |
| `Ledger.SumAtLeastLength` | miyakojima_web.py:378 | when every amount passes the add guard (> 0), the total is at least the number of rows, so it is never negative |
| `Ledger.Remaining` | miyakojima_web.py:365 | remaining plus spent is the budget; it is negative exactly when spending exceeds the budget |
| `Ledger.Progress` | miyakojima_web.py:366 | 0 when the budget is ≤ 0; never above 1; exactly 1 once spending reaches the budget; otherwise spent/budget; non-negative when spent is |
| `Trip.Load` | miyakojima_web.py:21-30 | with no file: budget 150000, no expenses, no diary, light mode; with a file: exactly the saved snapshot |
| `Trip.Toggled` | miyakojima_web.py:55-57 | the theme flag flips and no other field changes |
| `Trip.DiaryLine` | miyakojima_web.py:224 | the entry is `[`, the timestamp, `] `, then the note, so both can be read back from their positions |
| `Trip.WithDiaryEntry` | miyakojima_web.py:223-225 | an empty note changes nothing; otherwise the formatted line is appended after the unchanged old entries; the other fields are untouched |
| `Trip.WithoutDiaryEntry` | miyakojima_web.py:229-234 | the diary becomes `diary[..i] + diary[i+1..]`; the other three fields are unchanged |
| `Trip.WithBudget` | miyakojima_web.py:355-357 | only the budget changes, to the new value, with no validation |
| `Trip.WithExpense` | miyakojima_web.py:378-379 | a rejected submission leaves the snapshot unchanged; an accepted one grows the list by one, keeps the earlier rows and puts `{item, amount}` last |
| `Trip.WithoutExpense` | miyakojima_web.py:385-390 | the list becomes `expenses[..i] + expenses[i+1..]`; the other three fields are unchanged |
| `Trip.ToggleTwice` | miyakojima_web.py:55-57 | toggling the theme twice restores the original snapshot |
| `Trip.RemovalDropsOneRow` | miyakojima_web.py:385-391 | after a delete the list holds the old rows minus that single row, and is one shorter |
| `Trip.SpentAfterAdd` | miyakojima_web.py:378-380 | the total spent grows by the amount when the guard accepts, and not at all otherwise |
| `Trip.SpentAfterDelete` | miyakojima_web.py:389-391 | deleting row `i` lowers the total spent by that row's amount |
| `Trip.PositiveAmountsKept` | miyakojima_web.py:378-391 | adding (behind the guard) and deleting keep every recorded amount positive |
| `Trip.ProgressInUnitInterval` | miyakojima_web.py:364-366 | with positive amounts the progress fraction lies in [0, 1] for every budget |
| `Trip.RemainingAfterTwoExpenses` | miyakojima_web.py:355-380 | from an empty list, budget 100000 then expenses of 3000 and 2000 leave 95000 remaining |
| `Trip.Session.constructor` | miyakojima_web.py:44 | a new session has no keys set yet and sees the data file as it is |
| `Trip.Session.Initialize` | miyakojima_web.py:44-52 | the first run loads the file (or defaults) into the four fields and sets the day to "2/16 (월)" only if none is set; later runs change nothing; the file is not written |
| `Trip.Session.SelectDay` | miyakojima_web.py:263 | the day pills write the chosen day into the session |
| `Trip.Session.Save` | miyakojima_web.py:33-41 | the file afterwards holds exactly the four in-memory fields |
| `Trip.Session.ToggleTheme` | miyakojima_web.py:55-57 | memory becomes `Toggled` of the old state and the file equals memory |
| `Trip.Session.AddDiaryEntry` | miyakojima_web.py:221-226 | succeeds exactly for a non-empty note; memory follows `WithDiaryEntry`; the file is rewritten on success and untouched otherwise |
| `Trip.Session.DeleteDiaryEntry` | miyakojima_web.py:228-235 | memory follows `WithoutDiaryEntry` and the file equals memory |
| `Trip.Session.UpdateBudget` | miyakojima_web.py:355-359 | the file is rewritten exactly when the value changed; memory follows `WithBudget` |
| `Trip.Session.AddExpense` | miyakojima_web.py:375-381 | succeeds exactly when the guard accepts; memory follows `WithExpense`; the file is rewritten on success and untouched otherwise |
| `Trip.Session.DeleteExpense` | miyakojima_web.py:384-392 | memory follows `WithoutExpense` and the file equals memory |
| `Weather.IconFor` | miyakojima_web.py:104-109 | cloud exactly for codes 1-3; fog exactly for 45 and 48; rain exactly for drizzle and rain codes 51/53/55/61/63/65; showers exactly for codes ≥ 80 |
| `Weather.SunIsTheFallback` | miyakojima_web.py:105-109 | the sun icon is shown exactly for the codes no branch names: 0, codes below 0 and unlisted codes under 80 |
| `Weather.ThreeDayForecast` | miyakojima_web.py:97-112 | a forecast exists exactly when the code list arrived with at least three days; it then has three rows labelled today, tomorrow and the day after, each carrying the emoji of `IconFor` of that day's code |
| `Sidebar.Decimal` | miyakojima_web.py:143-144 | a day count is written as at least one decimal digit with no leading zero |
| `Sidebar.DecimalRoundTrip` | miyakojima_web.py:143-144 | reading the decimal text back gives the number |
| `Sidebar.DDayLabel` | miyakojima_web.py:143-144 | the label is `D-` followed by digits exactly when the count is positive, and `D+` followed by digits otherwise; the digits have no leading zero |
| `Sidebar.DDayLabelRoundTrip` | miyakojima_web.py:143-144 | distinct day counts get distinct labels: reading a label back gives its count |
| `Itinerary.MapCodeColumn` | miyakojima_web.py:203 | one entry per itinerary row: the place's code when the table has it, `"-"` otherwise |
| `Itinerary.DashMarksMissingPlaces` | miyakojima_web.py:203 | while no table code is `"-"`, a `"-"` in the column marks exactly the places missing from the table |

## Left out

- Streamlit presentation: CSS, tabs, metrics, widgets, `st.rerun`, checklists and phrasebook. The mutations are the methods that the form and button handlers call.
- JSON encoding, file existence checks and file I/O: the file is the `persisted` value.
- `Trip.Session.Save`: a failed or partial write is not modelled. `open(..., "w")` empties the file before `json.dump` writes it, and memory has already changed, so a failure there leaves the file behind memory. `Session.Valid()` assumes every write succeeds.
- A data file that exists but holds malformed JSON: the script then raises. `Load` takes a well-formed snapshot or none.
- Several browser sessions sharing one data file, which the script resolves as last writer wins: each `Session` owns its own `persisted` value.
- Network calls to the exchange-rate and forecast APIs, and their one-hour caching: the forecast's code list is a parameter.
- `Weather.ThreeDayForecast`: does not carry the daily maximum and minimum temperatures, because they come from floating-point `round`. The other ways the response can fail are folded into `daily == None`: a missing or short temperature list, and a `null` weather code. With these folded in, a forecast exists exactly when the code list has at least three days.
- Floating point: the JPY to KRW conversion, and the float division inside the progress bar. Progress uses exact `real` division instead.
- Date and time: the diary timestamp string and the D-day count are inputs, not computed from `datetime`/`pytz`.
- The D-day metric's caption text, the menu roulette (`random.choice`), the folium map and the plotly chart.
- The map-code table and the itinerary rows are static data: `MapCodeColumn` takes them as parameters.
- `Trip.Session.SelectDay`: the pills widget can also be deselected, which leaves the key empty; that case is not modelled.
