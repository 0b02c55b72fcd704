# Antibody database explorer: a verified model of its query logic

The explorer is a web front end over a SQLite database of therapeutic
monoclonal-antibody safety data, with an HTTP backend and a spreadsheet ingest
step. This project models its query logic and proves properties of it:

- the client-side query state (`FilterContext`), which is a reducer over a
  state record with twelve named transitions, and the dispatch sequences
  that `loadFilterOptions` and `applyFilters` emit once the backend answers;
- the components that read and drive that state:
  - the dataset selector (`Header`);
  - donut-chart consolidation (`DonutChart`);
  - the multi-select filters (`FilterPanel`);
  - search suggestions and the debounced commit (`SearchBar`);
  - column order, pagination and sort toggling (`DataTable`);
  - the active-filter count and the Apply and Clear buttons (`FilterBar`);
- the backend helpers (`Main`): table validation, identifier quoting, the
  WHERE builder, the paged query and the distribution query;
- the ingest helpers (`Ingest`): column-name normalisation, the renaming of
  repeated names, the null markers and formula-column detection;
- facts linking the layers (`CrossLayer`).

Modelling choices:

- JavaScript objects and Python dicts become ordered association lists with
  distinct keys (`Dict`), because both keep insertion order and `build_where`
  iterates in that order. A JavaScript object lists integer-like keys first,
  in ascending order, but column names are never integer-like.
- A backend reply is a parameter: success with a value, or failure with a
  message. `Promise.all` and the fire-and-forget adverse-event fetch become
  two steps. One method runs up to the request and returns what was asked
  for; a second applies the settled outcome.
- The store is the class `FilterContext.Provider`. It holds the current
  state and a ghost trace of every dispatched action.
- The 300 ms debounce timer of the search box becomes one pending-commit
  slot.
- SQL statements are modelled as the text handed to SQLite plus its
  positional parameter list. Case folding is ASCII.

## Model

| member | source | states |
|---|---|---|
| FilterContext.IsCtgov | frontend/src/context/FilterContext.jsx:97 | the flag is true exactly when the table name starts with `ctgov` |
| FilterContext.Reduce | frontend/src/context/FilterContext.jsx:36-52 | each action changes only the fields its spread lists; every other field keeps its value |
| FilterContext.SetTableResets | frontend/src/context/FilterContext.jsx:38 | SET_TABLE sets the table, empties filters and search, and restores results, distributions and adverse-event data to their initial values. It keeps sort, options, loading and error |
| FilterContext.ClearFiltersResets | frontend/src/context/FilterContext.jsx:49 | CLEAR_FILTERS is exactly "filters empty, search empty", with every other field unchanged |
| FilterContext.RepliesEndLoading | frontend/src/context/FilterContext.jsx:42-47 | SET_RESULTS and SET_ERROR both end loading; SET_ERROR installs the message and keeps the previous results |
| FilterContext.UnrecognisedIsIdentity | frontend/src/context/FilterContext.jsx:50 | an unknown action leaves the state unchanged |
| FilterContext.FieldSurvives | frontend/src/context/FilterContext.jsx:36-52 | a field that no action of a sequence writes has the same value after the whole sequence |
| FilterContext.ErrorPersists | frontend/src/context/FilterContext.jsx:36-52 | across any sequence without SET_ERROR, including successful queries, the error stays what it was |
| FilterContext.ReduceAllConcat | frontend/src/context/FilterContext.jsx:55 | dispatching `a` then `b` is the same as dispatching `a + b` |
| FilterContext.PendingFor | frontend/src/context/FilterContext.jsx:67-72 | the paged query carries the captured table, filters and search, page size 50 and the requested sort. There is one distribution request per chart, for that chart's column |
| FilterContext.DistributionPayload | frontend/src/context/FilterContext.jsx:72-75 | one slot per distribution reply; a failed fetch becomes `{labels: [], values: []}` in its own slot and nowhere else |
| FilterContext.QueryReplyOrder | frontend/src/context/FilterContext.jsx:68-83 | a successful batch dispatches exactly SET_RESULTS, SET_DISTRIBUTIONS, SET_SORT in that order; a failed one exactly SET_ERROR |
| FilterContext.AeFailureIsSilent | frontend/src/context/FilterContext.jsx:78-80 | a failed adverse-event fetch dispatches nothing, and an adverse-event reply never touches the error |
| FilterContext.ApplySucceeds | frontend/src/context/FilterContext.jsx:67-77 | after a whole successful `applyFilters`: the results are the reply, the distributions are the payload, the sort is the requested one and loading is off. Nothing else changes |
| FilterContext.ApplyFails | frontend/src/context/FilterContext.jsx:67-83 | after a failed `applyFilters`: the error is the message and loading is off. Results, distributions and sort are unchanged |
| FilterContext.OptionsLoadingStuck | frontend/src/context/FilterContext.jsx:47-64 | after a failed vocabulary fetch, `optionsLoading` stays true through any later actions that do not set it |
| FilterContext.LastReplyWins | frontend/src/context/FilterContext.jsx:67-84 | when two queries overlap across a table switch, the later-arriving reply is installed whatever table it was for |
| FilterContext.Provider.constructor | frontend/src/context/FilterContext.jsx:21-34 | the store starts in the initial state with an empty trace |
| FilterContext.Provider.Dispatch | frontend/src/context/FilterContext.jsx:55 | the state becomes the reducer applied to the old state, and the action is appended to the trace |
| FilterContext.Provider.LoadFilterOptions | frontend/src/context/FilterContext.jsx:57-60 | SET_OPTIONS_LOADING(true) is dispatched and the vocabulary for the given table is requested |
| FilterContext.Provider.FilterOptionsSettled | frontend/src/context/FilterContext.jsx:60-64 | a reply dispatches SET_FILTER_OPTIONS; a failure dispatches SET_ERROR |
| FilterContext.Provider.ApplyFilters | frontend/src/context/FilterContext.jsx:67-73 | SET_LOADING(true) is dispatched, and the requests are those of `PendingFor` on the state at the call |
| FilterContext.Provider.QuerySettled | frontend/src/context/FilterContext.jsx:70-83 | the batch's transitions are dispatched; the adverse-event request is issued exactly when the paged query succeeded |
| FilterContext.Provider.AdverseEventsSettled | frontend/src/context/FilterContext.jsx:78-80 | a reply dispatches SET_AE_DATA; a failure dispatches nothing |
| FilterContext.Provider.ChangeTable | frontend/src/context/FilterContext.jsx:93 | `setTable` dispatches SET_TABLE |
| FilterContext.Provider.ChangeFilters | frontend/src/context/FilterContext.jsx:94 | `setFilters` dispatches SET_FILTERS |
| FilterContext.Provider.ChangeSearch | frontend/src/context/FilterContext.jsx:95 | `setSearch` dispatches SET_SEARCH |
| FilterContext.Provider.ClearAll | frontend/src/context/FilterContext.jsx:96 | `clearFilters` dispatches CLEAR_FILTERS |
| Header.TableEffect | frontend/src/components/Header.jsx:7-10 | the effect asks for the current table's vocabulary and for page 1 with no sort column, ascending. It dispatches exactly SET_OPTIONS_LOADING(true), then SET_LOADING(true) |
| Header.SelectDataset | frontend/src/components/Header.jsx:7-33 | choosing a dataset dispatches SET_TABLE; the effect runs exactly when the table value changed |
| Header.SwitchQueriesFreshState | frontend/src/components/Header.jsx:7-10 | after a switch the query is for the new table: page 1, no filters, empty search, default sort. The distribution requests share that table, filters and search |
| Header.SwitchResetsSortOnSuccess | frontend/src/components/Header.jsx:9 | once the switch's query succeeds, the sort is reset to no column, ascending, and the table, filters and search are those of the switch |
| DonutChart.ConsolidateOverflow | frontend/src/components/DonutChart.jsx:8-12 | a list longer than the budget becomes exactly `maxSlices` labels and values. The first `maxSlices - 1` pairs are the input prefix, the last label is `Other` with the sum of the rest, and the total is preserved |
| DonutChart.Display | frontend/src/components/DonutChart.jsx:7-18 | without data the chart shows one `No data` slice of value 1. Data that fits is shown as given, and longer data as ten slices ending in `Other` |
| FilterPanel.Options | frontend/src/components/FilterPanel.jsx:40 | no entry for the column gives no options; some entry for it means the options are one of its entries' vocabularies, and with distinct keys every entry for the column carries exactly these options |
| FilterPanel.Selected | frontend/src/components/FilterPanel.jsx:41 | the selection is the filter entry for the column, or empty when absent |
| FilterPanel.HandleChange | frontend/src/components/FilterPanel.jsx:43-49 | a cleared or empty selection removes the key and a non-empty one maps the column to the values in order. Every other key is unchanged, and "no empty selection" and distinct keys are preserved |
| FilterPanel.OnChange | frontend/src/components/FilterPanel.jsx:43-50 | the new set is committed with one SET_FILTERS, with the same per-key facts |
| FilterPanel.Columns | frontend/src/components/FilterPanel.jsx:123-139 | the phase and event-type controls exist exactly for clinical-trial tables; there are 10 controls then, 8 otherwise |
| Dict.Set | frontend/src/components/FilterPanel.jsx:48 | assignment gives the key the value and keeps every other key and the distinctness of keys |
| Dict.SetKeepsPositions | frontend/src/components/FilterPanel.jsx:48 | a new key is appended after all existing entries; an existing key keeps its position, only its value changes, and every other entry stays where it was |
| Dict.Delete | frontend/src/components/FilterPanel.jsx:46 | deletion removes the key, keeps every other key and the order of the rest |
| SearchBar.Suggestions | frontend/src/components/SearchBar.jsx:28 | at most ten suggestions, each a non-empty label that contains the input case-insensitively. They are an order-preserving subsequence of the labels, and when fewer than ten, every matching label with its multiplicity |
| SearchBar.SuggestionsAreFirstMatches | frontend/src/components/SearchBar.jsx:28 | the number of suggestions is the smaller of ten and the number of matching labels, and the matching label at position `j` is suggestion number `k`, where `k` counts the matches before it, whenever `k` is below ten: the suggestions are the first ten matches in order |
| SearchBar.MatchRank | frontend/src/components/SearchBar.jsx:28 | a matching label at position `j` is the match numbered by the count of matches before it |
| SearchBar.MatchCountIsLength | frontend/src/components/SearchBar.jsx:28 | counting the matches label by label gives the length of the filtered list |
| SearchBar.SuggestionsNonEmpty | frontend/src/components/SearchBar.jsx:28-30 | the list is non-empty exactly when some label matches |
| SearchBar.SearchBar.constructor | frontend/src/components/SearchBar.jsx:6-9 | the box starts with the shared search text, no suggestions, the list hidden and no commit pending |
| SearchBar.SearchBar.HandleChange | frontend/src/components/SearchBar.jsx:22-34 | the box shows the input at once and the pending commit is replaced by one for it. With two or more characters (counted as Unicode characters, not UTF-16 units) and a vocabulary, the suggestions are recomputed and shown exactly when non-empty; otherwise the list is hidden |
| SearchBar.SearchBar.TimerFires | frontend/src/components/SearchBar.jsx:25 | the pending value, if any, is committed with one SET_SEARCH and the slot is emptied |
| SearchBar.SearchBar.SelectSuggestion | frontend/src/components/SearchBar.jsx:36-40 | box and search become the choice and the list is hidden; the pending commit is left as it was |
| SearchBar.SearchBar.SelectSuggestionCancelling | frontend/src/components/SearchBar.jsx:36-40 | as above, with the pending commit cancelled |
| SearchBar.SearchBar.SearchChanged | frontend/src/components/SearchBar.jsx:12 | the box follows the shared search text |
| SearchBar.TypeThenWait | frontend/src/components/SearchBar.jsx:22-25 | after a burst of keystrokes and the timer, exactly one SET_SEARCH is dispatched, with the last typed value |
| SearchBar.SelectWhileDebouncing | frontend/src/components/SearchBar.jsx:25-40 | a suggestion chosen within the debounce window is overwritten: search and box end on the typed text |
| SearchBar.SelectWhileDebouncingCancelling | frontend/src/components/SearchBar.jsx:36-40 | with the commit cancelled, search and box keep the choice |
| DataTable.OrderedColsPermutation | frontend/src/components/DataTable.jsx:40-41 | for a row's distinct keys, the ordered columns are a permutation of them |
| DataTable.OrderedColsFront | frontend/src/components/DataTable.jsx:4-41 | the priority columns present come first, in priority order |
| DataTable.OrderedColsBack | frontend/src/components/DataTable.jsx:41 | the other columns follow in their original order |
| DataTable.FrontFirstPermutation | frontend/src/components/DataTable.jsx:41 | moving the members of a distinct list to the front of a distinct list is a permutation |
| DataTable.FrontFirstOrder | frontend/src/components/DataTable.jsx:41 | in that rearrangement, the moved members keep the front list's order and the rest keep theirs |
| DataTable.PriorityColsDistinct | frontend/src/components/DataTable.jsx:4-11 | the priority list has no repeats |
| DataTable.TotalPages | frontend/src/components/DataTable.jsx:42 | the page count is the ceiling of total over page size: the smallest count of pages that holds the total |
| DataTable.ShowsPager | frontend/src/components/DataTable.jsx:118 | the pager is drawn exactly when the total exceeds one page |
| DataTable.NextSortDir | frontend/src/components/DataTable.jsx:45 | descending exactly when the same column is clicked while ascending; ascending otherwise |
| DataTable.HandleSort | frontend/src/components/DataTable.jsx:44-47 | a header click re-queries the current page, sorted by the column in the next direction |
| DataTable.SortClicksAlternate | frontend/src/components/DataTable.jsx:44-47 | once that query succeeds, the clicked column is the sort column with the new direction |
| DataTable.HandlePage | frontend/src/components/DataTable.jsx:49-52 | a page outside 1..totalPages does nothing; any other page is queried with the current sort |
| DataTable.PageNumbers | frontend/src/components/DataTable.jsx:58-61 | consecutive pages from max(1, page-2) to min(totalPages, page+2): at most five, all within 1..totalPages, including the current page when valid |
| FilterBar.ActiveCountIsColumnCount | frontend/src/components/FilterBar.jsx:5 | the count is the number of columns with a non-empty selection, plus one exactly when the search is non-empty |
| FilterBar.NonEmptyCountIsColumnCount | frontend/src/components/FilterBar.jsx:5 | with distinct keys, counting non-empty entries counts distinct constrained columns |
| FilterBar.ShowsActiveBadge | frontend/src/components/FilterBar.jsx:5-28 | the badge shows exactly when the search is non-empty or some selection is |
| FilterBar.ClearLeavesNothingActive | frontend/src/components/FilterBar.jsx:23 | after Clear the count is zero |
| FilterBar.ShowsTotal | frontend/src/components/FilterBar.jsx:35 | the total line shows exactly for a non-zero total |
| FilterBar.Apply | frontend/src/components/FilterBar.jsx:11-12 | Apply, enabled only while no query is loading, requests page 1 with the current sort |
| FilterBar.Clear | frontend/src/components/FilterBar.jsx:23 | Clear dispatches CLEAR_FILTERS only; no query is issued |
| Main.ValidateTable | backend/main.py:43-45 | accepted exactly when the table is one of the six served tables; otherwise a 400 error naming the table and the list |
| Main.QuoteColDelimits | backend/main.py:48-49 | the quoted name holds exactly two double quotes, the delimiters, exactly when the name has none, and the name sits between them |
| Main.TableType | backend/main.py:52-53 | `ctgov` exactly when the name starts with `ctgov`, `label` otherwise |
| Main.BuildWhere | backend/main.py:56-69 | the clauses are one IN clause per usable filter, in iteration order, then the search clause. The parameters are the filter values then `%search%`, and the WHERE text is empty or ` WHERE ` plus the clauses joined with ` AND ` |
| Main.FilterClausesEmpty | backend/main.py:59-61 | no clause exists exactly when no filter entry is usable (present and non-empty) |
| Main.WhereEmptyIff | backend/main.py:65-68 | the WHERE text is empty exactly when no filter is usable and the search is empty |
| Main.InClauseCount | backend/main.py:62-63 | an IN clause for `n` values holds exactly `n` placeholders when the column has no `?` |
| Main.FilterPlaceholdersMatch | backend/main.py:59-64 | the filter clauses hold as many placeholders as the filter parameters |
| Main.WherePlaceholdersMatch | backend/main.py:56-69 | the WHERE text holds exactly as many `?` as there are parameters |
| Main.Direction | backend/main.py:139 | DESC exactly when the direction lower-cases to `desc`, ASC otherwise |
| Main.DirectionIgnoresCase | backend/main.py:139 | the direction depends only on the lower-cased text |
| Main.OffsetsTile | backend/main.py:142 | consecutive pages start `page_size` rows apart, and page 1 starts at row 0 |
| Main.PlanQuery | backend/main.py:128-147 | an unknown table gives the 400 error. Otherwise it gives the count statement and the page statement (WHERE, optional ORDER BY, LIMIT ? OFFSET ?) with their parameters, and each statement's `?` count equals its parameter count |
| Main.PlanPlaceholdersMatch | backend/main.py:134-144 | the count statement has as many placeholders as the WHERE parameters; the page statement has two more, for LIMIT and OFFSET |
| Main.QueryPlaceholdersMatch | backend/main.py:134-143 | the count and page statements add no placeholders beyond the WHERE text and the LIMIT/OFFSET tail |
| Main.FilterDict | backend/main.py:156-162 | an absent or unparsable `filters` argument means no filters |
| Main.DistributionShape | backend/main.py:164-167 | both branches of the distribution statement are one ` WHERE ` followed by the clauses and the `IS NOT NULL` test joined with ` AND ` |
| Main.DistributionQuery | backend/main.py:150-169 | an unknown table gives the 400 error; otherwise the statement has that single-WHERE shape and the WHERE parameters |
| Ingest.Strip | backend/ingest.py:18 | the result is the slice of the name between a whitespace prefix and a whitespace suffix, and it neither starts nor ends with whitespace |
| Ingest.ReplaceKeepsAbsent | backend/ingest.py:19-22 | a replacement never introduces a character that neither the text nor the replacement holds |
| Ingest.ReplaceRemoves | backend/ingest.py:19-22 | replacing a single character by text without it removes every occurrence |
| Ingest.NormalizedIsClean | backend/ingest.py:17-22 | a normalised name has no space, `(`, `)`, `/`, `.` or `?`, and no upper-case ASCII letter |
| Ingest.NormalizeFixesPlainNames | backend/ingest.py:17-22 | a name of lower-case letters, digits and underscores is its own normal form |
| Ingest.RenameColumns | backend/ingest.py:26-35 | the loop with its `seen` counter produces the counter-free renaming `Renamed` |
| Ingest.CleanColumns | backend/ingest.py:26-36 | the new header is every column name normalised, then renamed, with one name per column |
| Ingest.RenamedSuffixes | backend/ingest.py:30-34 | column `i` gets its normalised name, suffixed `_k` when that name already occurred `k` times before it |
| Ingest.RenamedCollides | backend/ingest.py:30-32 | as written, the renaming turns `n`, `n`, `n_1` into `n`, `n_1`, `n_1` |
| Ingest.CleanNamesCollide | backend/ingest.py:26-36 | for every name `M` of letters, digits and underscores with lower-case form `m`, the header `M`, `m`, `m_1` (three distinct cells) gets two columns named `m_1` |
| Ingest.CleanNamesCollideDose | backend/ingest.py:26-36 | the header `Dose`, `dose`, `dose_1` is renamed to `dose`, `dose_1`, `dose_1` |
| Ingest.SuffixedInjective | backend/ingest.py:32 | different repeat counts give different names |
| Ingest.RenameColumnsUnique | backend/ingest.py:26-35 | the corrected renaming gives distinct names. Each is the normalised name with some suffix, and a name no earlier column holds is kept |
| Ingest.CleanColumnsUnique | backend/ingest.py:26-36 | the corrected header has distinct names, one per column, each a suffixed normalised name |
| Ingest.CleanCell | backend/ingest.py:37 | a cell becomes None exactly when it is missing or holds `NA`, `None` or the empty text; any other cell is kept |
| Ingest.CleanCellsIdempotent | backend/ingest.py:37 | after the replacement no marker is left, and repeating it changes nothing |
| Ingest.FormulaColumnIff | backend/ingest.py:66-68 | a column is a formula column exactly when it is text and some cell starting with `=` has fewer than ten non-null cells before it |
| Ingest.FormulaInPrefix | backend/ingest.py:67-68 | a formula among the first `n` non-null values is a formula cell preceded by fewer than `n` non-null cells |
| Ingest.DropFormulaColumns | backend/ingest.py:64-70 | every formula column is replaced in place by nulls of the same length; every other column is unchanged |
| Ingest.NulledColumnIsClean | backend/ingest.py:70 | a nulled column is no longer a formula column |
| CrossLayer.CtgovFlagAgrees | frontend/src/context/FilterContext.jsx:97 | the frontend's `isCtgov` and the backend's `table_type` classify every table name the same way |
| CrossLayer.SelectableTablesServed | frontend/src/context/FilterContext.jsx:6-12 | of the datasets the selector offers, the backend accepts all but `fc_mutations` |
| CrossLayer.CleanNamesAreIngested | backend/ingest.py:26-36 | every name `clean_df` gives a column is a header cell's normalised name, possibly suffixed |
| CrossLayer.IngestedNameHasNoPlaceholder | backend/ingest.py:17-36 | such a name, from the renaming as written or the corrected one, contains no `?` |
| CrossLayer.IngestedColumnsBindEveryPlaceholder | backend/main.py:128-144 | when the filtered and sort columns are columns of an ingested table, each `query_data` statement has exactly as many `?` as parameters |

## Left out

- Network and I/O are left out: the HTTP client wrapper, SQLite execution, FastAPI routing, CORS, static
  serving, CSV export, Excel reading, `to_sql`, index creation and metadata
  writing. Backend replies are parameters of the provider's methods.
- Concurrency is not modelled: `Promise.all` and the adverse-event fetch are
  split into a request step and a settle step. Any interleaving can be
  written as a sequence of those calls, but the scheduler is not modelled.
- Timers and DOM listeners are left out. The debounce is one pending slot;
  the outside-click listener and the expanded-chart modal are not modelled.
- Main.DistributionShape: states the single-WHERE shape of the statement
  structurally (one ` WHERE ` introducing the AND-joined conditions). It does
  not count the letters `WHERE` in the text, which column names could also
  contain.
- Main.FilterDict: a `filters` argument that parses as JSON but not as an
  object (`build_where` would then fail on `.items()`) is not modelled.
- Filter values sent to SQLite as JSON numbers or booleans are modelled as
  text parameters.
- Main.BuildWhere: a filter value is modelled as null or a list of strings,
  which is all the frontend sends. `filters` is an untyped dict, and
  `build_where` treats other values differently. A string is iterated
  letter by letter (`"ab"` gives `IN (?,?)` with `a` and `b`), an object
  contributes its keys, a number fails at `len` with a 500 error, and `0`,
  `false`, `""` and `{}` are skipped. None of these is modelled.
- Main.InClauseCount: counts placeholders only. A column name containing `"`
  is not escaped by `quote_col`, so it would end the identifier early;
  Main.QuoteColDelimits says exactly when the quoting holds.
- Ingest.NormalizedIsClean: its "no upper-case letter" clause is about ASCII
  letters only, because case folding (`toLowerCase`, `str.lower`) is
  modelled on ASCII. Stripping uses the full set of characters `str.isspace`
  accepts.
- SearchBar.Suggestions: matching folds case on ASCII letters only. JavaScript's
  `toLowerCase` also folds non-ASCII capitals (`É` to `é`), so a label that
  differs from the input only in such a letter matches in the browser but not
  in the model.
- SearchBar.SearchBar.HandleChange: the two-character threshold counts
  characters, where JavaScript's `length` counts UTF-16 code units. A single
  character outside the Basic Multilingual Plane (such as `𝛼`) has length 2 in
  the browser, which recomputes the suggestions, while the model hides the
  list and keeps the old suggestions.
- Ingest.CleanNamesCollide: `read_excel` renames repeated header cells
  (`dose`, `dose` becomes `dose`, `dose.1`) before `clean_df` sees them. That
  renaming is not modelled, so the lemma starts from distinct cells that only
  normalise to the same name.
- Ingest.CleanColumns: normalisation is applied to the whole header before
  the renaming loop, rather than inside it as the source does. This is the
  same result, because normalisation is pure.
- Ingest.DropFormulaColumns: a cell is modelled by its `str()` rendering, and
  the `object` dtype by a flag. Pandas dtype inference is not modelled.
- Ingest.CleanCell: `pandas.DataFrame.replace` is modelled cell by cell, on
  each cell's text; a non-text cell never equals a marker.
- The optional `!labels` guard of `consolidate` is covered by
  `DonutChart.Display`, the only caller, which consolidates only data that
  is present.
- Floating-point work (proportions, percentages, colour ramps) is not
  modelled, and neither are the presentation-only chart components.
- The mismatch between the selector's `fc_mutations` dataset and the
  backend's table list is only recorded, as `CrossLayer.SelectableTablesServed`.
  Its other half is the absence of the `ctgov_serious` and `ctgov_other`
  tables from the selector.

## Findings

| source | as written | input that shows it | evidently intended | confidence | as-written member | corrected member |
|---|---|---|---|---|---|---|
| frontend/src/components/SearchBar.jsx:25-40 | `selectSuggestion` sets the search but leaves the debounce timer of the last keystroke running, and when the timer fires it commits the typed text | type `pem`, then pick `Pembrolizumab` within 300 ms: search and box end on `pem` | the chosen suggestion stays the search | not executed | SearchBar.SelectWhileDebouncing | SearchBar.SelectWhileDebouncingCancelling |
| backend/ingest.py:30-34 | a repeat's suffixed name is not checked against the names already present, and it is not recorded in `seen` | header `Dose`, `dose`, `dose_1` becomes `dose`, `dose_1`, `dose_1` | every column gets a distinct name | not executed | Ingest.CleanNamesCollideDose | Ingest.CleanColumnsUnique |
