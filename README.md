# Stock portfolio viewer — a Dafny model

The system is a single React component, `App` (`src/App.js`). It fetches a list of
stock-quote records once, when it is mounted. It keeps three state variables:
`apiData`, the records; `isFetched`, whether the fetch finished; and `errorMsg`, the
error caught, or `null`. From them `render` draws one of three views:

- an error page;
- a loading page;
- a table with every record under a "Large" or "Very Large" banner when there are
  at least 100 or 200 records. The rows are meant to be listed newest first; as
  written, the table branch throws instead (see "## Findings"). The model gives the
  intended behaviour, and models the code as written beside it.

The model has five modules:

- `Wrappers` (`wrappers.dfy`): `Option`, and `Result` for a value or a thrown JavaScript error.
- `Quotes` (`quotes.dfy`): the record datatypes and the comparator `sortByTimestamp`.
  A parsed timestamp is an `Option<int>`. `None` stands for the `NaN` that
  `Date.parse` returns for text it cannot read.
- `Portfolio` (`portfolio.dfy`): the `portfolioSize` banner as a three-valued tier.
- `TimestampSort` (`sorting.dfy`): the table's sort. `SortRows` is an insertion sort on
  sequences that calls the comparator for each comparison. `SortRowsInPlace` is the
  same sort done in place on an array, and is proved equal to `SortRows`.
- `StockApp` (`app.dfy`): the state as a snapshot datatype and as the class `App`, whose
  fields are the three state variables. The two `componentDidMount` outcomes are
  methods. `render` is a pure selection (`SelectView`) plus a method (`Render`) that
  sorts `apiData` in place, as the intended `apiData.sort(this.sortByTimestamp)`
  would; the line as written throws instead (`RenderAsWritten`, see "## Findings").
  `Mount` runs one component from its first render to the render after the fetch.

What is proved, in short:

- The comparator's sign is exact, it is antisymmetric, and it ties whenever a
  timestamp does not parse.
- On parsed timestamps the comparator is a total preorder. A malformed timestamp
  breaks transitivity.
- The sort is a permutation.
- Every pair of neighbouring rows is in comparator order. When every timestamp
  parses, the whole table is in non-increasing time order.
- Sorting an already sorted table changes nothing, so a second render shows the same rows.
- The banner thresholds sit exactly at 100 and 200.
- The three views are exclusive and exhaustive, and the error view takes precedence.
- Each lifecycle transition leads to the expected view.

Two consequences of the code worth knowing:

- A response without `stockData` is not turned into an error: the code stores
  `undefined` in `apiData` and sets `isFetched`. The model takes the success
  transition to receive a sequence of records; see "Left out".
- With a malformed timestamp, the well-formed rows need not be in order among
  themselves: `MalformedLeavesOlderFirst` shows an older row left ahead of a newer one.

## Model

| member | source | states |
|---|---|---|
| Quotes.SortByTimestamp | src/App.js:58-74 | result is -1, 0 or 1; -1 exactly when both timestamps parse and A's instant is later, 1 exactly when both parse and A's is earlier; 0 when either fails to parse |
| Quotes.SortByTimestampAntisymmetric | src/App.js:66-73 | compare(a, b) == -compare(b, a) |
| Quotes.SortByTimestampReflexive | src/App.js:66-73 | compare(a, a) == 0, even for an unparsable timestamp |
| Quotes.MalformedTiesWithAll | src/App.js:66-71 | a record whose timestamp is NaN compares 0 with every record, in both argument orders |
| Quotes.SortByTimestampTransitive | src/App.js:66-71 | on parsed timestamps "not after" is transitive and means a non-increasing instant |
| Quotes.MalformedBreaksTransitivity | src/App.js:66-71 | with a NaN timestamp, ties are not transitive: two records tie with it while one is strictly older than the other |
| Portfolio.PortfolioSize | src/App.js:46-51 | "Large" exactly when 100 <= length < 200, "Very Large" exactly when length >= 200, no banner exactly when length < 100 |
| Portfolio.PortfolioSizeMonotonic | src/App.js:46-51 | a longer portfolio never gets a smaller banner |
| Portfolio.PortfolioSizeBoundaries | src/App.js:46-51 | banners at 0, 99, 100, 150, 199, 200 and 1000 |
| TimestampSort.InsertRow | src/App.js:119 | one insertion step adds exactly one row |
| TimestampSort.SortRows | src/App.js:119 | the sorted table has exactly as many rows as apiData |
| TimestampSort.InsertRowPermutes | src/App.js:119 | an insertion adds the inserted row to the rows and loses none |
| TimestampSort.SortRowsPermutes | src/App.js:119 | the sorted rows are a permutation of apiData |
| TimestampSort.InsertRowLast | src/App.js:119 | after an insertion the last row is the inserted row or the previous last row |
| TimestampSort.InsertRowLocallyDescending | src/App.js:119 | inserting into rows whose neighbours are in comparator order keeps them so |
| TimestampSort.SortRowsLocallyDescending | src/App.js:119 | after the sort every pair of neighbouring rows is in comparator order, whatever the timestamps |
| TimestampSort.LocallyToChronologically | src/App.js:55-57 | when every timestamp parses, neighbour order gives descending chronological order of the whole table |
| TimestampSort.SortRowsCorrect | src/App.js:55-57 | the sort is a permutation in neighbour order, and in descending chronological order when all timestamps parse |
| TimestampSort.SortRowsKeepsSorted | src/App.js:119 | sorting rows that are already in comparator order leaves them unchanged |
| TimestampSort.MalformedLeavesOlderFirst | src/App.js:66-71 | with a NaN timestamp between them, an older record stays ahead of a newer one |
| TimestampSort.InsertRowSlot | src/App.js:119 | the inserted row lands right after the last row that is not strictly older, ahead of all strictly older rows |
| TimestampSort.SortRowsExtend | src/App.js:119 | sorting one more row is inserting it into the sorted prefix |
| TimestampSort.InsertInPlace | src/App.js:119 | the in-place step turns a[..i+1] into the insertion of a[i] into a[..i], leaving later cells alone |
| TimestampSort.SortRowsInPlace | src/App.js:119 | the in-place sort leaves the array holding SortRows of its old contents |
| StockApp.SelectView | src/App.js:76-130 | error view exactly when errorMsg is set, carrying its text; loading view exactly when there is no error and isFetched is false; otherwise the table with the banner for the length, a count equal to the length, and rows that are a permutation of apiData in comparator order |
| StockApp.InitialStateLoads | src/App.js:10-14 | the initial state selects the loading view |
| StockApp.SuccessShowsTable | src/App.js:30-31 | after the success transition from the initial state the table is shown with count equal to the number of records and every record listed |
| StockApp.FailureShowsError | src/App.js:34-36 | after the failure transition the error view shows the error, whatever the state held before |
| StockApp.ThreeMonthsListedNewestFirst | src/App.js:119 | records of January, March and February are listed March, February, January, with a count of 3 and no banner |
| StockApp.App.constructor | src/App.js:10-14 | apiData is empty, isFetched is false and errorMsg is null |
| StockApp.App.FetchSucceeded | src/App.js:30-31 | apiData becomes the fetched records and isFetched becomes true; errorMsg is unchanged |
| StockApp.App.FetchFailed | src/App.js:34-36 | isFetched becomes false and errorMsg holds the error; apiData is unchanged |
| StockApp.App.ComponentDidMount | src/App.js:19-38 | the state after the fetch settles is the success or the failure transition of the state before |
| StockApp.App.Render | src/App.js:76-138 | returns the selected view; in the table branch apiData is left sorted in place, otherwise it is unchanged |
| StockApp.Mount | src/App.js:19-38 | the first render shows loading; after a failure the error view shows the error; after a success the table lists every record with the right count and banner; rendering again shows the same view |
| StockApp.SortByTimestampCall | src/App.js:58-67 | the comparator called with a missing argument throws; with both arguments it returns the comparison |
| StockApp.RenderAsWritten | src/App.js:76-138 | the error and loading views as the code selects them; in the table branch, the TypeError of the argument-less comparator call at line 119 |
| StockApp.RenderAsWrittenThrowsForTable | src/App.js:119 | render as written throws exactly when the table should be shown and agrees with SelectView otherwise |

## Left out

- `fetch`, `response.json()` and the hard-coded URL are network I/O. Only their outcome is
  modelled (`FetchOutcome`): the `stockData` array, or the caught error's text.
- A response without `stockData`: the code stores `undefined` in `apiData`, and the next
  render fails on `.length`. The model's success transition always receives a sequence of
  records.
- `async`/`await` suspension, React's `setState` batching, and when React chooses to
  render are framework scheduling. `Mount` fixes one order: first render, settle, render.
- JSX markup. Each view is a datatype tag with its payload: the message; or the tier,
  count and rows.
- `Date.parse`'s reading of the `YYYY-MM-DD HH:MM:SS` text, including its time zone.
  Each record carries the instant its text parses to, as an `Option<int>`.
- `buy` and `sell` are JavaScript floating-point numbers that are only displayed. They
  are carried as `real` payload.
- `errorMsg.toString()`: the error is kept as its text. The caught value is always an
  `Error` object, which is truthy, so "errorMsg is set" is modelled as `Some`.
- TimestampSort.SortRows: stability is not stated. Ties do keep their input order in
  this insertion sort, but no lemma says so. `Array.prototype.sort` uses a different
  stable algorithm. When every timestamp parses, any two stable sorts give the same
  order. When a timestamp is malformed, the comparator is not a preorder, and the two
  algorithms may order the rows differently.

## Findings

| source | as written | input that shows it | evidently intended | confidence | as-written member | corrected member |
|---|---|---|---|---|---|---|
| src/App.js:119 | `apiData.sort(this.sortByTimestamp())` calls the comparator with no arguments, so reading `rates` of `undefined` throws before `sort` runs | any state with no error and `isFetched` true, e.g. right after a successful fetch, even with no records | pass the comparator itself, `apiData.sort(this.sortByTimestamp)`, so that the table is sorted newest first as the comment at lines 55-57 says | high; not executed | StockApp.RenderAsWritten, StockApp.RenderAsWrittenThrowsForTable | StockApp.SelectView, TimestampSort.SortRowsCorrect |
