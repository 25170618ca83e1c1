/**
 * The `App` component: its three state variables, the two ways `componentDidMount`
 * settles them, and the three views `render` chooses between.
 */
module StockApp {
  import opened Wrappers
  import opened Quotes
  import opened Portfolio
  import opened TimestampSort

  /** A snapshot of `this.state`. `errorMsg` holds the caught error's text; `None` is `null`. */
  datatype AppState = AppState(apiData: seq<StockQuote>, isFetched: bool, errorMsg: Option<string>)

  /** What `render` returns, with the markup reduced to what it shows. */
  datatype View =
    | ErrorView(message: string)
    | LoadingView
    | TableView(tier: SizeTier, count: nat, rows: seq<StockQuote>)

  /** How the awaited `fetch` and `response.json()` end: the `stockData` array, or the error caught. */
  datatype FetchOutcome = Fetched(stockData: seq<StockQuote>) | FetchFailed(error: string)

  /** The state the constructor sets up. */
  const InitialState: AppState := AppState([], false, None)

  /** The `try` branch: `apiData` becomes the fetched records, then `isFetched` becomes true. */
  function AfterSuccess(st: AppState, stockData: seq<StockQuote>): AppState
  {
    st.(apiData := stockData, isFetched := true)
  }

  /** The `catch` branch: `isFetched` becomes false, then `errorMsg` records the error. */
  function AfterFailure(st: AppState, error: string): AppState
  {
    st.(isFetched := false, errorMsg := Some(error))
  }

  /** The state once `componentDidMount` has finished with the given outcome. */
  function Settle(st: AppState, outcome: FetchOutcome): AppState
  {
    match outcome
    case Fetched(stockData) => AfterSuccess(st, stockData)
    case FetchFailed(error) => AfterFailure(st, error)
  }

  /**
   * The view `render` selects: an error takes precedence, otherwise the loading
   * view until the fetch has finished, otherwise the table of all records, newest
   * first, under the banner for their number.
   */
  function SelectView(st: AppState): (v: View)
    ensures v.ErrorView? <==> st.errorMsg.Some?
    ensures v.LoadingView? <==> st.errorMsg.None? && !st.isFetched
    ensures v.TableView? <==> st.errorMsg.None? && st.isFetched
    ensures v.ErrorView? ==> v.message == st.errorMsg.value
    ensures v.TableView? ==>
      && v.count == |st.apiData| == |v.rows|
      && v.tier == PortfolioSize(|st.apiData|)
      && multiset(v.rows) == multiset(st.apiData)
      && LocallyDescending(v.rows)
      && (AllParse(st.apiData) ==> ChronologicallyDescending(v.rows))
  {
    if st.errorMsg.Some? then ErrorView(st.errorMsg.value)
    else if !st.isFetched then LoadingView
    else
      SortRowsCorrect(st.apiData);
      TableView(PortfolioSize(|st.apiData|), |st.apiData|, SortRows(st.apiData))
  }

  /** Before the fetch settles the component shows the loading view. */
  lemma InitialStateLoads()
    ensures SelectView(InitialState) == LoadingView
  {
  }

  /**
   * After a successful fetch from the initial state the table shows every fetched
   * record, and its heading count is the number of records.
   */
  lemma SuccessShowsTable(stockData: seq<StockQuote>)
    ensures var v := SelectView(AfterSuccess(InitialState, stockData));
      v.TableView? && v.count == |stockData| && multiset(v.rows) == multiset(stockData)
  {
  }

  /** After a failure the error view shows the error, whatever else the state holds. */
  lemma FailureShowsError(st: AppState, error: string)
    ensures SelectView(AfterFailure(st, error)) == ErrorView(error)
  {
  }

  /**
   * Three records stamped 1 January, 1 March and 1 February 2024 (as milliseconds
   * since the epoch, as read in a UTC time zone) are listed March, February, January, without a banner.
   */
  lemma ThreeMonthsListedNewestFirst()
    ensures var jan, mar, feb := QuoteAt(1, Some(1704067200000)), QuoteAt(2, Some(1709251200000)),
                                 QuoteAt(3, Some(1706745600000));
      SelectView(AfterSuccess(InitialState, [jan, mar, feb])) == TableView(NoBanner, 3, [mar, feb, jan])
  {
    var jan, mar, feb := QuoteAt(1, Some(1704067200000)), QuoteAt(2, Some(1709251200000)),
                         QuoteAt(3, Some(1706745600000));
    assert [jan, mar, feb][..2] == [jan, mar];
    assert [jan, mar][..1] == [jan];
    assert SortRows([jan]) == [jan];
    assert SortRows([jan, mar]) == InsertRow([jan], mar) == [mar, jan];
    assert InsertRow([mar, jan], feb) == InsertRow([mar], feb) + [jan] == [mar, feb, jan];
  }

  /** The component itself, with `this.state` as three fields. */
  class App {
    var apiData: array<StockQuote>
    var isFetched: bool
    var errorMsg: Option<string>

    /** The current `this.state`. */
    function State(): AppState
      reads this, apiData
    {
      AppState(apiData[..], isFetched, errorMsg)
    }

    constructor ()
      ensures fresh(apiData)
      ensures State() == InitialState
    {
      apiData := new StockQuote[0];
      isFetched := false;
      errorMsg := None;
    }

    /** The two `setState` calls of the `try` branch. */
    method FetchSucceeded(stockData: seq<StockQuote>)
      modifies this
      ensures fresh(apiData)
      ensures State() == AfterSuccess(old(State()), stockData)
    {
      apiData := new StockQuote[|stockData|](k requires 0 <= k < |stockData| => stockData[k]);
      isFetched := true;
    }

    /** The two `setState` calls of the `catch` branch. */
    method FetchFailed(error: string)
      modifies this
      ensures apiData == old(apiData)
      ensures State() == AfterFailure(old(State()), error)
    {
      isFetched := false;
      errorMsg := Some(error);
    }

    /** `componentDidMount` from the moment the awaited calls have settled. */
    method ComponentDidMount(outcome: FetchOutcome)
      modifies this
      ensures outcome.Fetched? ==> fresh(apiData)
      ensures outcome.FetchFailed? ==> apiData == old(apiData)
      ensures State() == Settle(old(State()), outcome)
    {
      match outcome
      case Fetched(stockData) => FetchSucceeded(stockData);
      case FetchFailed(error) => FetchFailed(error);
    }

    /**
     * `render`: selects the view, and in the table branch sorts `apiData` in place
     * with the comparator before listing it.
     */
    method Render() returns (v: View)
      modifies apiData
      ensures v == SelectView(old(State()))
      ensures apiData[..] == if v.TableView? then v.rows else old(apiData[..])
    {
      if errorMsg.Some? {
        v := ErrorView(errorMsg.value);
      } else if !isFetched {
        v := LoadingView;
      } else {
        var tier := PortfolioSize(apiData.Length);
        var count := apiData.Length;
        SortRowsInPlace(apiData);
        v := TableView(tier, count, apiData[..]);
      }
    }
  }

  /**
   * One component from mounting on: the first render, the fetch settling, the render
   * that follows, and a further render (React may render again at any time).
   */
  method Mount(outcome: FetchOutcome) returns (first: View, settled: View, again: View)
    ensures first == LoadingView
    ensures outcome.FetchFailed? ==> settled == ErrorView(outcome.error)
    ensures outcome.Fetched? ==>
      && settled.TableView?
      && settled.count == |outcome.stockData|
      && settled.tier == PortfolioSize(|outcome.stockData|)
      && multiset(settled.rows) == multiset(outcome.stockData)
      && LocallyDescending(settled.rows)
    ensures again == settled
  {
    var app := new App();
    first := app.Render();
    app.ComponentDidMount(outcome);
    settled := app.Render();
    if settled.TableView? {
      SortRowsKeepsSorted(settled.rows);
    }
    again := app.Render();
  }

  /** A comparator argument as JavaScript sees it: a record, or `undefined` when the call omits it. */
  datatype Argument = Undefined | Given(quote: StockQuote)

  /** `sortByTimestamp` with arguments that may be missing: reading `rates` of `undefined` throws. */
  function SortByTimestampCall(stockA: Argument, stockB: Argument): (r: Result<int>)
    ensures r.Success? <==> stockA.Given? && stockB.Given?
    ensures r.Success? ==> r.value == SortByTimestamp(stockA.quote, stockB.quote)
  {
    if stockA.Undefined? || stockB.Undefined? then
      Failure("TypeError: Cannot read properties of undefined (reading 'rates')")
    else
      Success(SortByTimestamp(stockA.quote, stockB.quote))
  }

  /**
   * `render` as written: the table branch evaluates `this.sortByTimestamp()` with no
   * arguments, which throws before `sort` is reached.
   */
  function RenderAsWritten(st: AppState): (r: Result<View>)
    ensures r.Failure? <==> st.errorMsg.None? && st.isFetched
    ensures st.errorMsg.Some? ==> r == Success(ErrorView(st.errorMsg.value))
    ensures st.errorMsg.None? && !st.isFetched ==> r == Success(LoadingView)
  {
    if st.errorMsg.Some? then Success(ErrorView(st.errorMsg.value))
    else if !st.isFetched then Success(LoadingView)
    else
      Failure(SortByTimestampCall(Undefined, Undefined).error)
  }

  /**
   * The render as written throws exactly when the table should be shown, and agrees
   * with the intended selection everywhere else.
   */
  lemma RenderAsWrittenThrowsForTable(st: AppState)
    ensures RenderAsWritten(st).Failure? <==> SelectView(st).TableView?
    ensures RenderAsWritten(st).Success? ==> RenderAsWritten(st).value == SelectView(st)
  {
  }
}
