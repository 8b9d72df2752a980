/** The grid component's coordination logic: its default props, the
    projection of the store onto its props, page clamping, the fetch-skip
    policy, the mount and update sequences, and the four parameter
    mutators the table widget calls. */
module Coordinator {
  import opened Models
  import opened GridActions
  import opened Reducer
  import opened ReduxStore
  import opened Thunks

  /** The initial parameters a grid uses when its owner gives none. */
  const DefaultQueryParameters := QueryParameters(0, 10, [], [])

  /** The props the owner of a grid may give; `None` is "not given". */
  datatype OwnProps = OwnProps(initialQueryParameters: Option<QueryParameters>, forceFetchOnMount: Option<bool>)

  /** The owner's props once `defaultProps` have filled the gaps. */
  datatype Settings = Settings(initialQueryParameters: QueryParameters, forceFetchOnMount: bool)

  /** `defaultProps`: a given prop is kept, a missing one takes its
      default, page 0 of 10 unsorted unfiltered rows and a forced first
      fetch. */
  function ApplyDefaultProps(own: OwnProps): (s: Settings)
    ensures own.initialQueryParameters.Some? ==> s.initialQueryParameters == own.initialQueryParameters.value
    ensures own.initialQueryParameters.None? ==>
              s.initialQueryParameters == QueryParameters(0, 10, [], [])
    ensures own.forceFetchOnMount.Some? ==> s.forceFetchOnMount == own.forceFetchOnMount.value
    ensures own.forceFetchOnMount.None? ==> s.forceFetchOnMount
  {
    Settings(own.initialQueryParameters.GetOr(DefaultQueryParameters), own.forceFetchOnMount.GetOr(true))
  }

  /** The props a grid reads from the store. */
  datatype StateProps = StateProps(
    isLoading: bool,
    queryParameters: Option<QueryParameters>,
    queryResult: Option<QueryResult>,
    queryResultParameters: Option<QueryParameters>)

  /** `mapStateToProps`: the grid's entry, with `false` for a missing
      loading flag and `null` for every other missing field or entry. */
  function MapStateToProps(state: GridStateCollection, gridName: string): (props: StateProps)
    ensures gridName !in state.grids ==> props == StateProps(false, None, None, None)
    ensures props.isLoading <==> EntryOf(state, gridName).isLoading == Some(true)
    ensures props.queryParameters == EntryOf(state, gridName).queryParameters
    ensures props.queryResult == EntryOf(state, gridName).queryResult
    ensures props.queryResultParameters == EntryOf(state, gridName).queryResultParameters
  {
    if gridName !in state.grids then
      StateProps(false, None, None, None)
    else
      var entry := state.grids[gridName];
      StateProps(if entry.isLoading.Some? then entry.isLoading.value else false,
                 entry.queryParameters, entry.queryResult, entry.queryResultParameters)
  }

  /** `Math.max(pages - 1, 0)`: the index of the last page of a result. */
  function LastPage(result: QueryResult): (last: int)
    ensures last >= 0 && last >= result.pages - 1
    ensures last == 0 || last == result.pages - 1
  {
    if result.pages - 1 > 0 then result.pages - 1 else 0
  }

  /** `fixInvalidQueryParameters`: with no result the parameters stand;
      otherwise a page past the last page of the result is pulled back to
      it, and nothing but the page changes. Reading the page of `null`
      parameters throws. The clamped copy is spread from the current props'
      parameters, which are the argument at the one call site. */
  function FixInvalidQueryParameters(queryParameters: Option<QueryParameters>,
                                     queryResult: Option<QueryResult>): (r: Result<Option<QueryParameters>>)
    ensures queryResult.None? ==> r == Ok(queryParameters)
    ensures queryResult.Some? && queryParameters.None? ==> r.Err?
    ensures queryResult.Some? && queryParameters.Some? ==>
              && r.Ok? && r.value.Some?
              && r.value.value.page <= LastPage(queryResult.value)
              && r.value.value.(page := queryParameters.value.page) == queryParameters.value
              && (r.value != queryParameters <==> queryParameters.value.page > LastPage(queryResult.value))
              && (r.value != queryParameters ==> r.value.value.page == LastPage(queryResult.value))
  {
    if queryResult.None? then
      Ok(queryParameters)
    else if queryParameters.None? then
      Err("TypeError: Cannot read property 'page' of null")
    else
      var currentPage := queryParameters.value.page;
      var lastPage := LastPage(queryResult.value);
      Ok(if currentPage > lastPage then Some(queryParameters.value.(page := lastPage)) else queryParameters)
  }

  /** Three pages and page index 5: the page becomes 2. */
  lemma ClampsPageFiveOfThreePages(rows: seq<Row>, count: int)
    ensures FixInvalidQueryParameters(Some(QueryParameters(5, 10, [], [])), Some(QueryResult(rows, count, 3)))
            == Ok(Some(QueryParameters(2, 10, [], [])))
  {
  }

  /** The dispatches `componentDidUpdate` makes before it evaluates the fetch
      policy: one SET_QUERY_PARAMETERS when clamping changed the
      parameters, none otherwise. */
  function ClampDispatches(gridName: string, props: StateProps): seq<Action>
  {
    match FixInvalidQueryParameters(props.queryParameters, props.queryResult)
    case Ok(fixed) =>
      if fixed != props.queryParameters then [SetQueryParametersAction(gridName, fixed.value)] else []
    case Err(_) => []
  }

  /** `componentDidUpdate` dispatches new parameters exactly when the page
      lies past the last page of the current result, and then only the
      clamped page differs. */
  lemma UpdateDispatchesOnlyWhenClamping(gridName: string, props: StateProps)
    ensures ClampDispatches(gridName, props) != [] <==>
              && props.queryResult.Some? && props.queryParameters.Some?
              && props.queryParameters.value.page > LastPage(props.queryResult.value)
    ensures ClampDispatches(gridName, props) != [] ==>
              ClampDispatches(gridName, props)
              == [SetQueryParametersAction(gridName,
                    props.queryParameters.value.(page := LastPage(props.queryResult.value)))]
  {
  }

  /** `fetchDataIfRequired`'s decision: fetch unless (no forced fetch is
      due, because forcing is off or the first evaluation is past) and
      (a fetch is in flight or the parameters already produced the result). */
  predicate ShouldFetch(hasFirstFetchOccurred: bool, forceFetchOnMount: bool, props: StateProps)
  {
    !((!forceFetchOnMount || hasFirstFetchOccurred)
      && (props.isLoading || props.queryParameters == props.queryResultParameters))
  }

  /** The fetch policy: a forced first evaluation always fetches; otherwise
      it never fetches while the grid is loading or when the current
      parameters are those of the current result, and it always fetches
      when the grid is idle and the result is stale. */
  lemma FetchPolicy(hasFirstFetchOccurred: bool, forceFetchOnMount: bool, props: StateProps)
    ensures !hasFirstFetchOccurred && forceFetchOnMount ==> ShouldFetch(hasFirstFetchOccurred, forceFetchOnMount, props)
    ensures (hasFirstFetchOccurred || !forceFetchOnMount) && props.isLoading ==>
              !ShouldFetch(hasFirstFetchOccurred, forceFetchOnMount, props)
    ensures (hasFirstFetchOccurred || !forceFetchOnMount) && props.queryParameters == props.queryResultParameters ==>
              !ShouldFetch(hasFirstFetchOccurred, forceFetchOnMount, props)
    ensures !props.isLoading && props.queryParameters != props.queryResultParameters ==>
              ShouldFetch(hasFirstFetchOccurred, forceFetchOnMount, props)
  {
  }

  /** `onPageChange`: the same parameters on another page. */
  function WithPage(queryParameters: QueryParameters, pageIndex: int): (r: QueryParameters)
    ensures r.page == pageIndex
    ensures r.(page := queryParameters.page) == queryParameters
  {
    queryParameters.(page := pageIndex)
  }

  /** `onPageSizeChange`: another page size and page, sorts and filters kept. */
  function WithPageSize(queryParameters: QueryParameters, pageSize: int, pageIndex: int): (r: QueryParameters)
    ensures r.page == pageIndex && r.pageSize == pageSize
    ensures r.(page := queryParameters.page, pageSize := queryParameters.pageSize) == queryParameters
  {
    queryParameters.(page := pageIndex, pageSize := pageSize)
  }

  /** `onSortedChange`: new sort rules, the page and filters kept. */
  function WithSorts(queryParameters: QueryParameters, sorts: seq<SortingRule>): (r: QueryParameters)
    ensures r.sorts == sorts
    ensures r.(sorts := queryParameters.sorts) == queryParameters
  {
    queryParameters.(sorts := sorts)
  }

  /** `onFilteredChange`: new filters, the page and sort rules kept. */
  function WithFilters(queryParameters: QueryParameters, filters: seq<Filter>): (r: QueryParameters)
    ensures r.filters == filters
    ensures r.(filters := queryParameters.filters) == queryParameters
  {
    queryParameters.(filters := filters)
  }

  /** One mounted grid component. Its props are read from the store each
      time they are used, as the store binding keeps them current. */
  class Grid {
    const gridName: string
    const initialQueryParameters: QueryParameters
    const forceFetchOnMount: bool
    /** The owner's data retrieval function. */
    const retrieve: Option<QueryParameters> -> Outcome
    const store: Store
    /** The component state's only field. */
    var hasFirstFetchOccurred: bool

    constructor (gridName: string, own: OwnProps, retrieve: Option<QueryParameters> -> Outcome, store: Store)
      ensures this.gridName == gridName && this.store == store && this.retrieve == retrieve
      ensures initialQueryParameters == ApplyDefaultProps(own).initialQueryParameters
      ensures forceFetchOnMount == ApplyDefaultProps(own).forceFetchOnMount
      ensures !hasFirstFetchOccurred
    {
      this.gridName := gridName;
      var settings := ApplyDefaultProps(own);
      initialQueryParameters := settings.initialQueryParameters;
      forceFetchOnMount := settings.forceFetchOnMount;
      this.retrieve := retrieve;
      this.store := store;
      hasFirstFetchOccurred := false;
    }

    /** `this.props`, as far as it comes from the store. */
    function Props(): StateProps
      reads store
    {
      MapStateToProps(store.state, gridName)
    }

    /** What the store receives when the fetch policy, evaluated on `state`,
        decided `fetched`: nothing, or a whole fetch of the parameters the
        state holds. */
    function PolicyLog(fetched: bool, state: GridStateCollection, interleaved: seq<Action>): seq<Action>
    {
      if fetched then
        var captured := EntryOf(state, gridName).queryParameters;
        FetchLog(gridName, captured, retrieve(captured), interleaved)
      else
        []
    }

    /** `fetchDataIfRequired`: marks the first evaluation as done, and
        fetches when the policy says so, judged on the flag as it was. */
    method FetchDataIfRequired(interleaved: seq<Action>) returns (fetched: bool, completion: Completion)
      requires store.Valid()
      requires forall i :: 0 <= i < |interleaved| ==> Accepted(interleaved[i])
      modifies this, store
      ensures store.Valid()
      ensures hasFirstFetchOccurred
      ensures fetched == ShouldFetch(old(hasFirstFetchOccurred), forceFetchOnMount, old(Props()))
      ensures store.log == old(store.log) + PolicyLog(fetched, old(store.state), interleaved)
      ensures store.state == ReduceAll(old(store.state), PolicyLog(fetched, old(store.state), interleaved))
      ensures completion == if fetched then CompletionOf(retrieve(EntryOf(old(store.state), gridName).queryParameters))
                            else Normal
    {
      var wasFirstFetchOccurred := hasFirstFetchOccurred;
      if !wasFirstFetchOccurred {
        hasFirstFetchOccurred := true;
      }
      var props := Props();
      if (!forceFetchOnMount || wasFirstFetchOccurred)
         && (props.isLoading || props.queryParameters == props.queryResultParameters)
      {
        fetched, completion := false, Normal;
        return;
      }
      var _, c := FetchData(store, gridName, retrieve, interleaved);
      fetched, completion := true, c;
    }

    /** `componentDidMount`: stores the initial parameters, then evaluates
        the fetch policy. */
    method ComponentDidMount(interleaved: seq<Action>) returns (fetched: bool, completion: Completion)
      requires store.Valid()
      requires forall i :: 0 <= i < |interleaved| ==> Accepted(interleaved[i])
      modifies this, store
      ensures store.Valid()
      ensures hasFirstFetchOccurred
      ensures var mounted := Reduce(old(store.state), SetQueryParametersAction(gridName, initialQueryParameters));
              && fetched == ShouldFetch(old(hasFirstFetchOccurred), forceFetchOnMount, MapStateToProps(mounted, gridName))
              && store.log == old(store.log) + [SetQueryParametersAction(gridName, initialQueryParameters)]
                              + PolicyLog(fetched, mounted, interleaved)
      ensures !old(hasFirstFetchOccurred) && forceFetchOnMount ==> fetched
      ensures completion == if fetched then CompletionOf(retrieve(Some(initialQueryParameters))) else Normal
    {
      ghost var start := store.state;
      SetGridQueryParameters(store, gridName, initialQueryParameters);
      SetQueryParametersWritesOnlyParameters(start, SetQueryParametersAction(gridName, initialQueryParameters));
      fetched, completion := FetchDataIfRequired(interleaved);
    }

    /** `componentDidUpdate`: clamps the page against the current result,
        dispatching the clamped parameters if they differ, then evaluates
        the fetch policy. Clamping `null` parameters against a result
        throws before anything is dispatched. */
    method ComponentDidUpdate(interleaved: seq<Action>) returns (fetched: bool, completion: Completion)
      requires store.Valid()
      requires forall i :: 0 <= i < |interleaved| ==> Accepted(interleaved[i])
      modifies this, store
      ensures store.Valid()
      ensures var props := old(Props());
              FixInvalidQueryParameters(props.queryParameters, props.queryResult).Err? ==>
                && !fetched
                && completion == Threw(FixInvalidQueryParameters(props.queryParameters, props.queryResult).error)
                && store.log == old(store.log) && store.state == old(store.state)
                && hasFirstFetchOccurred == old(hasFirstFetchOccurred)
      ensures var props := old(Props());
              var clamp := ClampDispatches(gridName, props);
              var clamped := ReduceAll(old(store.state), clamp);
              FixInvalidQueryParameters(props.queryParameters, props.queryResult).Ok? ==>
                && hasFirstFetchOccurred
                && fetched == ShouldFetch(old(hasFirstFetchOccurred), forceFetchOnMount,
                                          MapStateToProps(clamped, gridName))
                && store.log == old(store.log) + clamp + PolicyLog(fetched, clamped, interleaved)
                && completion == if fetched then CompletionOf(retrieve(EntryOf(clamped, gridName).queryParameters))
                                 else Normal
    {
      ghost var start := store.state;
      var props := Props();
      var fix := FixInvalidQueryParameters(props.queryParameters, props.queryResult);
      if fix.Err? {
        fetched, completion := false, Threw(fix.error);
        return;
      }
      var newQueryParameters := fix.value;
      if newQueryParameters != props.queryParameters {
        SetGridQueryParameters(store, gridName, newQueryParameters.value);
        assert [SetQueryParametersAction(gridName, newQueryParameters.value)][1..] == [];
      }
      fetched, completion := FetchDataIfRequired(interleaved);
    }

    /** `onPageChange`: one SET_QUERY_PARAMETERS with only the page changed. */
    method OnPageChange(pageIndex: int)
      requires store.Valid() && Props().queryParameters.Some?
      modifies store
      ensures store.Valid()
      ensures store.log == old(store.log)
                           + [SetQueryParametersAction(gridName, WithPage(old(Props()).queryParameters.value, pageIndex))]
    {
      SetGridQueryParameters(store, gridName, WithPage(Props().queryParameters.value, pageIndex));
    }

    /** `onPageSizeChange`: one SET_QUERY_PARAMETERS with the page size and
        page changed. */
    method OnPageSizeChange(pageSize: int, pageIndex: int)
      requires store.Valid() && Props().queryParameters.Some?
      modifies store
      ensures store.Valid()
      ensures store.log == old(store.log)
                           + [SetQueryParametersAction(gridName,
                                WithPageSize(old(Props()).queryParameters.value, pageSize, pageIndex))]
    {
      SetGridQueryParameters(store, gridName, WithPageSize(Props().queryParameters.value, pageSize, pageIndex));
    }

    /** `onSortedChange`: one SET_QUERY_PARAMETERS with the sort rules changed. */
    method OnSortedChange(sorts: seq<SortingRule>)
      requires store.Valid() && Props().queryParameters.Some?
      modifies store
      ensures store.Valid()
      ensures store.log == old(store.log)
                           + [SetQueryParametersAction(gridName, WithSorts(old(Props()).queryParameters.value, sorts))]
    {
      SetGridQueryParameters(store, gridName, WithSorts(Props().queryParameters.value, sorts));
    }

    /** `onFilteredChange`: one SET_QUERY_PARAMETERS with the filters changed. */
    method OnFilteredChange(filters: seq<Filter>)
      requires store.Valid() && Props().queryParameters.Some?
      modifies store
      ensures store.Valid()
      ensures store.log == old(store.log)
                           + [SetQueryParametersAction(gridName, WithFilters(old(Props()).queryParameters.value, filters))]
    {
      SetGridQueryParameters(store, gridName, WithFilters(Props().queryParameters.value, filters));
    }
  }
}
