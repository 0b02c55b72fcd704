/** The client-side query state of the explorer (FilterContext.jsx): the
    state record, its twelve named transitions, and the provider object whose
    `loadFilterOptions` and `applyFilters` emit fixed sequences of transitions
    once the backend has answered. A backend answer is a parameter (success or
    failure per request); what is left is which transitions are dispatched,
    in which order, and what state they produce. There is no generation
    counter: a late answer is applied to whatever state is current. */
module FilterContext {
  import opened Util
  import opened Dict

  // ---------------------------------------------------------------------------
  // Data model

  /** A cell or filter value. Values are kept as their text. */
  type Value = string

  /** Column name -> selected values, in the order the columns were first selected. */
  type FilterSet = Dict<seq<Value>>

  /** A result row: column name -> value, in the backend's column order. */
  type Row = Dict<Value>

  type PageSize = n: int | n > 0 witness 50

  /** The reply of the paged query: rows, total row count, echoed page and page size. */
  datatype ResultPage = ResultPage(data: seq<Row>, total: nat, page: int, pageSize: PageSize)

  /** One distribution slot: `{}` before anything arrived, or `{labels, values}`. */
  datatype DistSlot = Unloaded | Loaded(labels: seq<string>, values: seq<int>)

  datatype AeSummary = AeSummary(categories: seq<string>, proportions: seq<real>, counts: seq<real>)

  datatype State = State(
    table: string,
    filters: FilterSet,
    search: string,
    filterOptions: Dict<seq<Value>>,
    results: ResultPage,
    distributions: seq<DistSlot>,
    aeData: AeSummary,
    loading: bool,
    optionsLoading: bool,
    error: Option<string>,
    sortBy: Option<string>,
    sortDir: string)

  /** The reducer's actions; `Unrecognised` stands for any other `type`. */
  datatype Action =
    | SetTable(table: string)
    | SetFilters(filters: FilterSet)
    | SetSearch(search: string)
    | SetFilterOptions(options: Dict<seq<Value>>)
    | SetResults(results: ResultPage)
    | SetDistributions(distributions: seq<DistSlot>)
    | SetAeData(ae: AeSummary)
    | SetLoading(loading: bool)
    | SetOptionsLoading(optionsLoading: bool)
    | SetError(message: string)
    | SetSort(sortBy: Option<string>, sortDir: string)
    | ClearFilters
    | Unrecognised(name: string)

  // ---------------------------------------------------------------------------
  // Constants

  const DefaultPageSize: PageSize := 50

  datatype DistributionChart = DistributionChart(column: string, title: string)

  /** The distributions fetched with every query, one slot each. */
  const DistributionCharts: seq<DistributionChart> := [
    DistributionChart("record_category", "Record Category"),
    DistributionChart("general_molecular_category", "General Molecular Category"),
    DistributionChart("moa_new", "Mechanism of Action"),
    DistributionChart("target_1", "Targets")
  ]

  /** The datasets offered by the dataset selector, with their labels. */
  const TableLabels: Dict<string> := [
    ("ctgov_all", "CTGOV – All Events"),
    ("label_final", "FDA Label – Final"),
    ("label_bbw", "FDA Label – BBW"),
    ("label_wap", "FDA Label – WAP"),
    ("fc_mutations", "Fc Antibody Mutations")
  ]

  const InitialResults := ResultPage([], 0, 1, DefaultPageSize)
  const InitialDistributions: seq<DistSlot> := [Unloaded, Unloaded, Unloaded, Unloaded]
  const InitialAe := AeSummary([], [], [])

  const InitialState := State(
    "ctgov_all", [], "", [], InitialResults, InitialDistributions, InitialAe,
    false, false, None, None, "asc")

  /** The `isCtgov` flag derived from the active table. */
  function IsCtgov(table: string): (r: bool)
    ensures r <==> |table| >= 5 && table[..5] == "ctgov"
  {
    StartsWith(table, "ctgov")
  }

  // ---------------------------------------------------------------------------
  // The reducer

  /** The fields of the state record. */
  datatype Field =
    Table | Filters | Search | FilterOptions | Results | Distributions | AeData
    | Loading | OptionsLoading | Error | SortBy | SortDir

  /** `s` and `t` hold the same value in field `f`. */
  predicate Agree(s: State, t: State, f: Field) {
    match f
    case Table => s.table == t.table
    case Filters => s.filters == t.filters
    case Search => s.search == t.search
    case FilterOptions => s.filterOptions == t.filterOptions
    case Results => s.results == t.results
    case Distributions => s.distributions == t.distributions
    case AeData => s.aeData == t.aeData
    case Loading => s.loading == t.loading
    case OptionsLoading => s.optionsLoading == t.optionsLoading
    case Error => s.error == t.error
    case SortBy => s.sortBy == t.sortBy
    case SortDir => s.sortDir == t.sortDir
  }

  /** Every field outside `fs` is the same in `s` and `t`. */
  ghost predicate SameExcept(s: State, t: State, fs: set<Field>) {
    forall f :: f !in fs ==> Agree(s, t, f)
  }

  /** The fields each action lists in its object spread. */
  function Writes(a: Action): set<Field> {
    match a
    case SetTable(_) => {Table, Filters, Search, Results, Distributions, AeData}
    case SetFilters(_) => {Filters}
    case SetSearch(_) => {Search}
    case SetFilterOptions(_) => {FilterOptions, OptionsLoading}
    case SetResults(_) => {Results, Loading}
    case SetDistributions(_) => {Distributions}
    case SetAeData(_) => {AeData}
    case SetLoading(_) => {Loading}
    case SetOptionsLoading(_) => {OptionsLoading}
    case SetError(_) => {Error, Loading}
    case SetSort(_, _) => {SortBy, SortDir}
    case ClearFilters => {Filters, Search}
    case Unrecognised(_) => {}
  }

  /** One reducer step: a new record with the action's fields replaced. */
  function Reduce(s: State, a: Action): (r: State)
    ensures SameExcept(s, r, Writes(a))
  {
    match a
    case SetTable(t) =>
      s.(table := t, filters := [], search := "", results := InitialResults,
         distributions := InitialDistributions, aeData := InitialAe)
    case SetFilters(f) => s.(filters := f)
    case SetSearch(q) => s.(search := q)
    case SetFilterOptions(o) => s.(filterOptions := o, optionsLoading := false)
    case SetResults(res) => s.(results := res, loading := false)
    case SetDistributions(d) => s.(distributions := d)
    case SetAeData(ae) => s.(aeData := ae)
    case SetLoading(b) => s.(loading := b)
    case SetOptionsLoading(b) => s.(optionsLoading := b)
    case SetError(m) => s.(error := Some(m), loading := false)
    case SetSort(col, dir) => s.(sortBy := col, sortDir := dir)
    case ClearFilters => s.(filters := [], search := "")
    case Unrecognised(_) => s
  }

  /** The state after dispatching `acts` in order. */
  function ReduceAll(s: State, acts: seq<Action>): State
    decreases |acts|
  {
    if |acts| == 0 then s else ReduceAll(Reduce(s, acts[0]), acts[1..])
  }

  lemma {:induction false} ReduceAllConcat(s: State, a: seq<Action>, b: seq<Action>)
    ensures ReduceAll(s, a + b) == ReduceAll(ReduceAll(s, a), b)
    decreases |a|
  {
    if |a| == 0 {
      assert a + b == b;
    } else {
      assert (a + b)[0] == a[0] && (a + b)[1..] == a[1..] + b;
      ReduceAllConcat(Reduce(s, a[0]), a[1..], b);
    }
  }

  /** Dispatching a literal list of one to four actions, unrolled; these are
      the batches the handlers dispatch. */
  lemma ReduceAllOne(s: State, a: Action)
    ensures ReduceAll(s, [a]) == Reduce(s, a)
  {
    assert [a][1..] == [];
  }

  lemma ReduceAllTwo(s: State, a: Action, b: Action)
    ensures ReduceAll(s, [a, b]) == Reduce(Reduce(s, a), b)
  {
    assert [a, b][1..] == [b];
    ReduceAllOne(Reduce(s, a), b);
  }

  lemma ReduceAllThree(s: State, a: Action, b: Action, c: Action)
    ensures ReduceAll(s, [a, b, c]) == Reduce(Reduce(Reduce(s, a), b), c)
  {
    assert [a, b, c][1..] == [b, c];
    ReduceAllTwo(Reduce(s, a), b, c);
  }

  lemma ReduceAllFour(s: State, a: Action, b: Action, c: Action, d: Action)
    ensures ReduceAll(s, [a, b, c, d]) == Reduce(Reduce(Reduce(Reduce(s, a), b), c), d)
  {
    assert [a, b, c, d][1..] == [b, c, d];
    ReduceAllThree(Reduce(s, a), b, c, d);
  }

  /** SET_TABLE installs the table and resets filters, search, results,
      distributions and adverse-event data; sort, options, loading flags and
      error are left as they were. */
  lemma SetTableResets(s: State, t: string)
    ensures var r := Reduce(s, SetTable(t));
      && r.table == t && r.filters == [] && r.search == ""
      && r.results == InitialResults && r.distributions == InitialDistributions && r.aeData == InitialAe
      && r.sortBy == s.sortBy && r.sortDir == s.sortDir && r.filterOptions == s.filterOptions
      && r.loading == s.loading && r.optionsLoading == s.optionsLoading && r.error == s.error
  {
  }

  /** CLEAR_FILTERS empties filters and search and changes nothing else. */
  lemma ClearFiltersResets(s: State)
    ensures Reduce(s, ClearFilters) == s.(filters := [], search := "")
  {
  }

  /** SET_RESULTS and SET_ERROR both end loading; SET_ERROR keeps the previous results. */
  lemma RepliesEndLoading(s: State, res: ResultPage, m: string)
    ensures !Reduce(s, SetResults(res)).loading && Reduce(s, SetResults(res)).results == res
    ensures !Reduce(s, SetError(m)).loading && Reduce(s, SetError(m)).results == s.results
    ensures Reduce(s, SetError(m)).error == Some(m)
  {
  }

  /** An action the reducer does not know returns the state unchanged. */
  lemma UnrecognisedIsIdentity(s: State, name: string)
    ensures Reduce(s, Unrecognised(name)) == s
  {
  }

  /** A field that no action of `acts` writes keeps its value through all of them. */
  lemma {:induction false} FieldSurvives(s: State, acts: seq<Action>, f: Field)
    requires forall i :: 0 <= i < |acts| ==> f !in Writes(acts[i])
    ensures Agree(s, ReduceAll(s, acts), f)
    decreases |acts|
  {
    if |acts| > 0 {
      var s1 := Reduce(s, acts[0]);
      assert Agree(s, s1, f);
      FieldSurvives(s1, acts[1..], f);
    }
  }

  /** Only SET_ERROR writes `error`: once set, an error outlives any number of
      later successful queries. */
  lemma ErrorPersists(s: State, acts: seq<Action>)
    requires forall i :: 0 <= i < |acts| ==> !acts[i].SetError?
    ensures ReduceAll(s, acts).error == s.error
  {
    FieldSurvives(s, acts, Error);
  }

  // ---------------------------------------------------------------------------
  // Requests and the transitions dispatched when they are answered

  datatype QueryRequest = QueryRequest(
    table: string, filters: FilterSet, search: string,
    page: int, pageSize: PageSize, sortBy: Option<string>, sortDir: string)

  datatype DistRequest = DistRequest(table: string, column: string, filters: FilterSet, search: string)

  datatype AeRequest = AeRequest(table: string, groupBy: string, filters: FilterSet, search: string)

  /** The requests one `applyFilters` call has in flight. */
  datatype PendingQuery = PendingQuery(query: QueryRequest, dists: seq<DistRequest>)

  /** What `applyFilters(page, sortBy, sortDir)` asks for, built from the state
      it was called in. */
  function PendingFor(s: State, page: int, sortBy: Option<string>, sortDir: string): (p: PendingQuery)
    ensures p.query == QueryRequest(s.table, s.filters, s.search, page, 50, sortBy, sortDir)
    ensures |p.dists| == |DistributionCharts|
    ensures forall i :: 0 <= i < |p.dists| ==>
      p.dists[i] == DistRequest(s.table, DistributionCharts[i].column, s.filters, s.search)
  {
    PendingQuery(
      QueryRequest(s.table, s.filters, s.search, page, DefaultPageSize, sortBy, sortDir),
      seq(|DistributionCharts|, i requires 0 <= i < |DistributionCharts| =>
        DistRequest(s.table, DistributionCharts[i].column, s.filters, s.search)))
  }

  /** The adverse-event request issued after a successful query, from the
      same captured state. */
  function AeRequestFor(p: PendingQuery): AeRequest {
    AeRequest(p.query.table, "organ_system", p.query.filters, p.query.search)
  }

  /** What a failed distribution fetch is replaced by. */
  const EmptyDistribution := Loaded([], [])

  /** The distribution payload: each failed fetch becomes the empty
      distribution, in its own slot only. */
  function DistributionPayload(replies: seq<Result<DistSlot, string>>): (r: seq<DistSlot>)
    ensures |r| == |replies|
    ensures forall i :: 0 <= i < |r| ==>
      (replies[i].Success? ==> r[i] == replies[i].value) &&
      (replies[i].Failure? ==> r[i] == EmptyDistribution)
  {
    seq(|replies|, i requires 0 <= i < |replies| =>
      match replies[i]
      case Success(d) => d
      case Failure(_) => EmptyDistribution)
  }

  /** The transitions dispatched when the paged query and the distribution
      fetches have settled. Only the paged query can fail the batch. */
  function QueryReplyActions(p: PendingQuery, main: Result<ResultPage, string>,
                             dists: seq<Result<DistSlot, string>>): seq<Action>
  {
    match main
    case Success(res) =>
      [SetResults(res), SetDistributions(DistributionPayload(dists)), SetSort(p.query.sortBy, p.query.sortDir)]
    case Failure(m) => [SetError(m)]
  }

  /** The adverse-event reply is dispatched whenever it arrives; a failure is swallowed. */
  function AeReplyActions(reply: Result<AeSummary, string>): seq<Action> {
    match reply
    case Success(ae) => [SetAeData(ae)]
    case Failure(_) => []
  }

  function OptionsReplyActions(reply: Result<Dict<seq<Value>>, string>): seq<Action> {
    match reply
    case Success(o) => [SetFilterOptions(o)]
    case Failure(m) => [SetError(m)]
  }

  /** A settled query either dispatches exactly SET_RESULTS, SET_DISTRIBUTIONS,
      SET_SORT in this order, or exactly one SET_ERROR; the distribution
      payload has one slot per requested distribution. */
  lemma QueryReplyOrder(p: PendingQuery, main: Result<ResultPage, string>, dists: seq<Result<DistSlot, string>>)
    ensures var acts := QueryReplyActions(p, main, dists);
      if main.Success? then
        |acts| == 3 && acts[0] == SetResults(main.value)
        && acts[1].SetDistributions? && |acts[1].distributions| == |dists|
        && acts[2] == SetSort(p.query.sortBy, p.query.sortDir)
      else acts == [SetError(main.error)]
  {
  }

  /** The adverse-event fetch never dispatches anything when it fails, and
      never reports an error. */
  lemma AeFailureIsSilent(s: State, reply: Result<AeSummary, string>)
    ensures reply.Failure? ==> ReduceAll(s, AeReplyActions(reply)) == s
    ensures ReduceAll(s, AeReplyActions(reply)).error == s.error
  {
  }

  /** A whole successful `applyFilters`: results, distributions and sort are
      installed, loading ends, and every other field -- the error included --
      is what it was. */
  lemma {:induction false} ApplySucceeds(s: State, page: int, sortBy: Option<string>, sortDir: string,
                                         res: ResultPage, dists: seq<Result<DistSlot, string>>)
    ensures var t := ReduceAll(s, [SetLoading(true)] + QueryReplyActions(PendingFor(s, page, sortBy, sortDir), Success(res), dists));
      && t.results == res && t.distributions == DistributionPayload(dists)
      && t.sortBy == sortBy && t.sortDir == sortDir && !t.loading
      && SameExcept(s, t, {Results, Distributions, SortBy, SortDir, Loading})
  {
    var p := PendingFor(s, page, sortBy, sortDir);
    var acts := [SetLoading(true)] + QueryReplyActions(p, Success(res), dists);
    assert acts == [SetLoading(true), SetResults(res), SetDistributions(DistributionPayload(dists)), SetSort(sortBy, sortDir)];
    var s1 := Reduce(s, SetLoading(true));
    var s2 := Reduce(s1, SetResults(res));
    var s3 := Reduce(s2, SetDistributions(DistributionPayload(dists)));
    var s4 := Reduce(s3, SetSort(sortBy, sortDir));
    ReduceAllFour(s, SetLoading(true), SetResults(res), SetDistributions(DistributionPayload(dists)), SetSort(sortBy, sortDir));
  }

  /** A whole failed `applyFilters`: the error is installed, loading ends, and
      the previous results, distributions and sort stay on display. */
  lemma {:induction false} ApplyFails(s: State, page: int, sortBy: Option<string>, sortDir: string,
                                      m: string, dists: seq<Result<DistSlot, string>>)
    ensures var t := ReduceAll(s, [SetLoading(true)] + QueryReplyActions(PendingFor(s, page, sortBy, sortDir), Failure(m), dists));
      && t.error == Some(m) && !t.loading && t.results == s.results
      && SameExcept(s, t, {Error, Loading})
  {
    var acts := [SetLoading(true)] + QueryReplyActions(PendingFor(s, page, sortBy, sortDir), Failure(m), dists);
    assert acts == [SetLoading(true), SetError(m)];
    ReduceAllTwo(s, SetLoading(true), SetError(m));
  }

  /** A failed vocabulary fetch leaves `optionsLoading` true, because SET_ERROR
      does not clear it, and it stays true until options are loaded again. */
  lemma {:induction false} OptionsLoadingStuck(s: State, m: string, later: seq<Action>)
    requires forall i :: 0 <= i < |later| ==> !later[i].SetFilterOptions? && !later[i].SetOptionsLoading?
    ensures ReduceAll(s, [SetOptionsLoading(true)] + OptionsReplyActions(Failure(m)) + later).optionsLoading
  {
    var first := [SetOptionsLoading(true)] + OptionsReplyActions(Failure(m));
    assert first == [SetOptionsLoading(true), SetError(m)];
    ReduceAllConcat(s, first, later);
    var t := ReduceAll(s, first);
    ReduceAllTwo(s, SetOptionsLoading(true), SetError(m));
    FieldSurvives(t, later, OptionsLoading);
  }

  /** There is no staleness check: when two queries overlap, whichever reply
      is dispatched last is what the state shows, even if it answers a query
      made before a dataset switch. */
  lemma {:induction false} LastReplyWins(s: State, t2: string, p1: PendingQuery, p2: PendingQuery,
                                         r1: ResultPage, r2: ResultPage,
                                         d1: seq<Result<DistSlot, string>>, d2: seq<Result<DistSlot, string>>)
    ensures var t := ReduceAll(s, [SetLoading(true), SetTable(t2), SetLoading(true)]
                                  + QueryReplyActions(p2, Success(r2), d2)
                                  + QueryReplyActions(p1, Success(r1), d1));
      && t.table == t2 && t.results == r1 && t.distributions == DistributionPayload(d1)
      && t.sortBy == p1.query.sortBy && t.sortDir == p1.query.sortDir
  {
    var a := [SetLoading(true), SetTable(t2), SetLoading(true)] + QueryReplyActions(p2, Success(r2), d2);
    var b := QueryReplyActions(p1, Success(r1), d1);
    ReduceAllConcat(s, a, b);
    SwitchThenReply(s, t2, p2, r2, d2);
    SuccessfulReply(ReduceAll(s, a), p1, r1, d1);
  }

  /** The table a switch installs survives the reply of any query. */
  lemma SwitchThenReply(s: State, t2: string, p: PendingQuery, r: ResultPage, d: seq<Result<DistSlot, string>>)
    ensures ReduceAll(s, [SetLoading(true), SetTable(t2), SetLoading(true)] + QueryReplyActions(p, Success(r), d)).table == t2
  {
    var first := [SetLoading(true), SetTable(t2), SetLoading(true)];
    ReduceAllConcat(s, first, QueryReplyActions(p, Success(r), d));
    ReduceAllThree(s, SetLoading(true), SetTable(t2), SetLoading(true));
    FieldSurvives(ReduceAll(s, first), QueryReplyActions(p, Success(r), d), Table);
  }

  /** A successful reply installs its results, distributions and sort, and
      keeps the table. */
  lemma SuccessfulReply(u: State, p: PendingQuery, r: ResultPage, d: seq<Result<DistSlot, string>>)
    ensures var t := ReduceAll(u, QueryReplyActions(p, Success(r), d));
      && t.table == u.table && t.results == r && t.distributions == DistributionPayload(d)
      && t.sortBy == p.query.sortBy && t.sortDir == p.query.sortDir
  {
    ReduceAllThree(u, SetResults(r), SetDistributions(DistributionPayload(d)), SetSort(p.query.sortBy, p.query.sortDir));
  }

  // ---------------------------------------------------------------------------
  // The provider: the store and the operations that dispatch into it

  class Provider {
    var state: State
    /** Every action dispatched so far, in order. */
    ghost var trace: seq<Action>

    constructor ()
      ensures state == InitialState && trace == []
    {
      state := InitialState;
      trace := [];
    }

    method Dispatch(a: Action)
      modifies this
      ensures state == Reduce(old(state), a) && trace == old(trace) + [a]
    {
      state := Reduce(state, a);
      trace := trace + [a];
    }

    /** The part of `loadFilterOptions(table)` that runs before the fetch is
        awaited; returns the table whose vocabulary is requested. */
    method LoadFilterOptions(table: string) returns (requested: string)
      modifies this
      ensures requested == table
      ensures state == Reduce(old(state), SetOptionsLoading(true))
      ensures trace == old(trace) + [SetOptionsLoading(true)]
    {
      Dispatch(SetOptionsLoading(true));
      requested := table;
    }

    /** The rest of `loadFilterOptions`, once the vocabulary fetch settled. */
    method FilterOptionsSettled(reply: Result<Dict<seq<Value>>, string>)
      modifies this
      ensures state == ReduceAll(old(state), OptionsReplyActions(reply))
      ensures trace == old(trace) + OptionsReplyActions(reply)
    {
      match reply
      case Success(o) =>
        Dispatch(SetFilterOptions(o));
        ReduceAllOne(old(state), SetFilterOptions(o));
      case Failure(m) =>
        Dispatch(SetError(m));
        ReduceAllOne(old(state), SetError(m));
    }

    /** The part of `applyFilters(page, sortBy, sortDir)` that runs before the
        fetches are awaited: loading starts and the requests are built from
        the current table, filters and search. */
    method ApplyFilters(page: int, sortBy: Option<string>, sortDir: string) returns (p: PendingQuery)
      modifies this
      ensures p == PendingFor(old(state), page, sortBy, sortDir)
      ensures state == Reduce(old(state), SetLoading(true))
      ensures trace == old(trace) + [SetLoading(true)]
    {
      p := PendingFor(state, page, sortBy, sortDir);
      Dispatch(SetLoading(true));
    }

    /** The rest of `applyFilters`, once the paged query and the distribution
        fetches settled (`dists` holds one outcome per requested
        distribution). On success the adverse-event request is returned: it
        is issued but not awaited. */
    method QuerySettled(p: PendingQuery, main: Result<ResultPage, string>,
                        dists: seq<Result<DistSlot, string>>) returns (ae: Option<AeRequest>)
      requires |dists| == |p.dists|
      modifies this
      ensures state == ReduceAll(old(state), QueryReplyActions(p, main, dists))
      ensures trace == old(trace) + QueryReplyActions(p, main, dists)
      ensures ae == if main.Success? then Some(AeRequestFor(p)) else None
    {
      match main
      case Success(res) =>
        Dispatch(SetResults(res));
        Dispatch(SetDistributions(DistributionPayload(dists)));
        Dispatch(SetSort(p.query.sortBy, p.query.sortDir));
        ae := Some(AeRequestFor(p));
        ReduceAllThree(old(state), SetResults(res), SetDistributions(DistributionPayload(dists)), SetSort(p.query.sortBy, p.query.sortDir));
      case Failure(m) =>
        Dispatch(SetError(m));
        ae := None;
        ReduceAllOne(old(state), SetError(m));
    }

    /** The adverse-event reply, whenever it arrives. */
    method AdverseEventsSettled(reply: Result<AeSummary, string>)
      modifies this
      ensures state == ReduceAll(old(state), AeReplyActions(reply))
      ensures trace == old(trace) + AeReplyActions(reply)
    {
      match reply
      case Success(ae) =>
        Dispatch(SetAeData(ae));
        ReduceAllOne(old(state), SetAeData(ae));
      case Failure(_) =>
    }

    method ChangeTable(t: string)
      modifies this
      ensures state == Reduce(old(state), SetTable(t)) && trace == old(trace) + [SetTable(t)]
    {
      Dispatch(SetTable(t));
    }

    method ChangeFilters(f: FilterSet)
      modifies this
      ensures state == Reduce(old(state), SetFilters(f)) && trace == old(trace) + [SetFilters(f)]
    {
      Dispatch(SetFilters(f));
    }

    method ChangeSearch(q: string)
      modifies this
      ensures state == Reduce(old(state), SetSearch(q)) && trace == old(trace) + [SetSearch(q)]
    {
      Dispatch(SetSearch(q));
    }

    method ClearAll()
      modifies this
      ensures state == Reduce(old(state), ClearFilters) && trace == old(trace) + [ClearFilters]
    {
      Dispatch(ClearFilters);
    }
  }
}
