/** The bar under the filter panel (FilterBar.jsx): the Apply and Clear
    buttons, the count of active constraints and the result total. */
module FilterBar {
  import opened Util
  import opened Dict
  import opened FilterContext

  /** The number of columns whose selection is non-empty. */
  function NonEmptyCount(filters: FilterSet): nat
    decreases |filters|
  {
    if |filters| == 0 then 0
    else (if |filters[0].1| > 0 then 1 else 0) + NonEmptyCount(filters[1..])
  }

  /** `activeCount`: selected columns, plus one for a non-empty search. */
  function ActiveCount(filters: FilterSet, search: string): nat {
    NonEmptyCount(filters) + (if search != "" then 1 else 0)
  }

  /** The names of the columns that constrain the query. */
  function ActiveColumns(filters: FilterSet): set<string> {
    set i | 0 <= i < |filters| && |filters[i].1| > 0 :: filters[i].0
  }

  /** Each key is counted once, so the count is the number of constraining
      columns, plus one exactly when the search is non-empty. */
  lemma {:induction false} ActiveCountIsColumnCount(filters: FilterSet, search: string)
    requires DistinctKeys(filters)
    ensures ActiveCount(filters, search) == |ActiveColumns(filters)| + (if search != "" then 1 else 0)
  {
    NonEmptyCountIsColumnCount(filters);
  }

  lemma {:induction false} NonEmptyCountIsColumnCount(filters: FilterSet)
    requires DistinctKeys(filters)
    ensures NonEmptyCount(filters) == |ActiveColumns(filters)|
    decreases |filters|
  {
    if |filters| > 0 {
      var rest := filters[1..];
      assert DistinctKeys(rest) by {
        assert forall i :: 0 <= i < |rest| ==> rest[i] == filters[i + 1];
      }
      NonEmptyCountIsColumnCount(rest);
      ActiveColumnsCons(filters);
    } else {
      assert ActiveColumns(filters) == {};
    }
  }

  /** The first entry adds its key, which no later entry has, when it is active. */
  lemma ActiveColumnsCons(filters: FilterSet)
    requires DistinctKeys(filters) && |filters| > 0
    ensures var rest := ActiveColumns(filters[1..]);
      && filters[0].0 !in rest
      && ActiveColumns(filters) == (if |filters[0].1| > 0 then {filters[0].0} else {}) + rest
  {
    var rest := filters[1..];
    forall c | c in ActiveColumns(filters) ensures c == filters[0].0 || c in ActiveColumns(rest) {
      var i :| 0 <= i < |filters| && |filters[i].1| > 0 && filters[i].0 == c;
      if i > 0 { assert rest[i - 1] == filters[i]; }
    }
    forall c | c in ActiveColumns(rest) ensures c in ActiveColumns(filters) && c != filters[0].0 {
      var i :| 0 <= i < |rest| && |rest[i].1| > 0 && rest[i].0 == c;
      assert filters[i + 1] == rest[i];
    }
  }

  /** The "N active" badge shows exactly when some column is constrained or
      the search is non-empty. */
  lemma ShowsActiveBadge(filters: FilterSet, search: string)
    requires DistinctKeys(filters)
    ensures ActiveCount(filters, search) > 0 <==> search != "" || exists i :: 0 <= i < |filters| && |filters[i].1| > 0
  {
    ActiveCountIsColumnCount(filters, search);
    if exists i :: 0 <= i < |filters| && |filters[i].1| > 0 {
      var i :| 0 <= i < |filters| && |filters[i].1| > 0;
      assert filters[i].0 in ActiveColumns(filters);
    }
  }

  /** After Clear, nothing is active. */
  lemma ClearLeavesNothingActive(s: State)
    ensures var t := Reduce(s, ClearFilters); ActiveCount(t.filters, t.search) == 0
  {
  }

  /** The "N results found" line shows only for a positive total. */
  function ShowsTotal(results: ResultPage): (r: bool)
    ensures r <==> results.total != 0
  {
    results.total > 0
  }

  /** Apply: `applyFilters(1)` with the current sort. The button is disabled
      while a query is loading, so it can only be pressed when none is. */
  method Apply(ctx: Provider) returns (p: PendingQuery)
    requires !ctx.state.loading
    modifies ctx
    ensures p == PendingFor(old(ctx.state), 1, old(ctx.state).sortBy, old(ctx.state).sortDir)
    ensures p.query.page == 1
    ensures ctx.state == Reduce(old(ctx.state), SetLoading(true))
    ensures ctx.trace == old(ctx.trace) + [SetLoading(true)]
  {
    p := ctx.ApplyFilters(1, ctx.state.sortBy, ctx.state.sortDir);
  }

  /** Clear All: CLEAR_FILTERS only; the results on display are not refreshed. */
  method Clear(ctx: Provider)
    modifies ctx
    ensures ctx.state == old(ctx.state).(filters := [], search := "")
    ensures ctx.trace == old(ctx.trace) + [ClearFilters]
  {
    ctx.ClearAll();
    ClearFiltersResets(old(ctx.state));
  }
}
