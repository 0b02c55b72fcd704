/** The dataset selector (Header.jsx). Choosing a dataset dispatches SET_TABLE;
    the effect keyed on `table` -- run once on mount and again whenever the
    table changes -- loads the new vocabulary and re-queries page 1 with the
    sort reset to unsorted ascending. */
module Header {
  import opened Util
  import opened FilterContext

  /** The effect body: `loadFilterOptions(table)` then `applyFilters(1, null, 'asc')`. */
  method TableEffect(ctx: Provider) returns (optionsFor: string, p: PendingQuery)
    modifies ctx
    ensures optionsFor == old(ctx.state.table)
    ensures p == PendingFor(Reduce(old(ctx.state), SetOptionsLoading(true)), 1, None, "asc")
    ensures ctx.state == ReduceAll(old(ctx.state), [SetOptionsLoading(true), SetLoading(true)])
    ensures ctx.trace == old(ctx.trace) + [SetOptionsLoading(true), SetLoading(true)]
  {
    optionsFor := ctx.LoadFilterOptions(ctx.state.table);
    p := ctx.ApplyFilters(1, None, "asc");
    ReduceAllTwo(old(ctx.state), SetOptionsLoading(true), SetLoading(true));
  }

  /** The select's `onChange`, followed by the effect when the table value
      actually changed (React skips an effect whose dependency is unchanged). */
  method SelectDataset(ctx: Provider, t: string) returns (effect: Option<(string, PendingQuery)>)
    modifies ctx
    ensures effect.Some? <==> t != old(ctx.state.table)
    ensures effect.Some? ==> effect.value == (t, PendingFor(ReduceAll(old(ctx.state), [SetTable(t), SetOptionsLoading(true)]), 1, None, "asc"))
    ensures ctx.trace == old(ctx.trace) + SelectDatasetActions(old(ctx.state), t)
    ensures ctx.state == ReduceAll(old(ctx.state), SelectDatasetActions(old(ctx.state), t))
  {
    var before := ctx.state.table;
    ctx.ChangeTable(t);
    if t != before {
      var optionsFor, p := TableEffect(ctx);
      effect := Some((optionsFor, p));
      ReduceAllTwo(old(ctx.state), SetTable(t), SetOptionsLoading(true));
      ReduceAllThree(old(ctx.state), SetTable(t), SetOptionsLoading(true), SetLoading(true));
    } else {
      effect := None;
      ReduceAllOne(old(ctx.state), SetTable(t));
    }
  }

  /** The transitions a dataset choice dispatches before any reply arrives. */
  function SelectDatasetActions(s: State, t: string): seq<Action> {
    if t != s.table then [SetTable(t), SetOptionsLoading(true), SetLoading(true)] else [SetTable(t)]
  }

  /** Switching datasets queries the new table, page 1, with no filters, no
      search and the sort reset, whatever the previous state was. */
  lemma SwitchQueriesFreshState(s: State, t: string)
    ensures var p := PendingFor(ReduceAll(s, [SetTable(t), SetOptionsLoading(true)]), 1, None, "asc");
      && p.query == QueryRequest(t, [], "", 1, 50, None, "asc")
      && forall i :: 0 <= i < |p.dists| ==> p.dists[i].table == t && p.dists[i].filters == [] && p.dists[i].search == ""
  {
    ReduceAllTwo(s, SetTable(t), SetOptionsLoading(true));
  }

  /** Once the switch's query succeeds, the sort is the reset one: it is the
      caller's `applyFilters(1, null, 'asc')`, not SET_TABLE, that resets it. */
  lemma {:induction false} SwitchResetsSortOnSuccess(s: State, t: string, res: ResultPage,
                                                     dists: seq<Result<DistSlot, string>>)
    ensures var s1 := ReduceAll(s, [SetTable(t), SetOptionsLoading(true)]);
      var p := PendingFor(s1, 1, None, "asc");
      var u := ReduceAll(s1, [SetLoading(true)] + QueryReplyActions(p, Success(res), dists));
      && u.table == t && u.filters == [] && u.search == ""
      && u.sortBy == None && u.sortDir == "asc" && u.results == res
  {
    var s1 := ReduceAll(s, [SetTable(t), SetOptionsLoading(true)]);
    ReduceAllTwo(s, SetTable(t), SetOptionsLoading(true));
    ApplySucceeds(s1, 1, None, "asc", res, dists);
    var u := ReduceAll(s1, [SetLoading(true)] + QueryReplyActions(PendingFor(s1, 1, None, "asc"), Success(res), dists));
    assert Agree(s1, u, Table) && Agree(s1, u, Filters) && Agree(s1, u, Search);
  }
}
