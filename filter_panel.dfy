/** The multi-select filter controls (FilterPanel.jsx): each control shows the
    vocabulary of one column and edits that column's entry of the filter set. */
module FilterPanel {
  import opened Util
  import opened Dict
  import opened FilterContext

  /** A filter set in which no column maps to an empty selection; the panel
      deletes a column rather than storing `[]` for it. */
  ghost predicate NoEmptySelections(f: FilterSet) {
    forall i :: 0 <= i < |f| ==> |f[i].1| > 0
  }

  /** `filterOptions[column] || []`: the choices a control offers. */
  function Options(filterOptions: Dict<seq<Value>>, column: string): (r: seq<Value>)
    ensures (forall i :: 0 <= i < |filterOptions| ==> filterOptions[i].0 != column) ==> r == []
    ensures (exists i :: 0 <= i < |filterOptions| && filterOptions[i].0 == column) ==>
      exists i :: 0 <= i < |filterOptions| && filterOptions[i] == (column, r)
    ensures DistinctKeys(filterOptions) ==>
      forall i :: 0 <= i < |filterOptions| && filterOptions[i].0 == column ==> r == filterOptions[i].1
  {
    var g := Get(filterOptions, column);
    assert DistinctKeys(filterOptions) && g.Some? ==>
      forall i :: 0 <= i < |filterOptions| && filterOptions[i].0 == column ==> g.value == filterOptions[i].1;
    g.GetOr([])
  }

  /** `filters[column] || []`: the values a control shows as selected; the
      same lookup as `Options`, on the filter set. */
  function Selected(filters: FilterSet, column: string): (r: seq<Value>)
    ensures Get(filters, column).Some? ==> r == Get(filters, column).value
    ensures Get(filters, column).None? ==> r == []
  {
    Options(filters, column)
  }

  /** `handleChange(vals)` up to the commit: a copy of the filter set with the
      column removed when the selection is cleared (`null` or empty) and set to
      the selected values, in selection order, otherwise. */
  method HandleChange(filters: FilterSet, column: string, vals: Option<seq<Value>>) returns (next: FilterSet)
    ensures (vals.None? || |vals.value| == 0) ==> Get(next, column).None?
    ensures (vals.Some? && |vals.value| > 0) ==> Get(next, column) == Some(vals.value)
    ensures forall k :: k != column ==> Get(next, k) == Get(filters, k)
    ensures Selected(next, column) == vals.GetOr([])
    ensures NoEmptySelections(filters) ==> NoEmptySelections(next)
    ensures DistinctKeys(filters) ==> DistinctKeys(next)
  {
    next := filters;
    if vals.None? || |vals.value| == 0 {
      next := Delete(next, column);
      SubsequenceElements(next, filters);
      assert forall i :: 0 <= i < |next| ==> next[i] in filters;
    } else {
      next := Set(next, column, vals.value);
    }
  }

  /** The whole change handler: compute the new set and dispatch SET_FILTERS. */
  method OnChange(ctx: Provider, column: string, vals: Option<seq<Value>>)
    modifies ctx
    ensures ctx.state == Reduce(old(ctx.state), SetFilters(ctx.state.filters))
    ensures Get(ctx.state.filters, column).None? <==> (vals.None? || |vals.value| == 0)
    ensures (forall k :: k != column ==> Get(ctx.state.filters, k) == Get(old(ctx.state.filters), k))
    ensures Selected(ctx.state.filters, column) == vals.GetOr([])
    ensures ctx.trace == old(ctx.trace) + [SetFilters(ctx.state.filters)]
  {
    var next := HandleChange(ctx.state.filters, column, vals);
    ctx.ChangeFilters(next);
  }

  /** The columns the panel offers a control for; phase and event type exist
      only in the clinical-trial tables. */
  function Columns(isCtgov: bool): (r: seq<string>)
    ensures ("phase" in r) == isCtgov && ("event_type" in r) == isCtgov
    ensures |r| == if isCtgov then 10 else 8
  {
    ["general_molecular_category", "target_1", "format_general_category", "isotype_fc"]
    + (if isCtgov then ["phase", "event_type"] else [])
    + ["moa_new", "condition", "record_category", "source"]
  }
}
