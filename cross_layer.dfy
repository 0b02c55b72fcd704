/** Facts that tie the frontend, the HTTP backend and the ingest step to
    each other. */
module CrossLayer {
  import opened Util
  import Dict
  import FilterContext
  import Main
  import Ingest

  /** The frontend's `isCtgov` flag and the backend's `table_type` classify
      every table name the same way. */
  lemma CtgovFlagAgrees(table: string)
    ensures FilterContext.IsCtgov(table) <==> Main.TableType(table) == "ctgov"
  {
  }

  /** Of the datasets the selector offers, the backend serves all but
      `fc_mutations`, which it rejects with a 400 error. */
  lemma SelectableTablesServed(t: string)
    requires t in Dict.Keys(FilterContext.TableLabels)
    ensures Main.ValidateTable(t).None? <==> t != "fc_mutations"
  {
  }

  /** `x` names a column of a table ingested with header `cols`: it is the
      normalised name of some header cell, possibly with a repeat suffix. Both
      the renaming as written and the corrected one produce such names. */
  ghost predicate IngestedName(x: string, cols: seq<string>) {
    exists i :: 0 <= i < |cols| && Ingest.SuffixOf(x, Ingest.NormalizeColName(cols[i]))
  }

  /** Every name `clean_df` gives a column is an ingested name. */
  lemma CleanNamesAreIngested(cols: seq<string>, i: nat)
    requires i < |cols|
    ensures IngestedName(Ingest.CleanNames(cols)[i], cols)
  {
    var norms := Ingest.NormalizeAll(cols);
    var k := multiset(norms[..i])[norms[i]];
    assert Ingest.CleanNames(cols)[i] == Ingest.Suffixed(Ingest.NormalizeColName(cols[i]), k);
  }

  /** An ingested name has no `?`: its normalised stem has none, and the
      repeat suffix is `_` followed by digits. */
  lemma IngestedNameHasNoPlaceholder(x: string, cols: seq<string>)
    requires IngestedName(x, cols)
    ensures '?' !in x
  {
    var i :| 0 <= i < |cols| && Ingest.SuffixOf(x, Ingest.NormalizeColName(cols[i]));
    var k :| x == Ingest.Suffixed(Ingest.NormalizeColName(cols[i]), k);
    Ingest.NormalizedIsClean(cols[i]);
    if k > 0 {
      assert '?' !in NatToString(k);
    }
  }

  /** When the filtered columns and the sort column are columns of an
      ingested table, every `?` of both statements `query_data` issues is
      bound to a parameter. */
  lemma IngestedColumnsBindEveryPlaceholder(req: Main.QueryRequest, cols: seq<string>)
    requires req.table in Main.ValidTables
    requires forall j :: 0 <= j < |req.filters| ==> IngestedName(req.filters[j].0, cols)
    requires req.sortBy.Some? ==> IngestedName(req.sortBy.value, cols)
    ensures Main.PlainColumns(req.filters)
    ensures req.sortBy.Some? ==> '?' !in req.sortBy.value
    ensures var where := Main.WhereOf(Main.Clauses(req.filters, req.search));
      var params := Main.Params(req.filters, req.search);
      && CountChar(Main.CountSql(req.table, where), '?') == |params|
      && CountChar(Main.PageSql(req.table, where, Main.OrderClause(req.sortBy, req.sortDir)), '?') == |params| + 2
  {
    forall j | 0 <= j < |req.filters| ensures '?' !in req.filters[j].0 {
      IngestedNameHasNoPlaceholder(req.filters[j].0, cols);
    }
    if req.sortBy.Some? {
      IngestedNameHasNoPlaceholder(req.sortBy.value, cols);
    }
    Main.PlanPlaceholdersMatch(req);
  }
}
