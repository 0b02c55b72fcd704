/** The query-building helpers of the HTTP backend (backend/main.py): table
    validation, identifier quoting, the WHERE clause shared by every endpoint,
    the paged query and the distribution query. SQL is modelled as the text
    handed to SQLite together with its positional parameter list. */
module Main {
  import opened Util
  import opened Dict

  /** The tables the API serves. */
  const ValidTables: seq<string> :=
    ["ctgov_all", "ctgov_serious", "ctgov_other", "label_final", "label_bbw", "label_wap"]

  /** Python's `repr` of that list, as the error message prints it. */
  const ValidTablesRepr: string :=
    "['ctgov_all', 'ctgov_serious', 'ctgov_other', 'label_final', 'label_bbw', 'label_wap']"

  datatype HttpError = HttpError(status: int, detail: string)

  /** `validate_table`: None when the table is served, otherwise the 400
      error it raises. */
  function ValidateTable(table: string): (r: Option<HttpError>)
    ensures r.None? <==> table in ValidTables
    ensures r.Some? ==> r.value == HttpError(400, "Invalid table: " + table + ". Must be one of " + ValidTablesRepr)
  {
    if table in ValidTables then None
    else Some(HttpError(400, "Invalid table: " + table + ". Must be one of " + ValidTablesRepr))
  }

  /** `quote_col`: the name between double quotes, with no escaping. */
  function QuoteCol(col: string): string {
    "\"" + col + "\""
  }

  /** The quoted name holds exactly its two delimiting quotes, and so is read
      back by SQLite as the one identifier `col`, exactly when `col` itself has
      no double quote. */
  lemma QuoteColDelimits(col: string)
    ensures CountChar(QuoteCol(col), '"') == 2 <==> '"' !in col
    ensures QuoteCol(col)[1..|col| + 1] == col
  {
    CountCharConcat("\"", col, '"');
    CountCharConcat("\"" + col, "\"", '"');
    CountCharAbsent(col, '"');
  }

  /** `table_type`: "ctgov" for the clinical-trial tables, "label" otherwise. */
  function TableType(table: string): (r: string)
    ensures r == "ctgov" <==> StartsWith(table, "ctgov")
    ensures r == "ctgov" || r == "label"
  {
    if StartsWith(table, "ctgov") then "ctgov" else "label"
  }

  // ---------------------------------------------------------------------------
  // build_where

  /** A bound parameter: filter values and the search pattern are text, LIMIT
      and OFFSET are integers. */
  datatype Param = Text(text: string) | Number(number: int)

  /** A filter dictionary as parsed from JSON: a value may be a list or null. */
  type Filters = Dict<Option<seq<string>>>

  /** A filter entry constrains the query when its list is present and
      non-empty (`if not values: continue`). */
  predicate Usable(values: Option<seq<string>>) {
    values.Some? && |values.value| > 0
  }

  /** `",".join(["?"] * n)`. */
  function Placeholders(n: nat): string {
    Join(Repeat("?", n), ",")
  }

  /** The clause for one column: `"col" IN (?,...,?)`. */
  function InClause(col: string, n: nat): string {
    QuoteCol(col) + " IN (" + Placeholders(n) + ")"
  }

  function Texts(values: seq<string>): (r: seq<Param>)
    ensures |r| == |values| && forall i :: 0 <= i < |r| ==> r[i] == Text(values[i])
  {
    seq(|values|, i requires 0 <= i < |values| => Text(values[i]))
  }

  /** The clauses contributed by the filter entries, in dictionary order. */
  function FilterClauses(f: Filters): seq<string>
    decreases |f|
  {
    if |f| == 0 then []
    else
      var last := f[|f| - 1];
      FilterClauses(f[..|f| - 1]) + (if Usable(last.1) then [InClause(last.0, |last.1.value|)] else [])
  }

  /** The parameters contributed by the filter entries: every value of every
      usable entry, in dictionary order. */
  function FilterParams(f: Filters): seq<Param>
    decreases |f|
  {
    if |f| == 0 then []
    else
      var last := f[|f| - 1];
      FilterParams(f[..|f| - 1]) + (if Usable(last.1) then Texts(last.1.value) else [])
  }

  /** `if search:` -- present and non-empty. */
  predicate Searching(search: Option<string>) {
    search.Some? && search.value != ""
  }

  const SearchClause: string := QuoteCol("antibody") + " LIKE ?"

  function Clauses(f: Filters, search: Option<string>): seq<string> {
    FilterClauses(f) + (if Searching(search) then [SearchClause] else [])
  }

  function Params(f: Filters, search: Option<string>): seq<Param> {
    FilterParams(f) + (if Searching(search) then [Text("%" + search.value + "%")] else [])
  }

  function WhereOf(clauses: seq<string>): string {
    if |clauses| == 0 then "" else " WHERE " + Join(clauses, " AND ")
  }

  /** `build_where(table, filters, search)`. The table argument is unused by
      the source as well. */
  method BuildWhere(table: string, filters: Filters, search: Option<string>) returns (where: string, params: seq<Param>)
    ensures where == WhereOf(Clauses(filters, search))
    ensures params == Params(filters, search)
  {
    var clauses: seq<string> := [];
    params := [];
    var i := 0;
    while i < |filters|
      invariant 0 <= i <= |filters|
      invariant clauses == FilterClauses(filters[..i])
      invariant params == FilterParams(filters[..i])
    {
      assert filters[..i + 1][..i] == filters[..i];
      var (col, values) := filters[i];
      if Usable(values) {
        clauses := clauses + [InClause(col, |values.value|)];
        params := params + Texts(values.value);
      }
      i := i + 1;
    }
    assert filters[..|filters|] == filters;
    if Searching(search) {
      clauses := clauses + [SearchClause];
      params := params + [Text("%" + search.value + "%")];
    }
    assert clauses == Clauses(filters, search);
    where := if |clauses| > 0 then " WHERE " + Join(clauses, " AND ") else "";
  }

  /** There are no clauses exactly when no entry is usable and there is no search. */
  lemma {:induction false} FilterClausesEmpty(f: Filters)
    ensures |FilterClauses(f)| == 0 <==> forall i :: 0 <= i < |f| ==> !Usable(f[i].1)
    decreases |f|
  {
    if |f| > 0 {
      var init := f[..|f| - 1];
      FilterClausesEmpty(init);
      assert forall i :: 0 <= i < |init| ==> init[i] == f[i];
    }
  }

  /** `where` is empty exactly when nothing constrains the query, and it is
      never a dangling " WHERE ". */
  lemma WhereEmptyIff(f: Filters, search: Option<string>)
    ensures WhereOf(Clauses(f, search)) == "" <==>
      (forall i :: 0 <= i < |f| ==> !Usable(f[i].1)) && !Searching(search)
    ensures WhereOf(Clauses(f, search)) != "" ==>
      WhereOf(Clauses(f, search)) == " WHERE " + Join(Clauses(f, search), " AND ")
  {
    FilterClausesEmpty(f);
  }

  /** The placeholders of one clause. */
  lemma {:induction false} PlaceholdersCount(n: nat)
    ensures CountChar(Placeholders(n), '?') == n
  {
    CountCharJoin(Repeat("?", n), ",", '?');
    RepeatCount(n);
  }

  lemma {:induction false} RepeatCount(n: nat)
    ensures CountCharAll(Repeat("?", n), '?') == n
    decreases n
  {
    if n > 0 {
      assert Repeat("?", n)[1..] == Repeat("?", n - 1);
      RepeatCount(n - 1);
    }
  }

  /** `"col" IN (?,...,?)` has one `?` per value when the column name has none. */
  lemma InClauseCount(col: string, n: nat)
    requires '?' !in col
    ensures CountChar(InClause(col, n), '?') == n
  {
    CountCharAbsent(col, '?');
    PlaceholdersCount(n);
    CountCharConcat("\"", col, '?');
    CountCharConcat("\"" + col, "\"", '?');
    CountCharConcat(QuoteCol(col), " IN (", '?');
    CountCharConcat(QuoteCol(col) + " IN (", Placeholders(n), '?');
    CountCharConcat(QuoteCol(col) + " IN (" + Placeholders(n), ")", '?');
    CountCharAbsent(" IN (", '?');
    CountCharAbsent(")", '?');
    CountCharAbsent("\"", '?');
  }

  /** Column names free of `?`: the only `?` in the SQL are placeholders. */
  ghost predicate PlainColumns(f: Filters) {
    forall i :: 0 <= i < |f| ==> '?' !in f[i].0
  }

  lemma {:induction false} FilterPlaceholdersMatch(f: Filters)
    requires PlainColumns(f)
    ensures CountCharAll(FilterClauses(f), '?') == |FilterParams(f)|
    decreases |f|
  {
    if |f| > 0 {
      var init := f[..|f| - 1];
      var last := f[|f| - 1];
      assert PlainColumns(init) by {
        assert forall i :: 0 <= i < |init| ==> init[i] == f[i];
      }
      FilterPlaceholdersMatch(init);
      var extra := if Usable(last.1) then [InClause(last.0, |last.1.value|)] else [];
      CountCharAllConcat(FilterClauses(init), extra, '?');
      if Usable(last.1) {
        InClauseCount(last.0, |last.1.value|);
      }
    }
  }

  /** The placeholders of the WHERE clause are exactly as many as its
      parameters, so SQLite binds every filter value and the search pattern,
      provided no column name contains `?`. */
  lemma {:induction false} WherePlaceholdersMatch(f: Filters, search: Option<string>)
    requires PlainColumns(f)
    ensures CountChar(WhereOf(Clauses(f, search)), '?') == |Params(f, search)|
  {
    var cs := Clauses(f, search);
    FilterPlaceholdersMatch(f);
    var extra := if Searching(search) then [SearchClause] else [];
    CountCharAllConcat(FilterClauses(f), extra, '?');
    if Searching(search) {
      InClauseCountSearch();
    }
    if |cs| > 0 {
      CountCharJoin(cs, " AND ", '?');
      CountCharConcat(" WHERE ", Join(cs, " AND "), '?');
      CountCharAbsent(" WHERE ", '?');
    }
  }

  lemma InClauseCountSearch()
    ensures CountChar(SearchClause, '?') == 1
  {
    var a := QuoteCol("antibody") + " LIKE ";
    assert '?' !in a;
    assert SearchClause == a + ['?'];
    OnePlaceholder(a);
  }

  lemma OnePlaceholder(a: string)
    requires '?' !in a
    ensures CountChar(a + ['?'], '?') == 1
  {
    CountCharAbsent(a, '?');
    CountCharOne('?');
    CountCharConcat(a, ['?'], '?');
  }

  // ---------------------------------------------------------------------------
  // query_data

  datatype QueryRequest = QueryRequest(table: string, filters: Filters, search: Option<string>,
                                       page: int, pageSize: int, sortBy: Option<string>, sortDir: string)

  /** `"DESC" if sort_dir.lower() == "desc" else "ASC"`. */
  function Direction(sortDir: string): (r: string)
    ensures r == "DESC" <==> Lower(sortDir) == "desc"
    ensures r == "DESC" || r == "ASC"
  {
    if Lower(sortDir) == "desc" then "DESC" else "ASC"
  }

  /** The ORDER BY part: present only for a non-empty sort column. */
  function OrderClause(sortBy: Option<string>, sortDir: string): string {
    if sortBy.Some? && sortBy.value != "" then " ORDER BY " + QuoteCol(sortBy.value) + " " + Direction(sortDir)
    else ""
  }

  /** The direction does not depend on the case of `sort_dir`. */
  lemma DirectionIgnoresCase(sortDir: string)
    ensures Direction(Lower(sortDir)) == Direction(sortDir)
  {
    LowerIdempotent(sortDir);
  }

  /** `(page - 1) * page_size`: the rows skipped before the page. */
  function Offset(page: int, pageSize: int): (r: int)
  {
    (page - 1) * pageSize
  }

  /** Page 1 starts at row 0 and each page starts where the previous one ends. */
  lemma OffsetsTile(page: int, pageSize: int)
    ensures Offset(1, pageSize) == 0
    ensures Offset(page + 1, pageSize) == Offset(page, pageSize) + pageSize
  {
    assert (page + 1 - 1) * pageSize == (page - 1) * pageSize + pageSize by {
      assert (page - 1 + 1) * pageSize == (page - 1) * pageSize + 1 * pageSize;
    }
  }

  const CountHead: string := "SELECT COUNT(*) as cnt FROM "
  const PageHead: string := "SELECT * FROM "
  const LimitOffset: string := " LIMIT ? OFFSET ?"

  /** The count statement: `SELECT COUNT(*) as cnt FROM {table}{where}`. */
  function CountSql(table: string, where: string): string {
    CountHead + table + where
  }

  /** The page statement: `SELECT * FROM {table}{where}{order} LIMIT ? OFFSET ?`. */
  function PageSql(table: string, where: string, order: string): string {
    PageHead + table + where + order + LimitOffset
  }

  /** The two statements `query_data` runs: the count and the page. */
  datatype QueryPlan = QueryPlan(countSql: string, countParams: seq<Param>, sql: string, params: seq<Param>)

  /** The statements `query_data` sends to SQLite for a request, or the error
      it raises for an unknown table. */
  method PlanQuery(req: QueryRequest) returns (r: Result<QueryPlan, HttpError>)
    ensures ValidateTable(req.table).Some? ==> r == Failure(ValidateTable(req.table).value)
    ensures ValidateTable(req.table).None? ==>
      var where := WhereOf(Clauses(req.filters, req.search));
      var params := Params(req.filters, req.search);
      && r.Success?
      && r.value.countSql == CountSql(req.table, where)
      && r.value.countParams == params
      && r.value.sql == PageSql(req.table, where, OrderClause(req.sortBy, req.sortDir))
      && r.value.params == params + [Number(req.pageSize), Number(Offset(req.page, req.pageSize))]
    ensures r.Success? && PlainColumns(req.filters) && (req.sortBy.Some? ==> '?' !in req.sortBy.value) ==>
      && CountChar(r.value.countSql, '?') == |r.value.countParams|
      && CountChar(r.value.sql, '?') == |r.value.params|
  {
    var err := ValidateTable(req.table);
    if err.Some? {
      return Failure(err.value);
    }
    var where, params := BuildWhere(req.table, req.filters, req.search);
    var order := "";
    if req.sortBy.Some? && req.sortBy.value != "" {
      order := " ORDER BY " + QuoteCol(req.sortBy.value) + " " + Direction(req.sortDir);
    }
    var offset := (req.page - 1) * req.pageSize;
    var countSql := CountSql(req.table, where);
    var sql := PageSql(req.table, where, order);
    r := Success(QueryPlan(countSql, params, sql, params + [Number(req.pageSize), Number(offset)]));
    if PlainColumns(req.filters) && (req.sortBy.Some? ==> '?' !in req.sortBy.value) {
      PlanPlaceholdersMatch(req);
    }
  }

  /** Every `?` of the two statements is bound: the count statement takes
      the WHERE parameters, the page statement those plus LIMIT and OFFSET. */
  lemma PlanPlaceholdersMatch(req: QueryRequest)
    requires req.table in ValidTables && PlainColumns(req.filters)
    requires req.sortBy.Some? ==> '?' !in req.sortBy.value
    ensures var where := WhereOf(Clauses(req.filters, req.search));
      var n := |Params(req.filters, req.search)|;
      && CountChar(CountSql(req.table, where), '?') == n
      && CountChar(PageSql(req.table, where, OrderClause(req.sortBy, req.sortDir)), '?') == n + 2
  {
    var where := WhereOf(Clauses(req.filters, req.search));
    WherePlaceholdersMatch(req.filters, req.search);
    TablePlain(req.table);
    OrderClausePlain(req.sortBy, req.sortDir);
    LimitOffsetCount(LimitOffset);
    HeadsPlain();
    QueryPlaceholdersMatch(CountHead, PageHead, req.table, where, OrderClause(req.sortBy, req.sortDir), LimitOffset);
  }

  /** The two statements carry the WHERE clause's placeholders, and the page
      statement two more for LIMIT and OFFSET. */
  lemma QueryPlaceholdersMatch(countHead: string, pageHead: string, table: string, where: string,
                               order: string, tail: string)
    requires '?' !in countHead && '?' !in pageHead && '?' !in table && '?' !in order
    requires CountChar(tail, '?') == 2
    ensures CountChar(countHead + table + where, '?') == CountChar(where, '?')
    ensures CountChar(pageHead + table + where + order + tail, '?') == CountChar(where, '?') + 2
  {
    CountCharAbsent(countHead, '?');
    CountCharAbsent(pageHead, '?');
    CountCharAbsent(table, '?');
    CountCharAbsent(order, '?');
    CountCharConcat(countHead, table, '?');
    CountCharConcat(countHead + table, where, '?');
    CountCharConcat(pageHead, table, '?');
    CountCharConcat(pageHead + table, where, '?');
    CountCharConcat(pageHead + table + where, order, '?');
    CountCharConcat(pageHead + table + where + order, tail, '?');
  }

  /** `" LIMIT ? OFFSET ?"` holds two placeholders. */
  lemma LimitOffsetCount(s: string)
    requires s == " LIMIT ? OFFSET ?"
    ensures CountChar(s, '?') == 2
  {
    var a, b := " LIMIT ", " OFFSET ";
    assert '?' !in a && '?' !in b;
    assert s == a + ['?'] + b + ['?'];
    TwoPlaceholders(a, b);
  }

  lemma TwoPlaceholders(a: string, b: string)
    requires '?' !in a && '?' !in b
    ensures CountChar(a + ['?'] + b + ['?'], '?') == 2
  {
    CountCharAbsent(a, '?');
    CountCharAbsent(b, '?');
    CountCharOne('?');
    CountCharConcat(a, ['?'], '?');
    CountCharConcat(a + ['?'], b, '?');
    CountCharConcat(a + ['?'] + b, ['?'], '?');
  }

  lemma HeadsPlain()
    ensures '?' !in CountHead && '?' !in PageHead
  {
  }

  lemma TablePlain(table: string)
    requires table in ValidTables
    ensures '?' !in table
  {
  }

  lemma OrderClausePlain(sortBy: Option<string>, sortDir: string)
    requires sortBy.Some? ==> '?' !in sortBy.value
    ensures '?' !in OrderClause(sortBy, sortDir)
  {
  }

  // ---------------------------------------------------------------------------
  // chart_distribution

  /** The `filters` query parameter: absent or empty, JSON that does not
      parse, or a parsed JSON object. */
  datatype FiltersArg = NoFilters | Malformed | Parsed(filters: Filters)

  /** `filter_dict`: an absent or unparsable argument means no filters. */
  function FilterDict(arg: FiltersArg): (r: Filters)
    ensures arg.Parsed? ==> r == arg.filters
    ensures !arg.Parsed? ==> r == []
  {
    if arg.Parsed? then arg.filters else []
  }

  function DistributionHead(table: string, column: string): string {
    "SELECT " + QuoteCol(column) + " as label, COUNT(*) as cnt FROM " + table
  }

  function DistributionTail(column: string): string {
    " GROUP BY " + QuoteCol(column) + " ORDER BY cnt DESC"
  }

  /** Both branches of the distribution statement have the same shape. */
  lemma DistributionShape(head: string, cs: seq<string>, notNull: string, tail: string)
    ensures var where := WhereOf(cs);
      (if where == "" then head + " WHERE " + notNull + tail else head + where + " AND " + notNull + tail)
      == head + " WHERE " + Join(cs + [notNull], " AND ") + tail
  {
    JoinSnoc(cs, notNull, " AND ");
    if |cs| == 0 {
      assert cs + [notNull] == [notNull];
    } else {
      assert WhereOf(cs) != "";
      var j := Join(cs, " AND ");
      assert head + (" WHERE " + j) + " AND " + notNull + tail == head + " WHERE " + (j + " AND " + notNull) + tail;
    }
  }

  /** The statement `chart_distribution` runs, or the error for an unknown
      table. Whether or not the filters give a WHERE clause, the statement has
      one WHERE introducing the filter clauses followed by the chart column's
      `IS NOT NULL` test, all joined with AND. */
  method DistributionQuery(table: string, column: string, filters: FiltersArg, search: Option<string>)
    returns (r: Result<(string, seq<Param>), HttpError>)
    ensures ValidateTable(table).Some? ==> r == Failure(ValidateTable(table).value)
    ensures ValidateTable(table).None? ==>
      var f := FilterDict(filters);
      r == Success((DistributionHead(table, column)
                    + " WHERE " + Join(Clauses(f, search) + [QuoteCol(column) + " IS NOT NULL"], " AND ")
                    + DistributionTail(column),
                    Params(f, search)))
  {
    var err := ValidateTable(table);
    if err.Some? {
      return Failure(err.value);
    }
    var filterDict: Filters := [];
    if filters.Parsed? {
      filterDict := filters.filters;
    }
    var where, params := BuildWhere(table, filterDict, search);
    var notNull := QuoteCol(column) + " IS NOT NULL";
    var sql := DistributionHead(table, column) + where + " AND " + notNull + DistributionTail(column);
    if where == "" {
      sql := DistributionHead(table, column) + " WHERE " + notNull + DistributionTail(column);
    }
    DistributionShape(DistributionHead(table, column), Clauses(filterDict, search), notNull, DistributionTail(column));
    r := Success((sql, params));
  }
}
