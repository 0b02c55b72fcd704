/** The results table (DataTable.jsx): column order, the pager and the header
    click that sorts. */
module DataTable {
  import opened Util
  import opened FilterContext

  /** Columns shown first, in this order, when the rows have them. */
  const PriorityCols: seq<string> := [
    "antibody", "condition", "organ_system", "adverse_event_term",
    "general_molecular_category", "target_1", "moa_new", "record_category",
    "dose_mg", "dose_mg_kg", "frequency_days", "median_duration_days",
    "duration", "phase", "n_ab", "events_ab", "n_comp", "events_comp",
    "all_grades%", "grade_3_4%", "grade_5%",
    "source"
  ]

  lemma PriorityColsDistinct()
    ensures Distinct(PriorityCols)
  {
    PriorityKeysOf();
    PriorityKeysDistinct();
    KeysDistinct(PriorityCols);
  }

  /** A name's length and first character, packed into one number. The 22
      names already differ in this key, and distinct numbers are far cheaper
      for the verifier to tell apart than distinct strings. */
  function NameKey(c: string): int {
    if |c| == 0 then 0 else |c| * 1000 + c[0] as int
  }

  function NameKeys(s: seq<string>): (r: seq<int>)
    ensures |r| == |s| && forall i :: 0 <= i < |s| ==> r[i] == NameKey(s[i])
  {
    seq(|s|, i requires 0 <= i < |s| => NameKey(s[i]))
  }

  /** Names whose keys differ are different. */
  lemma KeysDistinct(s: seq<string>)
    requires Distinct(NameKeys(s))
    ensures Distinct(s)
  {
    forall i, j | 0 <= i < j < |s| ensures s[i] != s[j] {
      assert NameKeys(s)[i] != NameKeys(s)[j];
    }
  }

  /** The keys of the priority columns, in two halves. */
  const PriorityKeysHead: seq<int> := [8097, 9099, 12111, 18097, 26103, 8116, 7109, 15114, 7100, 10100, 14102]
  const PriorityKeysTail: seq<int> := [20109, 8100, 5112, 4110, 9101, 6110, 11101, 11097, 10103, 8103, 6115]

  lemma PriorityKeysOf()
    ensures NameKeys(PriorityCols) == PriorityKeysHead + PriorityKeysTail
  {
  }

  lemma PriorityKeysDistinct()
    ensures Distinct(PriorityKeysHead + PriorityKeysTail)
  {
    PriorityKeysHeadDistinct();
    PriorityKeysTailDistinct();
    PriorityKeysHalvesDisjoint();
    DistinctConcat(PriorityKeysHead, PriorityKeysTail);
  }

  lemma PriorityKeysHeadDistinct()
    ensures Distinct(PriorityKeysHead)
  {
  }

  lemma PriorityKeysTailDistinct()
    ensures Distinct(PriorityKeysTail)
  {
  }

  lemma PriorityKeysHalvesDisjoint()
    ensures forall i, j :: 0 <= i < |PriorityKeysHead| && 0 <= j < |PriorityKeysTail| ==>
      PriorityKeysHead[i] != PriorityKeysTail[j]
  {
  }

  lemma DistinctConcat<T>(a: seq<T>, b: seq<T>)
    requires Distinct(a) && Distinct(b)
    requires forall i, j :: 0 <= i < |a| && 0 <= j < |b| ==> a[i] != b[j]
    ensures Distinct(a + b)
  {
  }

  /** The members of `front` that occur in `all`, in `front`'s order. */
  function FrontPart(front: seq<string>, all: seq<string>): seq<string> {
    Filter(front, c => c in all)
  }

  /** The members of `all` not in `front`, in `all`'s order. */
  function BackPart(front: seq<string>, all: seq<string>): seq<string> {
    Filter(all, c => c !in front)
  }

  /** `orderedCols`. */
  function OrderedCols(allCols: seq<string>): seq<string> {
    FrontPart(PriorityCols, allCols) + BackPart(PriorityCols, allCols)
  }

  /** Moving the members of `front` that occur in `all` to the front of `all`
      rearranges `all`, when neither list repeats an element. */
  lemma FrontFirstPermutation(front: seq<string>, all: seq<string>)
    requires Distinct(front) && Distinct(all)
    ensures multiset(FrontPart(front, all) + BackPart(front, all)) == multiset(all)
  {
    var p := FrontPart(front, all);
    var q := BackPart(front, all);
    forall x ensures multiset(p + q)[x] == multiset(all)[x] {
      DistinctMultiplicity(front, x);
      DistinctMultiplicity(all, x);
      assert (c => c in all)(x) == (x in all);
      assert (c => c !in front)(x) == (x !in front);
    }
  }

  /** In that rearrangement the members of `front` come first, in `front`'s
      order, and the rest follow in `all`'s order. */
  lemma FrontFirstOrder(front: seq<string>, all: seq<string>)
    ensures var r := FrontPart(front, all) + BackPart(front, all);
      var k := |FrontPart(front, all)|;
      && IsSubsequence(r[..k], front) && (forall i :: 0 <= i < k ==> r[i] in front && r[i] in all)
      && IsSubsequence(r[k..], all) && (forall i :: k <= i < |r| ==> r[i] !in front)
  {
    var p := FrontPart(front, all);
    var q := BackPart(front, all);
    var r := p + q;
    assert r[..|p|] == p && r[|p|..] == q;
    FrontPartMembers(front, all);
    BackPartMembers(front, all);
  }

  lemma FrontPartMembers(front: seq<string>, all: seq<string>)
    ensures var p := FrontPart(front, all);
      IsSubsequence(p, front) && forall i :: 0 <= i < |p| ==> p[i] in front && p[i] in all
  {
    var p := FrontPart(front, all);
    SubsequenceElements(p, front);
    assert forall i :: 0 <= i < |p| ==> p[i] in p;
    assert forall i :: 0 <= i < |p| ==> (c => c in all)(p[i]);
  }

  lemma BackPartMembers(front: seq<string>, all: seq<string>)
    ensures var q := BackPart(front, all);
      IsSubsequence(q, all) && forall i :: 0 <= i < |q| ==> q[i] !in front
  {
    var q := BackPart(front, all);
    assert forall i :: 0 <= i < |q| ==> (c => c !in front)(q[i]);
  }

  /** For the distinct keys of a row, `orderedCols` is a rearrangement of them. */
  lemma OrderedColsPermutation(allCols: seq<string>)
    requires Distinct(allCols)
    ensures multiset(OrderedCols(allCols)) == multiset(allCols)
  {
    PriorityColsDistinct();
    FrontFirstPermutation(PriorityCols, allCols);
  }

  /** The priority columns present come first, in priority order. */
  lemma OrderedColsFront(allCols: seq<string>)
    ensures var r := OrderedCols(allCols);
      var k := |FrontPart(PriorityCols, allCols)|;
      && IsSubsequence(r[..k], PriorityCols)
      && (forall i :: 0 <= i < k ==> r[i] in allCols)
  {
    var p := FrontPart(PriorityCols, allCols);
    assert OrderedCols(allCols)[..|p|] == p;
    FrontPartMembers(PriorityCols, allCols);
  }

  /** The other columns follow in their original order. */
  lemma OrderedColsBack(allCols: seq<string>)
    ensures var r := OrderedCols(allCols);
      var k := |FrontPart(PriorityCols, allCols)|;
      && IsSubsequence(r[k..], allCols)
      && (forall i :: k <= i < |r| ==> r[i] !in PriorityCols)
  {
    var p := FrontPart(PriorityCols, allCols);
    var q := BackPart(PriorityCols, allCols);
    assert OrderedCols(allCols)[|p|..] == q;
    BackPartMembers(PriorityCols, allCols);
  }

  /** `Math.ceil(total / page_size)`. */
  function TotalPages(total: nat, pageSize: PageSize): (r: nat)
    ensures (r - 1) * pageSize < total <= r * pageSize || (total == 0 && r == 0)
  {
    var q := (total + pageSize - 1) / pageSize;
    var m := (total + pageSize - 1) % pageSize;
    assert total + pageSize - 1 == q * pageSize + m;
    q
  }

  /** The pager is drawn when there is more than one page, which is when the
      total exceeds one page's worth of rows. */
  function ShowsPager(total: nat, pageSize: PageSize): (r: bool)
    ensures r <==> total > pageSize
  {
    var tp := TotalPages(total, pageSize);
    assert tp >= 2 ==> (tp - 1) * pageSize >= pageSize;
    assert total > pageSize ==> tp * pageSize > pageSize * 1;
    tp > 1
  }

  /** The direction a header click requests: descending exactly when the
      clicked column is the current sort column and it is ascending. */
  function NextSortDir(sortBy: Option<string>, sortDir: string, col: string): (r: string)
    ensures r == "asc" || r == "desc"
    ensures r == "desc" <==> sortBy == Some(col) && sortDir == "asc"
  {
    if sortBy == Some(col) && sortDir == "asc" then "desc" else "asc"
  }

  /** `handleSort(col)`: re-query the current page sorted by `col`. */
  method HandleSort(ctx: Provider, col: string) returns (p: PendingQuery)
    modifies ctx
    ensures var s := old(ctx.state);
      p == PendingFor(s, s.results.page, Some(col), NextSortDir(s.sortBy, s.sortDir, col))
    ensures ctx.state == Reduce(old(ctx.state), SetLoading(true))
    ensures ctx.trace == old(ctx.trace) + [SetLoading(true)]
  {
    var s := ctx.state;
    p := ctx.ApplyFilters(s.results.page, Some(col), NextSortDir(s.sortBy, s.sortDir, col));
  }

  /** Once a header click's query succeeds, the clicked column is the sort
      column with the requested direction, so the next click on it requests
      the other direction. */
  lemma {:induction false} SortClicksAlternate(s: State, col: string, res: ResultPage,
                                              dists: seq<Result<DistSlot, string>>)
    ensures var d := NextSortDir(s.sortBy, s.sortDir, col);
      var t := ReduceAll(s, [SetLoading(true)]
                            + QueryReplyActions(PendingFor(s, s.results.page, Some(col), d), Success(res), dists));
      && t.sortBy == Some(col) && t.sortDir == d
      && NextSortDir(t.sortBy, t.sortDir, col) != d
  {
    ApplySucceeds(s, s.results.page, Some(col), NextSortDir(s.sortBy, s.sortDir, col), res, dists);
  }

  /** `handlePage(p)`: pages outside 1..totalPages are ignored; any other page
      is queried with the current sort. */
  method HandlePage(ctx: Provider, page: int) returns (q: Option<PendingQuery>)
    modifies ctx
    ensures var s := old(ctx.state);
      var tp := TotalPages(s.results.total, s.results.pageSize);
      if 1 <= page <= tp then
        && q == Some(PendingFor(s, page, s.sortBy, s.sortDir))
        && ctx.state == Reduce(s, SetLoading(true))
        && ctx.trace == old(ctx.trace) + [SetLoading(true)]
      else
        q == None && ctx.state == s && ctx.trace == old(ctx.trace)
  {
    var s := ctx.state;
    var tp := TotalPages(s.results.total, s.results.pageSize);
    if page < 1 || page > tp {
      q := None;
      return;
    }
    var p := ctx.ApplyFilters(page, s.sortBy, s.sortDir);
    q := Some(p);
  }

  /** The numbered page buttons: consecutive pages from `max(1, page - 2)` to
      `min(totalPages, page + 2)`. */
  method PageNumbers(page: int, totalPages: int) returns (nums: seq<int>)
    ensures var start := Max(1, page - 2);
      var end := Min(totalPages, page + 2);
      && |nums| == Max(0, end - start + 1)
      && forall i :: 0 <= i < |nums| ==> nums[i] == start + i
    ensures |nums| <= 5
    ensures forall i :: 0 <= i < |nums| ==> 1 <= nums[i] <= totalPages
    ensures 1 <= page <= totalPages ==> page in nums
  {
    var start := Max(1, page - 2);
    var end := Min(totalPages, page + 2);
    nums := [];
    var i := start;
    while i <= end
      invariant start <= i <= Max(start, end + 1)
      invariant |nums| == i - start
      invariant forall j :: 0 <= j < |nums| ==> nums[j] == start + j
      decreases end - i
    {
      nums := nums + [i];
      i := i + 1;
    }
    if 1 <= page <= totalPages {
      assert nums[page - start] == page;
    }
  }
}
