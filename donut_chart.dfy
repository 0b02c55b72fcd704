/** The donut chart of one distribution (DonutChart.jsx): long-tail categories
    beyond the largest `maxSlices - 1` are folded into one "Other" slice, and a
    chart without data shows a single grey "No data" slice. */
module DonutChart {
  import opened Util
  import opened FilterContext

  /** The default slice budget of `consolidate`. */
  const MaxSlices: nat := 10

  datatype Slices = Slices(labels: seq<string>, values: seq<int>)

  /** `consolidate(labels, values, maxSlices)`. The labels arrive sorted by
      count, largest first, so the kept prefix is the largest categories. */
  function Consolidate(labels: seq<string>, values: seq<int>, maxSlices: nat): Slices
    requires maxSlices >= 1
  {
    if |labels| <= maxSlices then Slices(labels, values)
    else
      Slices(Take(labels, maxSlices - 1) + ["Other"],
             Take(values, maxSlices - 1) + [Sum(Drop(values, maxSlices - 1))])
  }

  /** A distribution that does not fit becomes exactly `maxSlices` slices: the
      first `maxSlices - 1` unchanged, then "Other" carrying the sum of the rest,
      so the chart's total count is the distribution's total count. */
  lemma {:induction false} ConsolidateOverflow(labels: seq<string>, values: seq<int>, maxSlices: nat)
    requires maxSlices >= 1 && |labels| > maxSlices && |values| == |labels|
    ensures var r := Consolidate(labels, values, maxSlices);
      && |r.labels| == maxSlices && |r.values| == maxSlices
      && r.labels[..maxSlices - 1] == labels[..maxSlices - 1]
      && r.values[..maxSlices - 1] == values[..maxSlices - 1]
      && r.labels[maxSlices - 1] == "Other"
      && r.values[maxSlices - 1] == Sum(values[maxSlices - 1..])
      && Sum(r.values) == Sum(values)
  {
    var k := maxSlices - 1;
    var r := Consolidate(labels, values, maxSlices);
    assert r.values == values[..k] + [Sum(values[k..])];
    SumConcat(values[..k], [Sum(values[k..])]);
    SumConcat(values[..k], values[k..]);
    assert values[..k] + values[k..] == values;
  }

  /** A slot has data when its label list is present and non-empty. */
  predicate HasData(d: DistSlot) {
    d.Loaded? && |d.labels| > 0
  }

  /** What the chart draws for a slot. */
  function Display(d: DistSlot): (r: Slices)
    ensures 1 <= |r.labels| <= MaxSlices
    ensures !HasData(d) ==> r == Slices(["No data"], [1])
    ensures HasData(d) && |d.labels| <= MaxSlices ==> r == Slices(d.labels, d.values)
    ensures HasData(d) && |d.labels| > MaxSlices ==> |r.labels| == MaxSlices && r.labels[MaxSlices - 1] == "Other"
  {
    if HasData(d) then Consolidate(d.labels, d.values, MaxSlices) else Slices(["No data"], [1])
  }
}
