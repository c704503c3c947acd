/**
 * The pie chart's data preparation: a total over the items, then one
 * slice per item with its share of the total and a colour that cycles
 * through a fixed palette of four.
 */
module PieChart {
  import opened JsNumbers

  /** An input item: a category and its amount. */
  datatype Item = Item(category: string, amount: real)

  /** A chart slice; `percentage` is the exact share, before two-decimal formatting. */
  datatype Slice = Slice(name: string, value: real, percentage: Quotient, color: string)

  const Colors: seq<string> := ["#0088FE", "#00C49F", "#FFBB28", "#FF8042"]

  /** `totalAmount`: the sum of the amounts (exact, so the order of the additions does not matter). */
  function TotalAmount(items: seq<Item>): real {
    AmountFrom(items, 0)
  }

  /** The sum of the amounts from position `k` on. */
  function AmountFrom(items: seq<Item>, k: nat): real
    decreases |items| - k
  {
    if k >= |items| then 0.0 else items[k].amount + AmountFrom(items, k + 1)
  }

  /** The slice for the item at position `i`. */
  function SliceOf(item: Item, i: nat, total: real): (s: Slice)
    ensures s.name == item.category && s.value == item.amount
    ensures s.color == Colors[i % 4]
    ensures total != 0.0 ==> s.percentage.Ratio? && s.percentage.r * total == item.amount * 100.0
  {
    Slice(item.category, item.amount, Percent(item.amount, total), Colors[i % |Colors|])
  }

  /** `chartData`: one slice per item, in the items' order. */
  function ChartData(items: seq<Item>): (r: seq<Slice>)
    ensures |r| == |items|
    ensures forall i :: 0 <= i < |r| ==> r[i] == SliceOf(items[i], i, TotalAmount(items))
  {
    var total := TotalAmount(items);
    seq(|items|, i requires 0 <= i < |items| => SliceOf(items[i], i, total))
  }

  /** Slices four apart share a colour. */
  lemma ColorsRepeatEveryFour(items: seq<Item>, i: nat)
    requires i + 4 < |items|
    ensures ChartData(items)[i].color == ChartData(items)[i + 4].color
  {
    assert (i + 4) % 4 == i % 4;
  }

  /** Slices fewer than four apart have different colours. */
  lemma NearbyColorsDiffer(items: seq<Item>, i: nat, j: nat)
    requires i < j < |items| && j < i + 4
    ensures ChartData(items)[i].color != ChartData(items)[j].color
  {
    assert i % 4 != j % 4;
  }

  /** The sum of the slices' exact percentages (a slice without a finite share adds nothing). */
  function PercentSum(slices: seq<Slice>): real {
    PercentFrom(slices, 0)
  }

  /** The sum of the exact percentages from position `k` on. */
  function PercentFrom(slices: seq<Slice>, k: nat): real
    decreases |slices| - k
  {
    if k >= |slices| then 0.0
    else (if slices[k].percentage.Ratio? then slices[k].percentage.r else 0.0) + PercentFrom(slices, k + 1)
  }

  /** With a non-zero total every share is finite and the exact percentages add up to 100. */
  lemma PercentagesSumToHundred(items: seq<Item>)
    requires TotalAmount(items) != 0.0
    ensures forall i :: 0 <= i < |items| ==> ChartData(items)[i].percentage.Ratio?
    ensures PercentSum(ChartData(items)) == 100.0
  {
    var t := TotalAmount(items);
    var r := ChartData(items);
    ScaledSums(items, r, t, 0);
    ScaledSumIsHundred(PercentSum(r), t);
  }

  /** Slices built with a non-zero total `t` have percentages from `k` on adding up to the items' sum from `k` on scaled by `100 / t`. */
  lemma {:induction false} ScaledSums(items: seq<Item>, slices: seq<Slice>, t: real, k: nat)
    requires t != 0.0 && |slices| == |items|
    requires forall i :: 0 <= i < |slices| ==> slices[i] == SliceOf(items[i], i, t)
    ensures PercentFrom(slices, k) * t == AmountFrom(items, k) * 100.0
    decreases |items| - k
  {
    if k < |slices| {
      ScaledSums(items, slices, t, k + 1);
      var s := slices[k];
      assert s == SliceOf(items[k], k, t);
      ScaledSumStep(PercentFrom(slices, k + 1), s.percentage.r, t, AmountFrom(items, k + 1), items[k].amount);
    }
  }

  lemma ScaledSumStep(p: real, x: real, t: real, sum: real, a: real)
    requires p * t == sum * 100.0 && x * t == a * 100.0
    ensures (x + p) * t == (a + sum) * 100.0
  {
    assert (x + p) * t == x * t + p * t;
  }

  lemma ScaledSumIsHundred(p: real, t: real)
    requires t != 0.0 && p * t == t * 100.0
    ensures p == 100.0
  {
    assert (p - 100.0) * t == 0.0;
  }
}
