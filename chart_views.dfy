/**
 * `CategoryPieChart`: the chart accepts both `[name, value]` pairs and objects with an `amount` or
 * a `value` (the server's `{name, amount}` categories), turns each into a named slice, and colours slice i with the (i mod 8)-th
 * entry of a fixed palette.
 */
module ChartViews {
  import opened Wrappers
  import opened Sums
  import opened Categories

  /** One input item: a `[name, value]` pair, or an object whose `amount` and `value` may be absent. */
  datatype ChartItem = Pair(name: string, number: real) | Entry(name: string, amount: Option<real>, value: Option<real>)

  datatype Slice = Slice(name: string, value: real, color: string)

  const Palette: seq<string> := ["#3b82f6", "#10b981", "#f59e0b", "#ef4444", "#8b5cf6", "#ec4899", "#14b8a6", "#f97316"]

  /** A pair keeps its value; an object takes `amount || value || 0`, so an amount of 0 falls back to `value`. */
  function SliceValue(item: ChartItem): (v: real)
    ensures item.Pair? ==> v == item.number
    ensures item.Entry? && item.amount.Some? && item.amount.value != 0.0 ==> v == item.amount.value
    ensures item.Entry? && (item.amount.None? || item.amount.value == 0.0) ==> v == item.value.GetOr(0.0)
  {
    match item
    case Pair(_, v) => v
    case Entry(_, amount, value) =>
      if amount.Some? && amount.value != 0.0 then amount.value
      else if value.Some? && value.value != 0.0 then value.value
      else 0.0
  }

  /** The chart's slices; an empty input shows only "No data available" and no chart. */
  function ChartData(data: seq<ChartItem>): (r: Option<seq<Slice>>)
    ensures r.None? <==> data == []
    ensures r.Some? ==> |r.value| == |data|
    ensures r.Some? ==> forall i :: 0 <= i < |data| ==>
      r.value[i].name == data[i].name && r.value[i].value == SliceValue(data[i]) && r.value[i].color == Palette[i % 8]
  {
    if data == [] then None
    else Some(seq(|data|, i requires 0 <= i < |data| => Slice(data[i].name, SliceValue(data[i]), Palette[i % |Palette|])))
  }

  /** Neighbouring slices never share a colour, and the colours repeat every eight slices. */
  lemma SliceColors(data: seq<ChartItem>, i: int)
    requires data != [] && 0 <= i < |data|
    ensures var s := ChartData(data).value;
      (i + 1 < |data| ==> s[i].color != s[i + 1].color)
      && (i + 8 < |data| ==> s[i].color == s[i + 8].color)
  {
    var s := ChartData(data).value;
    if i + 1 < |data| {
      assert (i + 1) % 8 == (if i % 8 == 7 then 0 else i % 8 + 1);
    }
    if i + 8 < |data| {
      assert (i + 8) % 8 == i % 8;
    }
  }

  function SliceAmount(s: Slice): real { s.value }

  /** Category totals as `List[tuple]` serialises them: `[name, amount]` arrays, which the chart reads as pairs. */
  function AsPairs(cats: seq<CategoryAmount>): (r: seq<ChartItem>)
    ensures |r| == |cats|
    ensures forall i :: 0 <= i < |cats| ==> r[i].Pair? && r[i].name == cats[i].name
    ensures forall i :: 0 <= i < |cats| ==> SliceValue(r[i]) == cats[i].amount
  {
    seq(|cats|, i requires 0 <= i < |cats| => Pair(cats[i].name, cats[i].amount))
  }

  /** Charting category totals sent as pairs keeps every name and amount, so the slices add up to the categories' total. */
  lemma ChartOfTopCategories(cats: seq<CategoryAmount>)
    requires cats != []
    ensures var s := ChartData(AsPairs(cats)).value;
      (forall i :: 0 <= i < |cats| ==> s[i].name == cats[i].name && s[i].value == cats[i].amount)
      && Sum(s, SliceAmount) == Total(cats)
  {
    var s := ChartData(AsPairs(cats)).value;
    SumPointwise(s, SliceAmount, cats, AmountOf);
    TotalIsSum(cats);
  }
}
