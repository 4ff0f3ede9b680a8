/** The distribution pie chart rule shared by components/enhanced-charts.tsx and
    components/visualization-charts.tsx: a category-to-count list (in the object's iteration
    order) becomes legend items with percentages, and pie slices whose start angle is the sum
    of the earlier slices' sweeps. Shares and angles are exact rationals (`real`). */
module PieGeometry {

  /** One `Object.entries` pair of the distribution: category and count. */
  type Entry = (string, nat)

  /** A division result as JavaScript yields it: a number, or NaN for 0/0. */
  datatype Share = Finite(value: real) | NaN

  /** One legend item of `chartData`. */
  datatype ChartItem = ChartItem(kind: string, count: nat, percentage: Share)

  /** One drawn sector: its category, its angles in degrees, the SVG large-arc flag and its fill. */
  datatype Slice = Slice(kind: string, startAngle: real, endAngle: real, largeArc: int, color: string)

  /** `Object.values(distribution).reduce((sum, val) => sum + val, 0)`: a left fold. */
  function Total(d: seq<Entry>): (t: nat)
    decreases |d|
  {
    if |d| == 0 then 0 else Total(d[..|d| - 1]) + d[|d| - 1].1
  }

  /** `count / total` for a positive total. */
  function Fraction(count: nat, total: nat): real
    requires total > 0
  {
    count as real / total as real
  }

  /** `(count / total) * 100` without the one-decimal formatting. */
  function Percent(count: nat, total: nat): (p: Share)
    ensures total == 0 <==> p.NaN?
    ensures total > 0 ==> p.value == Fraction(count, total) * 100.0
  {
    // counts are non-negative, so a zero total has only zero counts: 0 / 0 is NaN
    if total == 0 then NaN else Finite(Fraction(count, total) * 100.0)
  }

  /** `chartData`: one item per entry, in order, keeping category and count. */
  function ChartData(d: seq<Entry>): (items: seq<ChartItem>)
    ensures |items| == |d|
    ensures forall i :: 0 <= i < |d| ==>
              items[i].kind == d[i].0 && items[i].count == d[i].1
              && items[i].percentage == Percent(d[i].1, Total(d))
  {
    var total := Total(d);
    seq(|d|, i requires 0 <= i < |d| => ChartItem(d[i].0, d[i].1, Percent(d[i].1, total)))
  }

  /** The sweep of one slice in degrees: `(count / total) * 360`. */
  function Sweep(count: nat, total: nat): real
    requires total > 0
  {
    Fraction(count, total) * 360.0
  }

  /** `chartData.slice(0, i).reduce((sum, d) => sum + (d.count / total) * 360, 0)`. */
  function StartAngle(d: seq<Entry>, i: nat): real
    requires Total(d) > 0 && i <= |d|
  {
    if i == 0 then 0.0 else StartAngle(d, i - 1) + Sweep(d[i - 1].1, Total(d))
  }

  /** `startAngle + (item.count / total) * 360`. */
  function EndAngle(d: seq<Entry>, i: nat): real
    requires Total(d) > 0 && i < |d|
  {
    StartAngle(d, i) + Sweep(d[i].1, Total(d))
  }

  /** `endAngle - startAngle > 180 ? 1 : 0`. */
  function LargeArc(startAngle: real, endAngle: real): (flag: int)
    ensures flag == 1 || flag == 0
    ensures flag == 1 <==> endAngle - startAngle > 180.0
  {
    if endAngle - startAngle > 180.0 then 1 else 0
  }

  /** The slices drawn for a distribution with a positive total, coloured by index modulo the
      palette length. */
  function Slices(d: seq<Entry>, palette: seq<string>): (r: seq<Slice>)
    requires Total(d) > 0 && |palette| > 0
    ensures |r| == |d|
    ensures forall i :: 0 <= i < |d| ==>
              && r[i].kind == d[i].0
              && r[i].color == palette[i % |palette|]
              && (r[i].largeArc == 1 <==> r[i].endAngle - r[i].startAngle > 180.0)
              && r[i].startAngle == StartAngle(d, i)
              && r[i].endAngle == EndAngle(d, i)
              && r[i].endAngle == r[i].startAngle + Sweep(d[i].1, Total(d))
  {
    seq(|d|, i requires 0 <= i < |d| =>
      Slice(d[i].0, StartAngle(d, i), EndAngle(d, i), LargeArc(StartAngle(d, i), EndAngle(d, i)),
            palette[i % |palette|]))
  }

  /** The `<svg>` body: the slices when chartData is non-empty, nothing otherwise. A non-empty
      distribution with a zero total draws NaN geometry, which is outside this function. */
  function Pie(d: seq<Entry>, palette: seq<string>): (r: seq<Slice>)
    requires |d| == 0 || Total(d) > 0
    requires |palette| > 0
    ensures |r| > 0 <==> |ChartData(d)| > 0
    ensures |r| > 0 ==> r == Slices(d, palette)
  {
    if |ChartData(d)| > 0 then Slices(d, palette) else []
  }

  // ---------------------------------------------------------------------------------------
  // Exact geometry

  /** No count exceeds the total, and the total is zero exactly when every count is. */
  lemma {:induction false} TotalBounds(d: seq<Entry>)
    ensures forall i :: 0 <= i < |d| ==> d[i].1 <= Total(d)
    ensures Total(d) == 0 <==> forall i :: 0 <= i < |d| ==> d[i].1 == 0
    decreases |d|
  {
    if |d| > 0 {
      var init := d[..|d| - 1];
      TotalBounds(init);
      assert forall i :: 0 <= i < |init| ==> init[i] == d[i];
    }
  }

  /** The total of a prefix grows by the next count. */
  lemma TotalPrefix(d: seq<Entry>, i: nat)
    requires i < |d|
    ensures Total(d[..i + 1]) == Total(d[..i]) + d[i].1
  {
    assert d[..i + 1][..i] == d[..i];
  }

  /** Fractions of one total add up. */
  lemma FractionAdd(x: nat, c: nat, t: nat)
    requires t > 0
    ensures Fraction(x, t) + Fraction(c, t) == Fraction(x + c, t)
  {
  }

  /** Fractions of one total are ordered like their numerators. */
  lemma FractionMonotone(x: nat, y: nat, t: nat)
    requires t > 0 && x <= y
    ensures Fraction(x, t) <= Fraction(y, t)
  {
  }

  lemma FractionOfWhole(t: nat)
    requires t > 0
    ensures Fraction(t, t) == 1.0
  {
  }

  /** The cumulative start angle is the share of the earlier categories times 360. */
  lemma {:induction false} StartAngleIsShare(d: seq<Entry>, i: nat)
    requires Total(d) > 0 && i <= |d|
    ensures StartAngle(d, i) == Fraction(Total(d[..i]), Total(d)) * 360.0
  {
    if i == 0 {
      assert d[..0] == [];
    } else {
      StartAngleIsShare(d, i - 1);
      TotalPrefix(d, i - 1);
      FractionAdd(Total(d[..i - 1]), d[i - 1].1, Total(d));
    }
  }

  lemma TotalOfWhole(d: seq<Entry>)
    ensures Total(d[..|d|]) == Total(d)
  {
    assert d[..|d|] == d;
  }

  /** The slices tile [0, 360] without gaps or overlaps: the first starts at 0, each ends where
      the next starts, every sweep is non-negative, and the last ends at exactly 360. */
  lemma {:induction false} SlicesTile(d: seq<Entry>, palette: seq<string>)
    requires Total(d) > 0 && |palette| > 0
    ensures var r := Slices(d, palette);
            && |r| > 0
            && r[0].startAngle == 0.0
            && (forall i :: 0 <= i < |r| - 1 ==> r[i].endAngle == r[i + 1].startAngle)
            && (forall i :: 0 <= i < |r| ==> 0.0 <= r[i].startAngle <= r[i].endAngle <= 360.0)
            && r[|r| - 1].endAngle == 360.0
  {
    var r := Slices(d, palette);
    assert |d| > 0;
    forall i | 0 <= i < |r|
      ensures 0.0 <= r[i].startAngle <= r[i].endAngle <= 360.0
    {
      SliceWithinCircle(d, i);
    }
    StartAngleIsShare(d, |d|);
    TotalOfWhole(d);
    FractionOfWhole(Total(d));
  }

  /** What the `<svg>` body draws: nothing for no entries; otherwise one slice per entry, in
      order and cycling through the palette, that together tile [0, 360]. */
  lemma PieTiles(d: seq<Entry>, palette: seq<string>)
    requires |d| == 0 || Total(d) > 0
    requires |palette| > 0
    ensures var r := Pie(d, palette);
            && |r| == |d|
            && (forall i :: 0 <= i < |r| ==> r[i].kind == d[i].0 && r[i].color == palette[i % |palette|])
            && (forall i :: 0 <= i < |r| ==> (r[i].largeArc == 1 <==> r[i].endAngle - r[i].startAngle > 180.0))
            && (forall i :: 0 <= i < |r| ==> 0.0 <= r[i].startAngle <= r[i].endAngle <= 360.0)
            && (forall i :: 0 <= i < |r| - 1 ==> r[i].endAngle == r[i + 1].startAngle)
            && (|r| > 0 ==> r[0].startAngle == 0.0 && r[|r| - 1].endAngle == 360.0)
  {
    if |d| > 0 {
      SlicesTile(d, palette);
    }
  }

  /** Slice i starts no earlier than 0, ends where slice i + 1 starts, and ends by 360. */
  lemma SliceWithinCircle(d: seq<Entry>, i: nat)
    requires Total(d) > 0 && i < |d|
    ensures 0.0 <= StartAngle(d, i) <= EndAngle(d, i) <= 360.0
    ensures EndAngle(d, i) == StartAngle(d, i + 1)
  {
    var t := Total(d);
    var x, y := Total(d[..i]), Total(d[..i + 1]);
    StartAngleIsShare(d, i);
    StartAngleIsShare(d, i + 1);
    assert EndAngle(d, i) == StartAngle(d, i + 1);
    PrefixTotalBound(d, i + 1);
    TotalPrefix(d, i);
    assert x <= y <= t;
    FractionMonotone(0, x, t);
    FractionMonotone(x, y, t);
    FractionMonotone(y, t, t);
    FractionOfWhole(t);
    FractionZero(t);
  }

  lemma FractionZero(t: nat)
    requires t > 0
    ensures Fraction(0, t) == 0.0
  {
  }

  /** A prefix never totals more than the whole. */
  lemma {:induction false} PrefixTotalBound(d: seq<Entry>, i: nat)
    requires i <= |d|
    ensures Total(d[..i]) <= Total(d)
    decreases |d| - i
  {
    if i == |d| {
      TotalOfWhole(d);
    } else {
      TotalPrefix(d, i);
      PrefixTotalBound(d, i + 1);
    }
  }

  // ---------------------------------------------------------------------------------------
  // Percentages

  /** The sum of the legend percentages, for items whose percentages are numbers. */
  function PercentTotal(items: seq<ChartItem>): real
    requires forall i :: 0 <= i < |items| ==> items[i].percentage.Finite?
  {
    if |items| == 0 then 0.0 else PercentTotal(items[..|items| - 1]) + items[|items| - 1].percentage.value
  }

  /** With a positive total every percentage is a number. */
  lemma PercentagesFinite(d: seq<Entry>)
    requires Total(d) > 0
    ensures forall i :: 0 <= i < |d| ==> ChartData(d)[i].percentage.Finite?
  {
  }

  /** With a positive total, the unformatted percentages sum to exactly 100. */
  lemma {:induction false} PercentagesSumTo100(d: seq<Entry>)
    requires Total(d) > 0
    ensures forall i :: 0 <= i < |d| ==> ChartData(d)[i].percentage.Finite?
    ensures PercentTotal(ChartData(d)) == 100.0
  {
    var items := ChartData(d);
    PercentagesFinite(d);
    PercentPrefix(d, items, Total(d), |d|);
    assert items[..|d|] == items;
    TotalOfWhole(d);
    FractionOfWhole(Total(d));
  }

  /** The percentages of the first `i` items add up to the share of the first `i` counts. */
  lemma {:induction false} PercentPrefix(d: seq<Entry>, items: seq<ChartItem>, t: nat, i: nat)
    requires t > 0 && |items| == |d| && i <= |d|
    requires forall j :: 0 <= j < |d| ==> items[j].percentage == Finite(Fraction(d[j].1, t) * 100.0)
    ensures PercentTotal(items[..i]) == Fraction(Total(d[..i]), t) * 100.0
  {
    if i == 0 {
      assert items[..0] == [];
      assert d[..0] == [];
    } else {
      PercentPrefix(d, items, t, i - 1);
      TotalPrefix(d, i - 1);
      PercentTotalLast(items, i);
      var before, c := Total(d[..i - 1]), d[i - 1].1;
      ScaledAdd(before, c, t);
      assert items[i - 1].percentage.value == Fraction(c, t) * 100.0;
      assert Total(d[..i]) == before + c;
    }
  }

  /** Unfolding the sum of a prefix once. */
  lemma PercentTotalLast(items: seq<ChartItem>, i: nat)
    requires 0 < i <= |items|
    requires forall j :: 0 <= j < |items| ==> items[j].percentage.Finite?
    ensures PercentTotal(items[..i]) == PercentTotal(items[..i - 1]) + items[i - 1].percentage.value
  {
    assert items[..i][..i - 1] == items[..i - 1];
  }

  lemma ScaledAdd(x: nat, c: nat, t: nat)
    requires t > 0
    ensures Fraction(x, t) * 100.0 + Fraction(c, t) * 100.0 == Fraction(x + c, t) * 100.0
  {
    FractionAdd(x, c, t);
  }

  // ---------------------------------------------------------------------------------------
  // Rendering condition, as written

  /** The pie is drawn iff chartData is non-empty (`chartData.length > 0`), even when every
      count is zero; the percentages are then all NaN. */
  lemma ZeroTotalStillDrawn()
    ensures var d: seq<Entry> := [("Pump", 0)];
            Total(d) == 0 && |ChartData(d)| > 0 && ChartData(d)[0].percentage == NaN
  {
    var d: seq<Entry> := [("Pump", 0)];
    assert d[..0] == [];
  }

  /** A single category spans the whole circle with the large-arc flag set. */
  lemma SingleCategoryIsFullCircle(kind: string, count: nat, palette: seq<string>)
    requires count > 0 && |palette| > 0
    ensures var r := Slices([(kind, count)], palette);
            |r| == 1 && r[0].startAngle == 0.0 && r[0].endAngle == 360.0 && r[0].largeArc == 1
  {
    var d: seq<Entry> := [(kind, count)];
    assert d[..0] == [];
    assert Total(d) == count;
    assert Fraction(count, count) == 1.0;
    assert StartAngle(d, 0) == 0.0;
    assert EndAngle(d, 0) == 360.0;
  }
}
