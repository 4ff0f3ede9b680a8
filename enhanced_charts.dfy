/** components/enhanced-charts.tsx: the distribution pie with a six-colour palette, its legend,
    and the parameter bar chart whose bar widths are relative to the largest value. */
module EnhancedCharts {
  import opened Wrappers
  import opened PieGeometry

  const Colors: seq<string> := ["#8366d9", "#3b82f6", "#06b6d4", "#10b981", "#f59e0b", "#ef4444"]

  /** `session.equipment_distribution || {}`: a missing distribution is empty. */
  function Distribution(equipmentDistribution: Option<seq<Entry>>): (d: seq<Entry>)
    ensures equipmentDistribution.None? ==> d == []
    ensures equipmentDistribution.Some? ==> d == equipmentDistribution.value
  {
    equipmentDistribution.GetOr([])
  }

  /** The legend: one item per entry, in order; with a positive total the unformatted
      percentages sum to 100. */
  function Legend(equipmentDistribution: Option<seq<Entry>>): (items: seq<ChartItem>)
    ensures var d := Distribution(equipmentDistribution);
            && |items| == |d|
            && (forall i :: 0 <= i < |d| ==> items[i].kind == d[i].0 && items[i].count == d[i].1)
            && (Total(d) > 0 ==> (forall i :: 0 <= i < |d| ==> items[i].percentage.Finite?)
                                 && PercentTotal(items) == 100.0)
  {
    var d := Distribution(equipmentDistribution);
    if Total(d) > 0 then PercentagesSumTo100(d); ChartData(d) else ChartData(d)
  }

  /** The drawn pie: nothing for an empty distribution; otherwise one slice per entry, tiling
      [0, 360] in order, coloured `colors[idx % 6]`. */
  function PieSlices(equipmentDistribution: Option<seq<Entry>>): (r: seq<Slice>)
    requires var d := Distribution(equipmentDistribution); |d| == 0 || Total(d) > 0
    ensures var d := Distribution(equipmentDistribution);
            && |r| == |d|
            && (forall i :: 0 <= i < |r| ==> r[i].kind == d[i].0 && r[i].color == Colors[i % 6])
            && (forall i :: 0 <= i < |r| ==> (r[i].largeArc == 1 <==> r[i].endAngle - r[i].startAngle > 180.0))
            && (forall i :: 0 <= i < |r| ==> 0.0 <= r[i].startAngle <= r[i].endAngle <= 360.0)
            && (forall i :: 0 <= i < |r| - 1 ==> r[i].endAngle == r[i + 1].startAngle)
            && (|r| > 0 ==> r[0].startAngle == 0.0 && r[|r| - 1].endAngle == 360.0)
  {
    var d := Distribution(equipmentDistribution);
    PieTiles(d, Colors);
    Pie(d, Colors)
  }

  /** One bar of the parameter chart (`caption` is the source's `label`). */
  datatype Bar = Bar(caption: string, value: int)

  /** The fixed `trendData` list. */
  const TrendData: seq<Bar> := [Bar("Min", 20), Bar("Q1", 45), Bar("Median", 65), Bar("Q3", 80), Bar("Max", 95)]

  /** `Math.max(...bars.map((d) => d.value))` for a non-empty list. */
  function MaxValue(bars: seq<Bar>): (m: int)
    requires |bars| > 0
    ensures forall i :: 0 <= i < |bars| ==> bars[i].value <= m
    ensures exists i :: 0 <= i < |bars| && bars[i].value == m
  {
    if |bars| == 1 then bars[0].value
    else
      var rest := MaxValue(bars[1..]);
      assert forall i :: 1 <= i < |bars| ==> bars[i].value == bars[1..][i - 1].value;
      if bars[0].value >= rest then bars[0].value else rest
  }

  /** `(item.value / maxValue) * 100`. */
  function BarWidth(value: int, maxValue: int): real
    requires maxValue > 0
  {
    (value as real / maxValue as real) * 100.0
  }

  /** For positive values every width lies in (0, 100], and a bar is exactly 100 wide iff its
      value is the maximum. */
  lemma BarWidthsBounded(bars: seq<Bar>)
    requires |bars| > 0 && forall i :: 0 <= i < |bars| ==> bars[i].value > 0
    ensures var m := MaxValue(bars);
            m > 0
            && (forall i :: 0 <= i < |bars| ==> 0.0 < BarWidth(bars[i].value, m) <= 100.0)
            && (forall i :: 0 <= i < |bars| ==> (BarWidth(bars[i].value, m) == 100.0 <==> bars[i].value == m))
  {
    var m := MaxValue(bars);
    forall i | 0 <= i < |bars|
      ensures 0.0 < BarWidth(bars[i].value, m) <= 100.0
      ensures BarWidth(bars[i].value, m) == 100.0 <==> bars[i].value == m
    {
      RatioBounds(bars[i].value, m);
    }
  }

  lemma RatioBounds(v: int, m: int)
    requires 0 < v <= m
    ensures 0.0 < BarWidth(v, m) <= 100.0
    ensures BarWidth(v, m) == 100.0 <==> v == m
  {
    var q := v as real / m as real;
    assert q * (m as real) == v as real;
    if q == 1.0 { assert v as real == m as real; }
  }

  /** The fixed trend list: the maximum is 95, the "Max" bar is full width and "Min" is 20/95. */
  lemma TrendBars()
    ensures MaxValue(TrendData) == 95
    ensures BarWidth(TrendData[4].value, MaxValue(TrendData)) == 100.0
    ensures BarWidth(TrendData[0].value, MaxValue(TrendData)) == 2000.0 / 95.0
  {
  }
}
