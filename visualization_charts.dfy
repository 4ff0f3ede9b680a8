/** components/visualization-charts.tsx: the same pie and legend rules as the enhanced chart,
    with a five-colour palette. */
module VisualizationCharts {
  import opened Wrappers
  import opened PieGeometry

  const Colors: seq<string> := ["#8366d9", "#3b82f6", "#06b6d4", "#10b981", "#f59e0b"]

  /** The legend for `session.equipment_distribution || {}`: one item per entry, in order,
      with percentages summing to 100 when the total is positive. */
  function Legend(equipmentDistribution: Option<seq<Entry>>): (items: seq<ChartItem>)
    ensures var d := equipmentDistribution.GetOr([]);
            && (equipmentDistribution.None? ==> items == [])
            && |items| == |d|
            && (forall i :: 0 <= i < |d| ==> items[i].kind == d[i].0 && items[i].count == d[i].1)
            && (Total(d) > 0 ==> (forall i :: 0 <= i < |d| ==> items[i].percentage.Finite?)
                                 && PercentTotal(items) == 100.0)
  {
    var d := equipmentDistribution.GetOr([]);
    if Total(d) > 0 then PercentagesSumTo100(d); ChartData(d) else ChartData(d)
  }

  /** The drawn pie: nothing for an empty distribution; otherwise one slice per entry whose
      start is the cumulative sweep of the earlier ones, tiling [0, 360], coloured
      `colors[idx % 5]`. */
  function PieSlices(equipmentDistribution: Option<seq<Entry>>): (r: seq<Slice>)
    requires var d := equipmentDistribution.GetOr([]); |d| == 0 || Total(d) > 0
    ensures var d := equipmentDistribution.GetOr([]);
            && |r| == |d|
            && (forall i :: 0 <= i < |r| ==> r[i].kind == d[i].0 && r[i].color == Colors[i % 5])
            && (forall i :: 0 <= i < |r| ==> (r[i].largeArc == 1 <==> r[i].endAngle - r[i].startAngle > 180.0))
            && (forall i :: 0 <= i < |r| ==> 0.0 <= r[i].startAngle <= r[i].endAngle <= 360.0)
            && (forall i :: 0 <= i < |r| - 1 ==> r[i].endAngle == r[i + 1].startAngle)
            && (|r| > 0 ==> r[0].startAngle == 0.0 && r[|r| - 1].endAngle == 360.0)
  {
    var d := equipmentDistribution.GetOr([]);
    PieTiles(d, Colors);
    Pie(d, Colors)
  }

  /** Each slice starts at the earlier categories' share of the total times 360 and sweeps its
      own share times 360. */
  lemma CumulativeAngles(d: seq<Entry>)
    requires Total(d) > 0
    ensures var r := PieSlices(Some(d));
            forall i :: 0 <= i < |r| ==>
              && r[i].startAngle == Fraction(Total(d[..i]), Total(d)) * 360.0
              && r[i].endAngle == r[i].startAngle + Fraction(d[i].1, Total(d)) * 360.0
  {
    var r := PieSlices(Some(d));
    forall i | 0 <= i < |r|
      ensures r[i].startAngle == Fraction(Total(d[..i]), Total(d)) * 360.0
      ensures r[i].endAngle == r[i].startAngle + Fraction(d[i].1, Total(d)) * 360.0
    {
      StartAngleIsShare(d, i);
    }
  }

  /** The example of a 3:1 distribution: the first slice sweeps 0 to 270, the second 270 to
      360, with percentages 75 and 25. */
  lemma ThreeToOne()
    ensures var d: seq<Entry> := [("A", 3), ("B", 1)];
            var r := PieSlices(Some(d));
            var items := Legend(Some(d));
            && r[0].startAngle == 0.0 && r[0].endAngle == 270.0 && r[0].largeArc == 1
            && r[1].startAngle == 270.0 && r[1].endAngle == 360.0 && r[1].largeArc == 0
            && items[0].percentage == Finite(75.0) && items[1].percentage == Finite(25.0)
  {
    var d: seq<Entry> := [("A", 3), ("B", 1)];
    assert d[..1] == [("A", 3)];
    assert d[..1][..0] == [];
    assert Total(d) == 4;
  }
}
