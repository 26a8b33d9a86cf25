/**
 * The comparison bar charts: one panel per family (valorised waste, energy
 * generated, total revenue), each with two bars in the order baseline then
 * projection, a y-axis from 0 to 1.15 times the taller bar (never below a
 * family floor), and a label above each bar. The combined figure holds the
 * three panels; each family is also exported on its own under a fixed file
 * name.
 *
 * Bar values are whole numbers in the family's unit: hundredths of a ton
 * for waste, kWh for energy, CLP for revenue. Heights and axis limits are
 * exact reals.
 */
module Charts {
  import opened Sliders
  import opened Indicators
  import opened NumberFormat

  datatype Family = Waste | Energy | Revenue

  /** The x-axis categories, left to right. */
  const Categories: seq<string> := ["Línea Base", "Proyección"]

  /** How many bar-value units make one unit of height. */
  function Scale(f: Family): (s: int)
    ensures s > 0
  {
    match f
    case Waste => 100
    case Energy => 1
    case Revenue => 1
  }

  /** The smallest y-axis top a family's panel can have. */
  function AxisFloor(f: Family): (r: real)
    ensures r > 0.0
  {
    match f
    case Waste => 1.0
    case Energy => 1000.0
    case Revenue => 1000000.0
  }

  /** The baseline bar of a family. */
  function Baseline(f: Family): int
  {
    match f
    case Waste => 100 * BaseWasteValorized
    case Energy => BaseEnergyGenerated
    case Revenue => BaseTotalRevenue
  }

  /** The projected bar of a family: the energy slider itself, or an indicator. */
  function Projected(f: Family, p: Params): int
  {
    match f
    case Waste => Compute(p).wasteValorized
    case Energy => p.energyGenerated
    case Revenue => Compute(p).totalRevenue
  }

  /** The bar values of a family's panel. */
  function BarValues(f: Family, p: Params): seq<int>
  {
    [Baseline(f), Projected(f, p)]
  }

  function Height(f: Family, v: int): real
  {
    v as real / Scale(f) as real
  }

  /** A bar of height h stands for v units of its family. */
  predicate Depicts(f: Family, h: real, v: int)
  {
    h * Scale(f) as real == v as real
  }

  /** A bar drawn at Height(f, v) stands for exactly v units of its family. */
  lemma HeightScale(f: Family, v: int)
    ensures Depicts(f, Height(f, v), v)
  {
  }

  /** The largest of a non-empty list of values. */
  function MaxOf(values: seq<int>): (m: int)
    requires |values| > 0
    ensures m in values
    ensures forall i :: 0 <= i < |values| ==> values[i] <= m
  {
    if |values| == 1 then values[0]
    else
      var rest := MaxOf(values[1..]);
      if values[0] >= rest then values[0] else rest
  }

  /**
   * The top of the y-axis: 1.15 times the tallest bar, or the family floor
   * when that is larger. It is the least value with both properties.
   */
  function YTop(f: Family, values: seq<int>): (top: real)
    requires |values| > 0
    ensures top >= AxisFloor(f) && top > 0.0
    ensures forall i :: 0 <= i < |values| ==> top >= 1.15 * Height(f, values[i])
    ensures top == AxisFloor(f) || exists i :: 0 <= i < |values| && top == 1.15 * Height(f, values[i])
  {
    var m := MaxOf(values);
    var headroom := Height(f, m) * 1.15;
    assert forall i :: 0 <= i < |values| ==> Height(f, values[i]) <= Height(f, m);
    if AxisFloor(f) > headroom then AxisFloor(f) else headroom
  }

  /**
   * The format of a bar label: ",.2f" for tons, ",.0f" for kWh, "CLP " then
   * ",.0f" for pesos; in each, the number carries a '-' exactly when v is
   * negative.
   */
  predicate LabelFormat(f: Family, s: string, v: int)
  {
    match f
    case Waste => IsFixedTwoLabel(s) && (s[0] == '-' <==> v < 0)
    case Energy => IsWholeLabel(s) && (s[0] == '-' <==> v < 0)
    case Revenue => |s| >= 5 && s[..4] == "CLP " && IsWholeLabel(s[4..]) && (s[4] == '-' <==> v < 0)
  }

  /** The text drawn above a bar: ",.2f" tons, ",.0f" kWh, "CLP ,.0f" pesos. */
  function Label(f: Family, v: int): (s: string)
    ensures f == Waste ==> |s| >= 4 && s[|s| - 3] == '.' && IsDigit(s[|s| - 2]) && IsDigit(s[|s| - 1])
    ensures f == Revenue ==> |s| >= 5 && s[..4] == "CLP "
  {
    match f
    case Waste => FixedTwo(v)
    case Energy => WholeGrouped(v)
    case Revenue => "CLP " + WholeGrouped(v)
  }

  /** The bar value a label shows, in the family's unit. */
  function ReadLabel(f: Family, s: string): int
  {
    match f
    case Waste => ReadSigned(s)
    case Energy => ReadSigned(s)
    case Revenue => if |s| >= 4 && s[..4] == "CLP " then ReadSigned(s[4..]) else 0
  }

  /** The label s, read in family f's format, shows the value v. */
  predicate Shows(f: Family, s: string, v: int)
  {
    ReadLabel(f, s) == v
  }

  /** Every label reads back as its bar's value, so different bars never show the same label. */
  lemma LabelRoundTrip(f: Family, v: int)
    ensures ReadLabel(f, Label(f, v)) == v
  {
    match f
    case Waste => FixedTwoRoundTrip(v);
    case Energy => WholeGroupedRoundTrip(v);
    case Revenue =>
      assert ("CLP " + WholeGrouped(v))[4..] == WholeGrouped(v);
      WholeGroupedRoundTrip(v);
  }

  /** Every label has its family's format, with the sign of its value. */
  lemma LabelHasFormat(f: Family, v: int)
    ensures LabelFormat(f, Label(f, v), v)
  {
    match f
    case Waste => FixedTwoShape(v);
    case Energy =>
    case Revenue =>
      assert ("CLP " + WholeGrouped(v))[4..] == WholeGrouped(v);
  }

  /**
   * The format contracts of Label pin the label down: a text of the family's
   * shape, with the value's sign, that reads as v is Label(f, v) itself.
   */
  lemma LabelUnique(f: Family, s: string, v: int)
    requires LabelFormat(f, s, v)
    requires ReadLabel(f, s) == v
    ensures s == Label(f, v)
  {
    match f
    case Waste => FixedTwoUnique(s, v);
    case Energy => WholeGroupedUnique(s, v);
    case Revenue =>
      WholeGroupedUnique(s[4..], v);
      assert s == s[..4] + s[4..];
  }

  /** One drawn panel: its categories, bar values and heights, y-axis limits and bar labels. */
  datatype Chart = Chart(
    family: Family,
    categories: seq<string>,
    values: seq<int>,
    heights: seq<real>,
    yBottom: real,
    yTop: real,
    labels: seq<string>)

  /**
   * A panel of the combined figure drawn from its bar values: one bar per
   * value, the y-axis from 0 to YTop, and above each bar the label of the
   * height drawn.
   */
  function BarChart(f: Family, values: seq<int>): (c: Chart)
    requires |values| > 0
    ensures c.family == f && c.categories == Categories && c.values == values
    ensures c.yBottom == 0.0 && c.yTop == YTop(f, values)
    ensures |c.heights| == |c.labels| == |values|
    ensures forall i :: 0 <= i < |values| ==> Depicts(f, c.heights[i], values[i])
  {
    HeightsDepict(f, values);
    var heights := seq(|values|, i requires 0 <= i < |values| => Height(f, values[i]));
    var labels := seq(|values|, i requires 0 <= i < |values| => Label(f, values[i]));
    Chart(f, Categories, values, heights, 0.0, YTop(f, values), labels)
  }

  /** Every bar of a list is drawn at the height that stands for its value. */
  lemma HeightsDepict(f: Family, values: seq<int>)
    ensures forall i :: 0 <= i < |values| ==> Depicts(f, Height(f, values[i]), values[i])
  {
    forall i | 0 <= i < |values| {
      HeightScale(f, values[i]);
    }
  }

  /** Every label of a chart reads back as the value of its bar. */
  lemma LabelsShowValues(f: Family, values: seq<int>)
    requires |values| > 0
    ensures forall i :: 0 <= i < |values| ==> Shows(f, BarChart(f, values).labels[i], values[i])
  {
    var c := BarChart(f, values);
    forall i | 0 <= i < |values|
      ensures Shows(f, c.labels[i], values[i])
    {
      assert c.labels[i] == Label(f, values[i]);
      LabelRoundTrip(f, values[i]);
    }
  }

  /** A family's panel for the current parameters. */
  function Panel(f: Family, p: Params): (c: Chart)
    ensures c.family == f && c.values == BarValues(f, p)
  {
    BarChart(f, BarValues(f, p))
  }

  /** The combined figure: waste, energy and revenue panels side by side, each family in its own place. */
  function CombinedFigure(p: Params): (fig: seq<Chart>)
    ensures |fig| == 3
    ensures fig[0].family == Waste && fig[1].family == Energy && fig[2].family == Revenue
  {
    [Panel(Waste, p), Panel(Energy, p), Panel(Revenue, p)]
  }

  /** Where a family's panel sits in the combined figure. */
  function PanelIndex(f: Family): (k: nat)
    ensures k < 3
  {
    match f
    case Waste => 0
    case Energy => 1
    case Revenue => 2
  }

  /** The stem of a family's export file. */
  function FileStem(f: Family): string
  {
    match f
    case Waste => "Residuos_Valorizados"
    case Energy => "Energia_Generada"
    case Revenue => "Ingresos_Totales"
  }

  /** The file name a download offers for a figure exported under a given stem. */
  function DownloadFileName(stem: string): (name: string)
    ensures |name| == |stem| + 4 && name[..|stem|] == stem && name[|stem|..] == ".png"
  {
    stem + ".png"
  }

  /** A standalone export: the file name offered and the chart it holds (PNG encoding is not modelled). */
  datatype Export = Export(fileName: string, chart: Chart)

  /** The file name a family's standalone figure is offered under: its stem with the ".png" extension. */
  function ExportFileName(f: Family): (name: string)
    ensures |name| > 4 && name[|name| - 4..] == ".png"
  {
    DownloadFileName(FileStem(f))
  }

  /** The y-axis floor of a standalone figure, as its own axis-limit call gives it. */
  function ExportAxisFloor(f: Family): (r: real)
    ensures r > 0.0
  {
    match f
    case Waste => 1.0
    case Energy => 1000.0
    case Revenue => 1000000.0
  }

  /** The bar label of a standalone figure, as its own text call formats it. */
  function ExportLabel(f: Family, v: int): string
  {
    match f
    case Waste => FixedTwo(v)
    case Energy => WholeGrouped(v)
    case Revenue => "CLP " + WholeGrouped(v)
  }

  /**
   * The chart of a standalone figure, drawn from the combined figure's bar
   * values: it reuses their tallest bar, but sets its own axis floor and
   * formats its own labels.
   */
  function ExportChart(f: Family, values: seq<int>): (c: Chart)
    requires |values| > 0
    ensures c.family == f && c.values == values && |c.labels| == |values|
  {
    var headroom := Height(f, MaxOf(values)) * 1.15;
    var top := if ExportAxisFloor(f) > headroom then ExportAxisFloor(f) else headroom;
    var heights := seq(|values|, i requires 0 <= i < |values| => Height(f, values[i]));
    var labels := seq(|values|, i requires 0 <= i < |values| => ExportLabel(f, values[i]));
    Chart(f, Categories, values, heights, 0.0, top, labels)
  }

  /** The standalone figure for one family, as offered for download. */
  function StandaloneExport(f: Family, p: Params): (e: Export)
    ensures e.fileName == ExportFileName(f)
    ensures e.chart.family == f && e.chart.values == BarValues(f, p)
  {
    Export(ExportFileName(f), ExportChart(f, BarValues(f, p)))
  }

  /**
   * Every panel has two bars, baseline first, labelled "Línea Base" and
   * "Proyección"; the y-axis starts at 0 and its top clears 1.15 times each
   * bar and the family floor, so it is positive even when both bars are 0;
   * each label reads back as its bar's value.
   */
  lemma PanelLayout(f: Family, p: Params)
    ensures Panel(f, p).values == [Baseline(f), Projected(f, p)]
    ensures Panel(f, p).categories == ["Línea Base", "Proyección"]
    ensures Panel(f, p).yBottom == 0.0
    ensures Panel(f, p).yTop >= AxisFloor(f) && Panel(f, p).yTop > 0.0
    ensures forall i :: 0 <= i < 2 ==> Panel(f, p).yTop >= 1.15 * Panel(f, p).heights[i]
    ensures forall i :: 0 <= i < 2 ==> ReadLabel(f, Panel(f, p).labels[i]) == Panel(f, p).values[i]
  {
    var a, b := Baseline(f), Projected(f, p);
    assert Panel(f, p) == BarChart(f, [a, b]);
    TwoBars(f, a, b);
    LabelRoundTrip(f, a);
    LabelRoundTrip(f, b);
  }

  /** A chart of two bars: their heights and labels, in order. */
  lemma TwoBars(f: Family, a: int, b: int)
    ensures BarChart(f, [a, b]).heights == [Height(f, a), Height(f, b)]
    ensures BarChart(f, [a, b]).labels == [Label(f, a), Label(f, b)]
  {
    TwoBarHeights(f, a, b);
    TwoBarLabels(f, a, b);
  }

  lemma TwoBarHeights(f: Family, a: int, b: int)
    ensures BarChart(f, [a, b]).heights == [Height(f, a), Height(f, b)]
  {
    var c := BarChart(f, [a, b]);
    assert c.heights[0] == Height(f, a) && c.heights[1] == Height(f, b);
  }

  lemma TwoBarLabels(f: Family, a: int, b: int)
    ensures BarChart(f, [a, b]).labels == [Label(f, a), Label(f, b)]
  {
    var c := BarChart(f, [a, b]);
    assert c.labels[0] == Label(f, a) && c.labels[1] == Label(f, b);
  }

  /** With both bars at 0 the axis top is exactly the family floor. */
  lemma ZeroBarsUseFloor(f: Family)
    ensures YTop(f, [0, 0]) == AxisFloor(f)
  {
  }

  /**
   * For every parameter set the floor never decides a panel's axis, because
   * each baseline bar alone clears its floor: the top is exactly 1.15 times
   * the taller of the two bars.
   */
  lemma FloorNeverDecides(f: Family, p: Params)
    ensures Panel(f, p).yTop == 1.15 * Height(f, MaxOf(BarValues(f, p)))
  {
    assert Panel(f, p).yTop == YTop(f, BarValues(f, p));
    BaselineClearsFloor(f, BarValues(f, p));
  }

  /** A list of bars that starts with the family's baseline has its top at 1.15 times the tallest bar. */
  lemma BaselineClearsFloor(f: Family, values: seq<int>)
    requires |values| > 0 && values[0] == Baseline(f)
    ensures YTop(f, values) == 1.15 * Height(f, MaxOf(values))
  {
    HeightClearsFloor(f, MaxOf(values));
  }

  /** A bar at least as tall as the family's baseline, times 1.15, is above the family floor. */
  lemma HeightClearsFloor(f: Family, m: int)
    requires m >= Baseline(f)
    ensures Height(f, m) * 1.15 > AxisFloor(f)
  {
    match f
    case Waste => assert Height(f, m) == m as real / 100.0;
    case Energy => assert Height(f, m) == m as real;
    case Revenue => assert Height(f, m) == m as real;
  }

  /** Each standalone export draws exactly the panel of the combined figure, under its family's file name. */
  lemma ExportMatchesPanel(f: Family, p: Params)
    ensures StandaloneExport(f, p) == Export(ExportFileName(f), CombinedFigure(p)[PanelIndex(f)])
  {
    ExportChartIsBarChart(f, BarValues(f, p));
    PanelPlace(f, p);
  }

  /** A family's panel sits at its index in the combined figure. */
  lemma PanelPlace(f: Family, p: Params)
    ensures CombinedFigure(p)[PanelIndex(f)] == Panel(f, p)
  {
  }

  /**
   * Drawn from the same bar values, a standalone chart is the combined
   * figure's panel: its own axis floor and label format agree with the
   * combined figure's.
   */
  lemma ExportChartIsBarChart(f: Family, values: seq<int>)
    requires |values| > 0
    ensures ExportChart(f, values) == BarChart(f, values)
  {
    var e, c := ExportChart(f, values), BarChart(f, values);
    assert ExportAxisFloor(f) == AxisFloor(f);
    assert e.yTop == c.yTop;
    assert e.heights == c.heights;
    forall i | 0 <= i < |values|
      ensures e.labels[i] == c.labels[i]
    {
      ExportLabelIsLabel(f, values[i]);
    }
    assert e.labels == c.labels;
  }

  /** The standalone figure formats a bar exactly as the combined figure does. */
  lemma ExportLabelIsLabel(f: Family, v: int)
    ensures ExportLabel(f, v) == Label(f, v)
  {
  }

  /** The export file names, exactly; no two families share one. */
  lemma ExportFileNames()
    ensures ExportFileName(Waste) == "Residuos_Valorizados.png"
    ensures ExportFileName(Energy) == "Energia_Generada.png"
    ensures ExportFileName(Revenue) == "Ingresos_Totales.png"
    ensures ExportFileName(Waste) != ExportFileName(Energy)
    ensures ExportFileName(Waste) != ExportFileName(Revenue)
    ensures ExportFileName(Energy) != ExportFileName(Revenue)
  {
  }

  /** The share of recycled materials changes no chart. */
  lemma RecycledMaterialsInertInCharts(p: Params, share: int)
    ensures CombinedFigure(p.(recycledMaterials := share)) == CombinedFigure(p)
  {
    RecycledMaterialsInert(p, share);
  }

  /**
   * The default scenario's axis tops: 1.15 times 90 t, 20,000 kWh and
   * CLP 10,000,000.
   */
  lemma DefaultScenarioCharts()
    ensures Panel(Waste, Defaults()).yTop == 103.5
    ensures Panel(Energy, Defaults()).yTop == 23000.0
    ensures Panel(Revenue, Defaults()).yTop == 11500000.0
  {
    DefaultScenario();
    var d := Defaults();
    assert BarValues(Waste, d) == [9000, 8100];
    assert BarValues(Energy, d) == [20000, 20000];
    assert BarValues(Revenue, d) == [9000000, 10000000];
    DefaultTallestBars();
    FloorNeverDecides(Waste, d);
    FloorNeverDecides(Energy, d);
    FloorNeverDecides(Revenue, d);
  }

  /** The taller default bar of each family, and 1.15 times its height. */
  lemma DefaultTallestBars()
    ensures MaxOf([9000, 8100]) == 9000 && 1.15 * Height(Waste, 9000) == 103.5
    ensures MaxOf([20000, 20000]) == 20000 && 1.15 * Height(Energy, 20000) == 23000.0
    ensures MaxOf([9000000, 10000000]) == 10000000 && 1.15 * Height(Revenue, 10000000) == 11500000.0
  {
    assert [9000, 8100][1..] == [8100];
    assert [20000, 20000][1..] == [20000];
    assert [9000000, 10000000][1..] == [10000000];
  }

  /** A panel's labels are those of its baseline bar and its projected bar, in that order. */
  lemma PanelLabels(f: Family, p: Params)
    ensures Panel(f, p).labels == [Label(f, Baseline(f)), Label(f, Projected(f, p))]
  {
    var a, b := Baseline(f), Projected(f, p);
    assert Panel(f, p) == BarChart(f, [a, b]);
    TwoBars(f, a, b);
  }

  /** The default scenario's tonnage labels: 90.00 t baseline, 81.00 t projected. */
  lemma DefaultWasteLabels()
    ensures Panel(Waste, Defaults()).labels == ["90.00", "81.00"]
  {
    PanelLabels(Waste, Defaults());
    DefaultScenario();
    Render90();
    Render81();
    assert Label(Waste, 9000) == "" + Unsigned2(9000);
    assert Label(Waste, 8100) == "" + Unsigned2(8100);
    assert Label(Waste, 9000) == "90.00" && Label(Waste, 8100) == "81.00";
  }

  /** The default scenario's energy labels: 20,000 kWh on both bars. */
  lemma DefaultEnergyLabels()
    ensures Panel(Energy, Defaults()).labels == ["20,000", "20,000"]
  {
    PanelLabels(Energy, Defaults());
    Render20000();
    assert Label(Energy, 20000) == "" + Grouped(20000);
    assert Label(Energy, 20000) == "20,000";
  }

  /** The default scenario's revenue labels: CLP 9,000,000 baseline, CLP 10,000,000 projected. */
  lemma DefaultRevenueLabels()
    ensures Panel(Revenue, Defaults()).labels == ["CLP 9,000,000", "CLP 10,000,000"]
  {
    PanelLabels(Revenue, Defaults());
    DefaultScenario();
    assert Baseline(Revenue) == 9000000 && Projected(Revenue, Defaults()) == 10000000;
    RevenueLabel9000000();
    RevenueLabel10000000();
  }

  /** The baseline revenue label. */
  lemma RevenueLabel9000000()
    ensures Label(Revenue, 9000000) == "CLP 9,000,000"
  {
    RevenueLabelText(9000000);
    Render9000000();
    assert "CLP " + "9,000,000" == "CLP 9,000,000";
  }

  /** The default scenario's projected revenue label. */
  lemma RevenueLabel10000000()
    ensures Label(Revenue, 10000000) == "CLP 10,000,000"
  {
    RevenueLabelText(10000000);
    Render10000000();
    assert "CLP " + "10,000,000" == "CLP 10,000,000";
  }

  /** A revenue label of a non-negative value is "CLP " and the grouped digits. */
  lemma RevenueLabelText(v: nat)
    ensures Label(Revenue, v) == "CLP " + Grouped(v)
  {
    assert WholeGrouped(v) == "" + Grouped(v);
  }
}
