/**
 * The state `updateMap` works on. The options objects are shallow copies of
 * `mapBaseOptions`, so they all share its `colorAxis`, `legend.title` and
 * `tooltip` objects, which each branch overwrites in place; the series data
 * and the table data are one array, sorted in place.
 */
module App {
  import opened Wrappers
  import opened Numbers
  import opened Records
  import opened Joiner
  import opened Metrics
  import opened Sorting

  /** The colour axis `mapBaseOptions` starts with. */
  const InitialAxis := Axis(Fin(1.0), Fin(1000.0), Some(White), Some(Blue), None, Logarithmic)

  /** The `colorAxis`, `legend.title` and `tooltip` objects shared by every copy of `mapBaseOptions`. */
  class Style {
    var min: Num
    var max: Num
    var minColor: Option<string>
    var maxColor: Option<string>
    var stops: Option<seq<Stop>>
    var scaleType: ScaleType
    var legendTitle: string
    var tooltipFormat: string

    function CurrentAxis(): Axis
      reads this
    {
      Axis(min, max, minColor, maxColor, stops, scaleType)
    }

    constructor ()
      ensures CurrentAxis() == InitialAxis
      ensures legendTitle == "Ethereum Nodes"
      ensures tooltipFormat == "Country: {point.name}<br> Nodes: {parseInt(point.value)}"
    {
      min, max := Fin(1.0), Fin(1000.0);
      minColor, maxColor := Some(White), Some(Blue);
      stops := None;
      scaleType := Logarithmic;
      legendTitle := "Ethereum Nodes";
      tooltipFormat := "Country: {point.name}<br> Nodes: {parseInt(point.value)}";
    }

    /**
     * The assignments every branch makes to the shared objects; they cover
     * every field, so nothing of the previous metric survives.
     */
    method Restyle(a: Axis, legend: string, tooltip: string)
      modifies this
      ensures CurrentAxis() == a
      ensures legendTitle == legend && tooltipFormat == tooltip
    {
      min := a.min;
      max := a.max;
      minColor := a.minColor;
      maxColor := a.maxColor;
      stops := a.stops;
      legendTitle := legend;
      scaleType := a.scaleType;
      tooltipFormat := tooltip;
    }
  }

  /** `newMapOptions.series`: the name and the data array of the metric's series. */
  datatype SeriesOptions = SeriesOptions(name: string, data: array<Point>)

  /** A shallow copy of `mapBaseOptions`: a series of its own (none for the base itself) and the shared style. */
  datatype MapOptions = MapOptions(style: Style, series: Option<SeriesOptions>)

  /** The joined records with no metric applied: their `value` is `undefined`, which compares like NaN. */
  function Unvalued(rows: seq<Enriched>): (ps: seq<Point>)
    ensures |ps| == |rows|
    ensures forall i :: 0 <= i < |rows| ==> ps[i].row == rows[i] && ps[i].value.NaN?
  {
    seq(|rows|, i requires 0 <= i < |rows| => Point(rows[i], NaN))
  }

  /** `sd` is the standard deviation the selected metric would need, if it needs one. */
  predicate StdevFits(nodes: seq<NodeRecord>, countries: seq<CountryStat>, id: int, sd: real)
  {
    Lookup(id).Some? && Lookup(id).value.standardize ==>
      StdevOf(sd, Candidates(Join(nodes, countries), Lookup(id).value))
  }

  /**
   * `chartData` as an array, sorted in place at the end of `updateMap`; the
   * series data and the table data are this one array.
   */
  method SortedArray(ps: seq<Point>) returns (chart: array<Point>)
    requires Uniform(ps)
    ensures fresh(chart)
    ensures SortedDescending(chart[..]) && multiset(chart[..]) == multiset(ps)
  {
    chart := new Point[|ps|](i requires 0 <= i < |ps| => ps[i]);
    assert chart[..] == ps;
    SortDescending(chart);
  }

  class App {
    var nodeData: seq<NodeRecord>
    var countryData: seq<CountryStat>
    var mapType: int
    var mapOptions: MapOptions
    var tableData: array<Point>
    const baseStyle: Style

    /** The options shown always share the base style objects. */
    ghost predicate Valid()
      reads this
    {
      mapOptions.style == baseStyle
    }

    /** The state before any data has loaded: metric 0, the base options, an empty table. */
    constructor ()
      ensures Valid() && fresh(baseStyle) && fresh(tableData)
      ensures nodeData == [] && countryData == [] && mapType == 0
      ensures mapOptions.series.None? && tableData.Length == 0
      ensures baseStyle.CurrentAxis() == InitialAxis
      ensures baseStyle.legendTitle == "Ethereum Nodes"
      ensures baseStyle.tooltipFormat == "Country: {point.name}<br> Nodes: {parseInt(point.value)}"
    {
      var style := new Style();
      baseStyle := style;
      nodeData, countryData := [], [];
      mapType := 0;
      mapOptions := MapOptions(style, None);
      tableData := new Point[0];
    }

    /**
     * `updateMap`: join the data, run the branch of the selected metric,
     * sort the series in place and show it in the table. With no branch for
     * the id, the options stay as they are and the table gets the unvalued
     * join; when the standardisation throws, nothing changes at all.
     */
    method UpdateMap(sd: real)
      requires Valid()
      requires StdevFits(nodeData, countryData, mapType, sd)
      modifies this`mapOptions, this`tableData, baseStyle
      ensures Valid()
      ensures var rows := Join(nodeData, countryData);
        Lookup(mapType).None? ==>
          && mapOptions == old(mapOptions)
          && unchanged(baseStyle)
          && fresh(tableData)
          && multiset(tableData[..]) == multiset(Unvalued(rows))
      ensures var rows := Join(nodeData, countryData);
        Lookup(mapType).Some? && Compute(rows, Lookup(mapType).value, sd).Thrown? ==>
          unchanged(this) && unchanged(baseStyle)
      ensures var rows := Join(nodeData, countryData);
        var d := Lookup(mapType);
        d.Some? && Compute(rows, d.value, sd).Series? ==>
          var ps := Compute(rows, d.value, sd).points;
          && baseStyle.CurrentAxis() == AxisFor(d.value, ps)
          && baseStyle.legendTitle == d.value.legend
          && baseStyle.tooltipFormat == d.value.tooltip
          && mapOptions == MapOptions(baseStyle, Some(SeriesOptions(d.value.seriesName, tableData)))
          && fresh(tableData)
          && SortedDescending(tableData[..])
          && multiset(tableData[..]) == multiset(ps)
    {
      var chartData := PreprocessData(nodeData, countryData);
      var d := Lookup(mapType);
      if d.None? {
        Show(d, Unvalued(chartData));
      } else {
        var out := Compute(chartData, d.value, sd);
        if out.Thrown? {
          return;
        }
        TableSeriesUniform(chartData, mapType, sd);
        Show(d, out.points);
      }
    }

    /**
     * The end of `updateMap` once the series is known: a branch restyles the
     * shared objects and shows the series on the map; in every case the
     * series is sorted in place and becomes the table data.
     */
    method Show(d: Option<Descriptor>, ps: seq<Point>)
      requires Valid() && Uniform(ps)
      modifies this`mapOptions, this`tableData, baseStyle
      ensures Valid()
      ensures fresh(tableData) && SortedDescending(tableData[..]) && multiset(tableData[..]) == multiset(ps)
      ensures d.None? ==> mapOptions == old(mapOptions) && unchanged(baseStyle)
      ensures d.Some? ==>
        && baseStyle.CurrentAxis() == AxisFor(d.value, ps)
        && baseStyle.legendTitle == d.value.legend
        && baseStyle.tooltipFormat == d.value.tooltip
        && mapOptions == MapOptions(baseStyle, Some(SeriesOptions(d.value.seriesName, tableData)))
    {
      if d.Some? {
        baseStyle.Restyle(AxisFor(d.value, ps), d.value.legend, d.value.tooltip);
      }
      var chart := SortedArray(ps);
      if d.Some? {
        mapOptions := MapOptions(baseStyle, Some(SeriesOptions(d.value.seriesName, chart)));
      }
      tableData := chart;
    }

    /**
     * `getData` followed by the effect its `setMapType(1)` triggers: the two
     * datasets are stored, metric 1 is selected, and the map is updated when
     * the selection changed.
     */
    method Load(nodes: seq<NodeRecord>, countries: seq<CountryStat>)
      requires Valid()
      modifies this, baseStyle
      ensures Valid()
      ensures nodeData == nodes && countryData == countries && mapType == 1
      ensures old(mapType) != 1 ==>
        var d := Lookup(1).value;
        var ps := Compute(Join(nodes, countries), d, 0.0).points;
        && baseStyle.CurrentAxis() == AxisFor(d, ps)
        && baseStyle.legendTitle == d.legend
        && baseStyle.tooltipFormat == d.tooltip
        && mapOptions == MapOptions(baseStyle, Some(SeriesOptions(d.seriesName, tableData)))
        && fresh(tableData)
        && SortedDescending(tableData[..])
        && multiset(tableData[..]) == multiset(ps)
      ensures old(mapType) == 1 ==>
        mapOptions == old(mapOptions) && tableData == old(tableData) && unchanged(baseStyle)
    {
      var changed := mapType != 1;
      nodeData, countryData := nodes, countries;
      mapType := 1;
      if changed {
        NodeCountSeries(Join(nodes, countries));
        UpdateMap(0.0);
      }
    }

    /**
     * `handleSetMapType` followed by the effect on `mapType`: selecting a new
     * metric recomputes the map; selecting the current one does nothing.
     */
    method SelectMetric(id: int, sd: real)
      requires Valid()
      requires StdevFits(nodeData, countryData, id, sd)
      modifies this, baseStyle
      ensures Valid()
      ensures mapType == id && nodeData == old(nodeData) && countryData == old(countryData)
      ensures id == old(mapType) ==> unchanged(this) && unchanged(baseStyle)
      ensures var d := Lookup(id);
        var rows := Join(nodeData, countryData);
        id != old(mapType) && d.Some? && Compute(rows, d.value, sd).Series? ==>
          var ps := Compute(rows, d.value, sd).points;
          && baseStyle.CurrentAxis() == AxisFor(d.value, ps)
          && baseStyle.legendTitle == d.value.legend
          && baseStyle.tooltipFormat == d.value.tooltip
          && mapOptions == MapOptions(baseStyle, Some(SeriesOptions(d.value.seriesName, tableData)))
          && fresh(tableData)
          && SortedDescending(tableData[..])
          && multiset(tableData[..]) == multiset(ps)
      ensures var d := Lookup(id);
        var rows := Join(nodeData, countryData);
        id != old(mapType) && d.Some? && Compute(rows, d.value, sd).Thrown? ==>
          mapOptions == old(mapOptions) && tableData == old(tableData) && unchanged(baseStyle)
      ensures var rows := Join(nodeData, countryData);
        id != old(mapType) && Lookup(id).None? ==>
          && mapOptions == old(mapOptions)
          && unchanged(baseStyle)
          && fresh(tableData)
          && multiset(tableData[..]) == multiset(Unvalued(rows))
    {
      if id != mapType {
        mapType := id;
        UpdateMap(sd);
      }
    }
  }
}
