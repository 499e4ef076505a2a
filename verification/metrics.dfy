/**
 * The metric engine of `updateMap`: the ten near-identical branches become a
 * table of descriptors dispatched by metric id. Each descriptor says how a
 * value is derived, whether non-positive values are filtered out, whether the
 * values are standardised, and how the colour axis, legend and tooltip look.
 */
module Metrics {
  import opened Wrappers
  import opened Numbers
  import opened Records
  import opened Stats
  import opened Sorting

  /** The country statistic a metric reads. */
  datatype Field = Gdp | LandArea | Population

  /** How a metric derives its raw value from a joined record. */
  datatype Rule =
    | NodeCount                             // value = nodes
    | FlooredAtOne(field: Field)            // value = field < 1 ? 1 : field
    | PerUnit(field: Field, scale: real)    // value = (nodes / field) * scale

  datatype ScaleType = Logarithmic | Linear

  /** A colour stop of the axis: a position in [0, 1] and a colour. */
  datatype Stop = Stop(position: real, color: string)

  datatype Descriptor = Descriptor(
    rule: Rule,
    dropNonPositive: bool,  // `chartData.filter((c) => c.value > 0)`
    standardize: bool,      // replace values by their z-scores
    seriesName: string,
    legend: string,
    tooltip: string)

  /** The colour-axis settings a branch writes. */
  datatype Axis = Axis(
    min: Num,
    max: Num,
    minColor: Option<string>,
    maxColor: Option<string>,
    stops: Option<seq<Stop>>,
    scaleType: ScaleType)

  /**
   * What a branch computes: a series, or `Thrown` when `getStandardDeviation`
   * throws (reducing an empty array without an initial value), after which
   * nothing else in `updateMap` runs.
   */
  datatype Outcome = Thrown | Series(points: seq<Point>)

  const White := "#ffffff"
  const Blue := "#0000ff"
  const Red := "#ff0000"
  const PerTrillion := 1000.0   // 1e3: GDP is in billions
  const PerMillion := 1000000.0 // 1e6

  /** The diverging red-white-blue stops of the standardised metrics. */
  const DivergingStops := [Stop(0.0, Red), Stop(0.35, Red), Stop(0.5, White), Stop(1.0, Blue)]

  const ZScoreTooltip := "Country: {point.name}<br> #Std Dev from mean: {point.value}"
  const RatioTooltip := "Country: {point.name}<br> Value: {point.value}"

  function FieldValue(r: Enriched, f: Field): real
  {
    match f
    case Gdp => r.stat.gdp
    case LandArea => r.stat.landArea
    case Population => r.stat.population as real
  }

  /**
   * The value a rule derives. A ratio over a zero denominator is what
   * JavaScript gives: 0 / 0 is NaN and n / 0 is +Infinity for n > 0.
   */
  function RawValue(rule: Rule, r: Enriched): (v: Num)
    ensures rule.NodeCount? ==> v == Fin(r.nodes as real)
    ensures rule.FlooredAtOne? ==>
      var f := FieldValue(r, rule.field);
      v.Fin? && v.x >= 1.0 && (v.x == f || (v.x == 1.0 && f < 1.0))
    ensures rule.PerUnit? && FieldValue(r, rule.field) != 0.0 ==>
      v.Fin? && v.x * FieldValue(r, rule.field) == (r.nodes as real) * rule.scale
    ensures rule.PerUnit? && FieldValue(r, rule.field) == 0.0 ==>
      (v.NaN? <==> r.nodes == 0) && (v.PosInf? <==> r.nodes > 0)
  {
    match rule
    case NodeCount => Fin(r.nodes as real)
    case FlooredAtOne(f) =>
      var x := FieldValue(r, f);
      Fin(if x < 1.0 then 1.0 else x)
    case PerUnit(f, k) =>
      var den := FieldValue(r, f);
      if den == 0.0 then (if r.nodes == 0 then NaN else PosInf)
      else Fin((r.nodes as real) / den * k)
  }

  /** The descriptor of each metric id; no branch exists outside 1 to 10. */
  function Lookup(id: int): (d: Option<Descriptor>)
    ensures d.Some? <==> 1 <= id <= 10
    ensures d.Some? ==> (d.value.dropNonPositive <==> id <= 7) && (d.value.standardize <==> id >= 8)
    ensures id == 1 ==> d.value.rule == NodeCount
    ensures id == 2 ==> d.value.rule == FlooredAtOne(Gdp)
    ensures id == 3 ==> d.value.rule == FlooredAtOne(LandArea)
    ensures id == 4 ==> d.value.rule == FlooredAtOne(Population)
    ensures id == 5 || id == 8 ==> d.value.rule == PerUnit(Gdp, PerTrillion)
    ensures id == 6 || id == 9 ==> d.value.rule == PerUnit(LandArea, PerMillion)
    ensures id == 7 || id == 10 ==> d.value.rule == PerUnit(Population, PerMillion)
  {
    if id == 1 then
      Some(Descriptor(NodeCount, true, false, "Nodes", "Nodes",
        "Country: {point.name}<br> Nodes: {point.value}"))
    else if id == 2 then
      Some(Descriptor(FlooredAtOne(Gdp), true, false, "GDP", "GDP (Billions USD)",
        "Country: {point.name}<br> GDP: {point.value} $bn USD"))
    else if id == 3 then
      Some(Descriptor(FlooredAtOne(LandArea), true, false, "Land Area", "Land Area (kmÂ²)",
        "Country: {point.name}<br> Land Area: {point.value} kmÂ²"))
    else if id == 4 then
      Some(Descriptor(FlooredAtOne(Population), true, false, "Population", "Population",
        "Country: {point.name}<br> Population: {point.value}"))
    else if id == 5 then
      Some(Descriptor(PerUnit(Gdp, PerTrillion), true, false, "", "Nodes per $trillion USD GDP", RatioTooltip))
    else if id == 6 then
      Some(Descriptor(PerUnit(LandArea, PerMillion), true, false, "", "Nodes per 1,000,000 kmÂ²", RatioTooltip))
    else if id == 7 then
      Some(Descriptor(PerUnit(Population, PerMillion), true, false, "", "Nodes per 1,000,000 people", RatioTooltip))
    else if id == 8 then
      Some(Descriptor(PerUnit(Gdp, PerTrillion), false, true, "",
        "Nodes per $trillion USD GDP - number of stdevs from mean", ZScoreTooltip))
    else if id == 9 then
      Some(Descriptor(PerUnit(LandArea, PerMillion), false, true, "",
        "Nodes per 1,000,000 kmÂ² - number of stdevs from mean", ZScoreTooltip))
    else if id == 10 then
      Some(Descriptor(PerUnit(Population, PerMillion), false, true, "",
        "Nodes per 1,000,000 people - number of stdevs from mean", ZScoreTooltip))
    else None
  }

  /** `chartData.map((c) => ({ ...c, value: ... }))`. */
  function Derive(rows: seq<Enriched>, rule: Rule): (ps: seq<Point>)
    ensures |ps| == |rows|
  {
    seq(|rows|, i requires 0 <= i < |rows| => Point(rows[i], RawValue(rule, rows[i])))
  }

  /**
   * `chartData.filter((c) => c.value > 0)`: keeps every point with a positive
   * value, as often as it occurs, and nothing else.
   */
  function KeepPositive(ps: seq<Point>): (r: seq<Point>)
    ensures forall i :: 0 <= i < |r| ==> Positive(r[i].value)
    ensures forall p :: multiset(r)[p] == if Positive(p.value) then multiset(ps)[p] else 0
  {
    if |ps| == 0 then []
    else
      var rest := KeepPositive(ps[1..]);
      assert ps == [ps[0]] + ps[1..];
      if Positive(ps[0].value) then [ps[0]] + rest else rest
  }

  /** The filter removes nothing from a series whose values are all positive. */
  lemma {:induction false} KeepPositiveKeepsAll(ps: seq<Point>)
    requires forall i :: 0 <= i < |ps| ==> Positive(ps[i].value)
    ensures KeepPositive(ps) == ps
  {
    if |ps| > 0 {
      KeepPositiveKeepsAll(ps[1..]);
      assert ps == [ps[0]] + ps[1..];
    }
  }

  predicate AllFinite(ps: seq<Point>)
  {
    forall i :: 0 <= i < |ps| ==> ps[i].value.Fin?
  }

  /** `chartData.map((c) => c.value)` over finite values. */
  function Values(ps: seq<Point>): (xs: seq<real>)
    requires AllFinite(ps)
    ensures |xs| == |ps|
  {
    seq(|ps|, i requires 0 <= i < |ps| => ps[i].value.x)
  }

  /**
   * `sd` is what `getStandardDeviation` returns for these values: the
   * non-negative root of their population variance whenever that is a real
   * number (when a value is not finite, JavaScript's result is NaN and `sd`
   * plays no part).
   */
  predicate StdevOf(sd: real, ps: seq<Point>)
  {
    sd >= 0.0 && (|ps| > 0 && AllFinite(ps) ==> IsStdev(sd, Values(ps)))
  }

  /**
   * The z-score step of metrics 8 to 10: `(value - mean) / stdev` for every
   * point. An empty series throws; a non-finite value or a zero deviation
   * makes every value NaN.
   */
  function Standardize(ps: seq<Point>, sd: real): (r: Outcome)
    requires StdevOf(sd, ps)
    ensures r.Thrown? <==> |ps| == 0
    ensures r.Series? ==> |r.points| == |ps| && forall i :: 0 <= i < |ps| ==> r.points[i].row == ps[i].row
    ensures r.Series? && AllFinite(ps) && sd > 0.0 ==>
      && AllFinite(r.points)
      && ScalesBack(Values(r.points), Values(ps), Mean(Values(ps)), sd)
      && Sum(Values(r.points)) == 0.0
      && Variance(Values(r.points)) == 1.0
    ensures r.Series? && !(AllFinite(ps) && sd > 0.0) ==> forall i :: 0 <= i < |ps| ==> r.points[i].value.NaN?
  {
    if |ps| == 0 then Thrown
    else if AllFinite(ps) && sd > 0.0 then
      var xs := Values(ps);
      var z := ZScores(xs, Mean(xs), sd);
      var out := seq(|ps|, i requires 0 <= i < |ps| => Point(ps[i].row, Fin(z[i])));
      assert Values(out) == z;
      ZScoresRoundTrip(xs, Mean(xs), sd);
      ZScoresSumToZero(xs, sd);
      ZScoresUnitVariance(xs, sd);
      Series(out)
    else
      Series(seq(|ps|, i requires 0 <= i < |ps| => Point(ps[i].row, NaN)))
  }

  /** The series a descriptor derives and filters, before any standardisation. */
  function Candidates(rows: seq<Enriched>, d: Descriptor): seq<Point>
  {
    var ps := Derive(rows, d.rule);
    if d.dropNonPositive then KeepPositive(ps) else ps
  }

  /**
   * The series one branch of `updateMap` computes from the joined records.
   * Only the standardisation can throw, and only on an empty series. Without
   * it, the series holds exactly the rows valued by the rule (the positive
   * ones when the branch filters); with it, one point per candidate, in order.
   */
  function Compute(rows: seq<Enriched>, d: Descriptor, sd: real): (r: Outcome)
    requires d.standardize ==> StdevOf(sd, Candidates(rows, d))
    ensures r.Thrown? <==> d.standardize && |Candidates(rows, d)| == 0
    ensures r.Series? && !d.standardize ==>
      forall p :: p in r.points <==>
        p.row in rows && p.value == RawValue(d.rule, p.row) && (d.dropNonPositive ==> Positive(p.value))
    ensures r.Series? && !d.standardize ==>
      forall p :: multiset(r.points)[p] ==
        if p.value == RawValue(d.rule, p.row) && (d.dropNonPositive ==> Positive(p.value))
        then multiset(rows)[p.row] else 0
    ensures r.Series? && d.standardize ==>
      var cs := Candidates(rows, d);
      |r.points| == |cs| && forall i :: 0 <= i < |cs| ==> r.points[i].row == cs[i].row
  {
    var ps := Candidates(rows, d);
    DeriveMembers(rows, d.rule);
    DeriveCount(rows, d.rule);
    KeepPositiveMembers(Derive(rows, d.rule));
    if d.standardize then Standardize(ps, sd) else Series(ps)
  }

  /**
   * `Math.max(...chartData.map((d) => d.value || 0))`: -Infinity for an empty
   * series, otherwise the greatest of the mapped values.
   */
  function MaxValue(ps: seq<Point>): (m: Num)
    ensures !m.NaN?
    ensures forall i :: 0 <= i < |ps| ==> !Less(m, OrZero(ps[i].value))
    ensures |ps| == 0 ==> m == NegInf
    ensures |ps| > 0 ==> exists i :: 0 <= i < |ps| && m == OrZero(ps[i].value)
  {
    if |ps| == 0 then NegInf
    else
      var rest := MaxValue(ps[1..]);
      var m := MathMax(OrZero(ps[0].value), rest);
      assert forall i :: 1 <= i < |ps| ==> ps[i] == ps[1..][i - 1];
      assert forall i :: 1 <= i < |ps| ==> !Less(m, OrZero(ps[i].value)) by {
        forall i | 1 <= i < |ps| ensures !Less(m, OrZero(ps[i].value)) {
          NotLessTransitive(m, rest, OrZero(ps[i].value));
        }
      }
      m
  }

  /**
   * The colour axis a branch writes. The standardised metrics get a fixed
   * linear axis from -1 to 1 with red-white-blue stops, whatever the data;
   * the others a logarithmic white-to-blue axis from 1 whose top lies at or
   * above every value (`v || 0`), is one of them, or is -Infinity when the
   * series is empty.
   */
  function AxisFor(d: Descriptor, ps: seq<Point>): (a: Axis)
    ensures d.standardize ==>
      && a.min == Fin(-1.0) && a.max == Fin(1.0) && a.scaleType == Linear
      && a.stops == Some(DivergingStops) && a.minColor.None? && a.maxColor.None?
    ensures !d.standardize ==>
      && a.min == Fin(1.0) && a.scaleType == Logarithmic
      && a.minColor == Some(White) && a.maxColor == Some(Blue) && a.stops.None?
      && !a.max.NaN?
      && (forall i :: 0 <= i < |ps| ==> !Less(a.max, OrZero(ps[i].value)))
      && (|ps| == 0 ==> a.max == NegInf)
      && (|ps| > 0 ==> exists i :: 0 <= i < |ps| && a.max == OrZero(ps[i].value))
  {
    if d.standardize then Axis(Fin(-1.0), Fin(1.0), None, None, Some(DivergingStops), Linear)
    else Axis(Fin(1.0), MaxValue(ps), Some(White), Some(Blue), None, Logarithmic)
  }

  /** Membership in a derived series: each point pairs a row with that row's value. */
  lemma DeriveMembers(rows: seq<Enriched>, rule: Rule)
    ensures forall p :: p in Derive(rows, rule) <==> p.row in rows && p.value == RawValue(rule, p.row)
  {
    var ps := Derive(rows, rule);
    forall p: Point | p.row in rows && p.value == RawValue(rule, p.row)
      ensures p in ps
    {
      var i :| 0 <= i < |rows| && rows[i] == p.row;
      assert ps[i] == p;
    }
  }

  /** A derived series holds each row once per occurrence, paired with that row's value. */
  lemma {:induction false} DeriveCount(rows: seq<Enriched>, rule: Rule)
    ensures forall p :: multiset(Derive(rows, rule))[p] ==
                        if p.value == RawValue(rule, p.row) then multiset(rows)[p.row] else 0
  {
    if |rows| > 0 {
      var init := rows[..|rows| - 1];
      var last := rows[|rows| - 1];
      DeriveCount(init, rule);
      assert rows == init + [last];
      assert Derive(rows, rule) == Derive(init, rule) + [Point(last, RawValue(rule, last))];
    }
  }

  /** Membership after the `> 0` filter: the positive points of the series. */
  lemma KeepPositiveMembers(ps: seq<Point>)
    ensures forall p :: p in KeepPositive(ps) <==> p in ps && Positive(p.value)
  {
    forall p: Point
      ensures p in KeepPositive(ps) <==> p in ps && Positive(p.value)
    {
      assert p in KeepPositive(ps) <==> multiset(KeepPositive(ps))[p] > 0;
      assert p in ps <==> multiset(ps)[p] > 0;
    }
  }

  /**
   * Metric 1: the value is the node count, and exactly the countries with at
   * least one node are kept, each as often as it occurs among the rows.
   */
  lemma NodeCountSeries(rows: seq<Enriched>)
    ensures Compute(rows, Lookup(1).value, 0.0).Series?
    ensures forall p :: p in Compute(rows, Lookup(1).value, 0.0).points <==>
      p.row in rows && p.row.nodes > 0 && p.value == Fin(p.row.nodes as real)
    ensures forall p :: multiset(Compute(rows, Lookup(1).value, 0.0).points)[p] ==
                        if p.row.nodes > 0 && p.value == Fin(p.row.nodes as real) then multiset(rows)[p.row] else 0
  {
    DeriveMembers(rows, NodeCount);
    KeepPositiveMembers(Derive(rows, NodeCount));
  }

  /**
   * Metrics 2 to 4: no country is removed and the order is kept; each value
   * is the statistic itself, or 1 where the statistic is below 1.
   */
  lemma FlooredSeries(rows: seq<Enriched>, id: int)
    requires 2 <= id <= 4
    ensures Compute(rows, Lookup(id).value, 0.0).Series?
    ensures var ps := Compute(rows, Lookup(id).value, 0.0).points;
      var f := Lookup(id).value.rule.field;
      && |ps| == |rows|
      && forall i :: 0 <= i < |rows| ==>
        && ps[i].row == rows[i]
        && ps[i].value.Fin?
        && ps[i].value.x >= 1.0
        && (ps[i].value.x == FieldValue(rows[i], f) || (ps[i].value.x == 1.0 && FieldValue(rows[i], f) < 1.0))
  {
    FlooredKeepsAll(rows, Lookup(id).value);
  }

  /** A floored statistic is never below 1, so the `> 0` filter keeps every point. */
  lemma FlooredKeepsAll(rows: seq<Enriched>, d: Descriptor)
    requires d.rule.FlooredAtOne? && !d.standardize
    ensures Compute(rows, d, 0.0) == Series(Derive(rows, d.rule))
  {
    var ps := Derive(rows, d.rule);
    assert forall i :: 0 <= i < |ps| ==> ps[i].value.Fin? && ps[i].value.x >= 1.0;
    KeepPositiveKeepsAll(ps);
  }

  /**
   * A ratio (with a positive scale) is positive exactly when the country has
   * nodes and its denominator is not negative; a zero denominator then gives
   * +Infinity.
   */
  lemma RatioPositive(r: Enriched, f: Field, k: real)
    requires k > 0.0
    ensures Positive(RawValue(PerUnit(f, k), r)) <==> r.nodes > 0 && FieldValue(r, f) >= 0.0
  {
    var den := FieldValue(r, f);
    var n := r.nodes as real;
    if den != 0.0 {
      var v := RawValue(PerUnit(f, k), r);
      assert v.x * den == n * k;
      if den > 0.0 {
        assert v.x > 0.0 <==> n * k > 0.0;
        assert n * k > 0.0 <==> n > 0.0;
      } else {
        assert v.x <= 0.0;
      }
    }
  }

  /**
   * Metrics 5 to 7: a country is kept exactly when its ratio is positive,
   * that is when it has nodes and a non-negative denominator. Zero-node
   * countries are gone, and a zero denominator with nodes shows as +Infinity.
   * Each kept country occurs as often as among the rows.
   */
  lemma RatioSeries(rows: seq<Enriched>, id: int)
    requires 5 <= id <= 7
    ensures Compute(rows, Lookup(id).value, 0.0).Series?
    ensures var d := Lookup(id).value;
      var f := d.rule.field;
      forall p :: p in Compute(rows, d, 0.0).points <==>
        && p.row in rows
        && p.value == RawValue(d.rule, p.row)
        && p.row.nodes > 0
        && FieldValue(p.row, f) >= 0.0
    ensures forall p :: p in Compute(rows, Lookup(id).value, 0.0).points ==>
      var den := FieldValue(p.row, Lookup(id).value.rule.field);
      Positive(p.value) && (den == 0.0 <==> p.value == PosInf)
    ensures var d := Lookup(id).value;
      forall p :: multiset(Compute(rows, d, 0.0).points)[p] ==
        if p.value == RawValue(d.rule, p.row) && p.row.nodes > 0 && FieldValue(p.row, d.rule.field) >= 0.0
        then multiset(rows)[p.row] else 0
  {
    var d := Lookup(id).value;
    DeriveMembers(rows, d.rule);
    KeepPositiveMembers(Derive(rows, d.rule));
    forall r: Enriched
      ensures Positive(RawValue(d.rule, r)) <==> r.nodes > 0 && FieldValue(r, d.rule.field) >= 0.0
    {
      RatioPositive(r, d.rule.field, d.rule.scale);
    }
  }

  /**
   * Metrics 1 to 7: the axis is logarithmic from 1 to the largest kept value
   * (-Infinity when nothing is kept), so every kept value lies at or below
   * its top, and the top is one of them.
   */
  lemma LogAxisCoversSeries(rows: seq<Enriched>, id: int)
    requires 1 <= id <= 7
    ensures Compute(rows, Lookup(id).value, 0.0).Series?
    ensures var d := Lookup(id).value;
      var ps := Compute(rows, d, 0.0).points;
      var a := AxisFor(d, ps);
      && a.min == Fin(1.0)
      && a.scaleType == Logarithmic
      && (forall p :: p in ps ==> Positive(p.value) && !Less(a.max, p.value))
      && (|ps| > 0 ==> exists p :: p in ps && a.max == p.value)
      && (|ps| == 0 ==> a.max == NegInf)
  {
    var d := Lookup(id).value;
    var ps := Compute(rows, d, 0.0).points;
    var m := MaxValue(ps);
    forall p | p in ps
      ensures Positive(p.value) && !Less(m, p.value)
    {
      var i :| 0 <= i < |ps| && ps[i] == p;
    }
    if |ps| > 0 {
      var i :| 0 <= i < |ps| && m == OrZero(ps[i].value);
      assert ps[i] in ps;
    }
  }

  /**
   * Metrics 8 to 10: no country is removed and the order is kept. With every
   * denominator non-zero and a non-zero deviation the values are z-scores,
   * which sum to zero and have variance one; otherwise every value is NaN.
   * An empty table makes `getStandardDeviation` throw.
   */
  lemma StandardizedSeries(rows: seq<Enriched>, id: int, sd: real)
    requires 8 <= id <= 10
    requires StdevOf(sd, Derive(rows, Lookup(id).value.rule))
    ensures var d := Lookup(id).value;
      var r := Compute(rows, d, sd);
      && (r.Thrown? <==> |rows| == 0)
      && (r.Series? ==> |r.points| == |rows| && forall i :: 0 <= i < |rows| ==> r.points[i].row == rows[i])
    ensures var d := Lookup(id).value;
      var r := Compute(rows, d, sd);
      r.Series? && sd > 0.0 && (forall i :: 0 <= i < |rows| ==> FieldValue(rows[i], d.rule.field) != 0.0) ==>
        AllFinite(r.points) && Sum(Values(r.points)) == 0.0 && Variance(Values(r.points)) == 1.0
    ensures var d := Lookup(id).value;
      var r := Compute(rows, d, sd);
      r.Series? && (sd == 0.0 || exists i :: 0 <= i < |rows| && FieldValue(rows[i], d.rule.field) == 0.0) ==>
        forall i :: 0 <= i < |rows| ==> r.points[i].value.NaN?
    ensures var d := Lookup(id).value;
      var r := Compute(rows, d, sd);
      var xs := Derive(rows, d.rule);
      r.Series? && sd > 0.0 && AllFinite(xs) ==>
        AllFinite(r.points) && ScalesBack(Values(r.points), Values(xs), Mean(Values(xs)), sd)
  {
    StandardizedRatios(rows, Lookup(id).value, sd);
  }

  /** `StandardizedSeries` for any descriptor that standardises a ratio. */
  lemma StandardizedRatios(rows: seq<Enriched>, d: Descriptor, sd: real)
    requires d.rule.PerUnit? && d.standardize && !d.dropNonPositive
    requires StdevOf(sd, Derive(rows, d.rule))
    ensures var r := Compute(rows, d, sd);
      && (r.Thrown? <==> |rows| == 0)
      && (r.Series? ==> |r.points| == |rows| && forall i :: 0 <= i < |rows| ==> r.points[i].row == rows[i])
    ensures var r := Compute(rows, d, sd);
      r.Series? && sd > 0.0 && (forall i :: 0 <= i < |rows| ==> FieldValue(rows[i], d.rule.field) != 0.0) ==>
        AllFinite(r.points) && Sum(Values(r.points)) == 0.0 && Variance(Values(r.points)) == 1.0
    ensures var r := Compute(rows, d, sd);
      r.Series? && (sd == 0.0 || exists i :: 0 <= i < |rows| && FieldValue(rows[i], d.rule.field) == 0.0) ==>
        forall i :: 0 <= i < |rows| ==> r.points[i].value.NaN?
    ensures var r := Compute(rows, d, sd);
      var xs := Derive(rows, d.rule);
      r.Series? && sd > 0.0 && AllFinite(xs) ==>
        AllFinite(r.points) && ScalesBack(Values(r.points), Values(xs), Mean(Values(xs)), sd)
  {
    var ps := Derive(rows, d.rule);
    if exists i :: 0 <= i < |rows| && FieldValue(rows[i], d.rule.field) == 0.0 {
      var i :| 0 <= i < |rows| && FieldValue(rows[i], d.rule.field) == 0.0;
      assert !ps[i].value.Fin?;
    }
  }

  /**
   * Every series of the table is either free of NaN or all NaN, so the final
   * sort orders it consistently.
   */
  lemma TableSeriesUniform(rows: seq<Enriched>, id: int, sd: real)
    requires 1 <= id <= 10
    requires id >= 8 ==> StdevOf(sd, Derive(rows, Lookup(id).value.rule))
    ensures Compute(rows, Lookup(id).value, sd).Series? ==> Uniform(Compute(rows, Lookup(id).value, sd).points)
  {
    var d := Lookup(id).value;
    var r := Compute(rows, d, sd);
    if id <= 7 {
      assert forall i :: 0 <= i < |r.points| ==> Positive(r.points[i].value);
    } else if r.Series? && !(AllFinite(Derive(rows, d.rule)) && sd > 0.0) {
      assert forall i :: 0 <= i < |r.points| ==> r.points[i].value.NaN?;
    }
  }

  /**
   * Metric 1 on three countries, USA with 15 nodes, DEU with 3 and FRA with
   * none: France is dropped and USA 15 precedes DEU 3.
   */
  lemma NodeCountExample()
    ensures
      var usa := Enriched(CountryStat("USA", "United States", 25000.0, 330000000, 9834000.0), 15);
      var deu := Enriched(CountryStat("DEU", "Germany", 4000.0, 83000000, 357000.0), 3);
      var fra := Enriched(CountryStat("FRA", "France", 2800.0, 67000000, 549000.0), 0);
      var r := Compute([usa, deu, fra], Lookup(1).value, 0.0);
      r == Series([Point(usa, Fin(15.0)), Point(deu, Fin(3.0))]) && SortedDescending(r.points)
  {
    var usa := Enriched(CountryStat("USA", "United States", 25000.0, 330000000, 9834000.0), 15);
    var deu := Enriched(CountryStat("DEU", "Germany", 4000.0, 83000000, 357000.0), 3);
    var fra := Enriched(CountryStat("FRA", "France", 2800.0, 67000000, 549000.0), 0);
    var ps := Derive([usa, deu, fra], NodeCount);
    assert ps == [Point(usa, Fin(15.0)), Point(deu, Fin(3.0)), Point(fra, Fin(0.0))];
    KeepFirstTwo(ps[0], ps[1], ps[2]);
  }

  /** The filter on three points of which only the last is not positive. */
  lemma KeepFirstTwo(a: Point, b: Point, c: Point)
    requires Positive(a.value) && Positive(b.value) && !Positive(c.value)
    ensures KeepPositive([a, b, c]) == [a, b]
  {
    var ps := [a, b, c];
    assert ps[1..] == [b, c] && ps[1..][1..] == [c] && ps[1..][1..][1..] == [];
  }

  /**
   * Metric 2 on the same three countries (GDP 25000, 4000 and 2800 billion
   * USD): all three are kept, valued at their GDP.
   */
  lemma GdpExample()
    ensures
      var usa := Enriched(CountryStat("USA", "United States", 25000.0, 330000000, 9834000.0), 15);
      var deu := Enriched(CountryStat("DEU", "Germany", 4000.0, 83000000, 357000.0), 3);
      var fra := Enriched(CountryStat("FRA", "France", 2800.0, 67000000, 549000.0), 0);
      var r := Compute([usa, deu, fra], Lookup(2).value, 0.0);
      r == Series([Point(usa, Fin(25000.0)), Point(deu, Fin(4000.0)), Point(fra, Fin(2800.0))])
  {
    var usa := Enriched(CountryStat("USA", "United States", 25000.0, 330000000, 9834000.0), 15);
    var deu := Enriched(CountryStat("DEU", "Germany", 4000.0, 83000000, 357000.0), 3);
    var fra := Enriched(CountryStat("FRA", "France", 2800.0, 67000000, 549000.0), 0);
    var d := Lookup(2).value;
    assert d.rule == FlooredAtOne(Gdp) && d.dropNonPositive && !d.standardize;
    var ps := Derive([usa, deu, fra], d.rule);
    assert ps == [Point(usa, Fin(25000.0)), Point(deu, Fin(4000.0)), Point(fra, Fin(2800.0))];
    assert KeepPositive(ps) == ps by {
      KeepPositiveKeepsAll(ps);
    }
  }

  /** Metric 8 with two countries whose ratios are 10 and 20: mean 15, deviation 5, z-scores -1 and +1. */
  lemma StandardizedExample()
    ensures
      var a := Enriched(CountryStat("AAA", "A", 1000.0, 1, 1.0), 10);
      var b := Enriched(CountryStat("BBB", "B", 1000.0, 1, 1.0), 20);
      StdevOf(5.0, Candidates([a, b], Lookup(8).value))
      && Compute([a, b], Lookup(8).value, 5.0) == Series([Point(a, Fin(-1.0)), Point(b, Fin(1.0))])
  {
    var a := Enriched(CountryStat("AAA", "A", 1000.0, 1, 1.0), 10);
    var b := Enriched(CountryStat("BBB", "B", 1000.0, 1, 1.0), 20);
    var d := Lookup(8).value;
    assert d.rule == PerUnit(Gdp, PerTrillion) && !d.dropNonPositive && d.standardize;
    var ps := Candidates([a, b], d);
    assert ps == [Point(a, Fin(10.0)), Point(b, Fin(20.0))];
    assert Values(ps) == [10.0, 20.0];
    TwoValueExample();
  }
}
