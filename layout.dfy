/**
 * Space reserved for axis tick labels and axis titles, and the padding of the
 * plot grid (layout.ts).
 */
module Layout {
  import opened Wrappers
  import opened JsValues
  import opened OptionTypes
  import opened ChartInputs

  /** The shortest decimal that rounds to the double `Math.sqrt(2)` returns. */
  const SQRT2: real := 1.4142135623730951

  /**
   * A layout length as JavaScript computes it: a finite number, or the
   * `-Infinity` that `Math.max()` returns when given no arguments.
   */
  datatype Extended = NegInfinity | Finite(value: real) {

    function Plus(c: real): (r: Extended)
      ensures r.Finite? <==> Finite?
      ensures r.Finite? ==> r.value - c == value
    {
      match this
      case NegInfinity => NegInfinity
      case Finite(v) => Finite(v + c)
    }

    function DividedBy(c: real): (r: Extended)
      requires c > 0.0
      ensures r.Finite? <==> Finite?
      ensures r.Finite? ==> r.value * c == value
    {
      match this
      case NegInfinity => NegInfinity
      case Finite(v) => Finite(v / c)
    }
  }

  /** `Math.max(a, b)`. */
  function Max(a: real, b: real): (m: real)
    ensures a <= m && b <= m
    ensures m == a || m == b
  {
    if a < b then b else a
  }

  /** `h` bounds every width in `ws` and is one of them. */
  ghost predicate IsWidest(h: real, ws: seq<real>) {
    && (forall i :: 0 <= i < |ws| ==> ws[i] <= h)
    && (exists i :: 0 <= i < |ws| && ws[i] == h)
  }

  /** `Math.max(...ws)`, folding from the left. */
  function MaxOf(ws: seq<real>): (m: Extended)
    ensures m.NegInfinity? <==> ws == []
    ensures m.Finite? ==> IsWidest(m.value, ws)
  {
    if ws == [] then NegInfinity
    else
      var init, last := ws[..|ws| - 1], ws[|ws| - 1];
      var rest := MaxOf(init);
      var m := if rest.NegInfinity? then last else Max(rest.value, last);
      assert init + [last] == ws;
      assert forall i :: 0 <= i < |init| ==> init[i] == ws[i];
      assert m == last ==> ws[|ws| - 1] == m;
      Finite(m)
  }

  /** The width `measureText` gives to `formatter(value)` in the tick font. */
  function MeasuredTick(ctx: RenderingContext, style: ChartStyle, formatter: AxisFormatter, value: JsValue): real {
    ctx.measureText(formatter(value), TickFontStyle(style, ctx))
  }

  /**
   * Width reserved for Y tick labels: the wider of the formatted extent
   * bounds. It is gated on the X-axis flag `graph.x_axis.axis_enabled`, as in
   * the code, not on any Y-axis flag.
   */
  function YAxisTicksWidth(extent: Extent, formatter: AxisFormatter, settings: Settings,
                           ctx: RenderingContext, style: ChartStyle): (w: real)
    ensures !Truthy(settings.xAxisEnabled) ==> w == 0.0
    ensures Truthy(settings.xAxisEnabled) ==>
      var minWidth := MeasuredTick(ctx, style, formatter, Num(extent.min));
      var maxWidth := MeasuredTick(ctx, style, formatter, Num(extent.max));
      minWidth <= w && maxWidth <= w && (w == minWidth || w == maxWidth)
  {
    if !Truthy(settings.xAxisEnabled) then 0.0
    else
      var minTextWidth := MeasuredTick(ctx, style, formatter, Num(extent.min));
      var maxTextWidth := MeasuredTick(ctx, style, formatter, Num(extent.max));
      Max(minTextWidth, maxTextWidth)
  }

  /** `chartModel.dataset.map(...)`: the measured width of every row's formatted dimension value. */
  function TickWidths(chartModel: ChartModel, formatter: AxisFormatter,
                      ctx: RenderingContext, style: ChartStyle): (ws: seq<real>)
    ensures |ws| == |chartModel.dataset|
  {
    var dataset, key := chartModel.dataset, chartModel.dimensionModel.dataKey;
    seq(|dataset|, i requires 0 <= i < |dataset| => MeasuredTick(ctx, style, formatter, DatumValue(dataset[i], key)))
  }

  /** A truthy `graph.x_axis.axis_enabled` that is none of the known modes. */
  predicate UnrecognizedMode(mode: JsValue) {
    Truthy(mode) && mode != Bool(true) && mode != Str("compact")
    && mode != Str("rotate-90") && mode != Str("rotate-45")
  }

  /** X tick height, and whether the "Unexpected value" warning was emitted. */
  datatype TicksHeight = TicksHeight(height: Extended, warned: bool)

  function XAxisTicksHeight(chartModel: ChartModel, settings: Settings, formatter: AxisFormatter,
                            ctx: RenderingContext, style: ChartStyle): (r: TicksHeight)
    ensures !Truthy(settings.xAxisEnabled) ==> r == TicksHeight(Finite(0.0), false)
    ensures settings.xAxisEnabled == Bool(true) || settings.xAxisEnabled == Str("compact") ==>
      r == TicksHeight(Finite(style.axisTicks.size), false)
    ensures settings.xAxisEnabled == Str("rotate-90") || settings.xAxisEnabled == Str("rotate-45") ==>
      !r.warned && (r.height.NegInfinity? <==> chartModel.dataset == [])
    ensures settings.xAxisEnabled == Str("rotate-90") && r.height.Finite? ==>
      IsWidest(r.height.value, TickWidths(chartModel, formatter, ctx, style))
    ensures settings.xAxisEnabled == Str("rotate-45") && r.height.Finite? ==>
      IsWidest(r.height.value * SQRT2, TickWidths(chartModel, formatter, ctx, style))
    ensures r.warned <==> UnrecognizedMode(settings.xAxisEnabled)
    ensures r.warned ==> r.height == Finite(style.axisTicks.size)
  {
    var xAxisDisplay := settings.xAxisEnabled;
    if !Truthy(xAxisDisplay) then TicksHeight(Finite(0.0), false)
    else if xAxisDisplay == Bool(true) || xAxisDisplay == Str("compact") then
      TicksHeight(Finite(style.axisTicks.size), false)
    else
      var maxTickWidth := MaxOf(TickWidths(chartModel, formatter, ctx, style));
      if xAxisDisplay == Str("rotate-90") then TicksHeight(maxTickWidth, false)
      else if xAxisDisplay == Str("rotate-45") then TicksHeight(maxTickWidth.DividedBy(SQRT2), false)
      else TicksHeight(Finite(style.axisTicks.size), true)
  }

  /** The Y title is drawn unless `labels_enabled` is exactly `false`, given a title. */
  predicate HasYAxisNameForGap(settings: Settings) {
    settings.yLabelsEnabled != Bool(false) && settings.yTitleText.Some?
  }

  function YAxisNameGap(extent: Extent, formatter: AxisFormatter, settings: Settings,
                        ctx: RenderingContext, style: ChartStyle): (gap: real)
    ensures !HasYAxisNameForGap(settings) ==> gap == 0.0
    ensures HasYAxisNameForGap(settings) ==>
      gap - style.axisNamePadding == YAxisTicksWidth(extent, formatter, settings, ctx, style)
  {
    if !HasYAxisNameForGap(settings) then 0.0
    else YAxisTicksWidth(extent, formatter, settings, ctx, style) + style.axisNamePadding
  }

  function XAxisNameGap(chartModel: ChartModel, settings: Settings, formatter: AxisFormatter,
                        ctx: RenderingContext, style: ChartStyle): (gap: Extended)
    ensures var h := XAxisTicksHeight(chartModel, settings, formatter, ctx, style).height;
      (gap.Finite? <==> h.Finite?) && (gap.Finite? ==> gap.value - style.axisNamePadding == h.value)
  {
    XAxisTicksHeight(chartModel, settings, formatter, ctx, style).height.Plus(style.axisNamePadding)
  }

  /** The ECharts grid option: `left`, `right` and `bottom` are absent when unset. */
  datatype GridOption = GridOption(containLabel: bool, top: real,
                                   left: Option<real>, right: Option<real>, bottom: Option<real>)

  /** The grid reserves title space only when `labels_enabled` is truthy, given a title. */
  predicate HasYAxisNameForGrid(settings: Settings) {
    Truthy(settings.yLabelsEnabled) && settings.yTitleText.Some?
  }

  method GetChartGrid(settings: Settings, style: ChartStyle) returns (grid: GridOption)
    ensures grid.containLabel && grid.top == 0.0
    ensures grid.left == grid.right
    ensures grid.left.Some? <==> HasYAxisNameForGrid(settings)
    ensures grid.bottom.Some? <==> Truthy(settings.xAxisEnabled)
    ensures grid.left.Some? ==> grid.left.value == style.axisName.size + style.axisNamePadding
    ensures grid.bottom.Some? ==> grid.bottom.value == style.axisName.size + style.axisNamePadding
  {
    grid := GridOption(true, 0.0, None, None, None);
    var hasYAxisName := HasYAxisNameForGrid(settings);
    var axisNamePadding := style.axisName.size + style.axisNamePadding;
    if hasYAxisName {
      grid := grid.(left := Some(axisNamePadding));
      grid := grid.(right := Some(axisNamePadding));
    }
    var hasXAxis := Truthy(settings.xAxisEnabled);
    if hasXAxis {
      grid := grid.(bottom := Some(axisNamePadding));
    }
  }

  /** The rotate-45 height is the rotate-90 height divided by the square root of two. */
  lemma Rotate45IsRotate90OverSqrt2(chartModel: ChartModel, settings: Settings, formatter: AxisFormatter,
                                    ctx: RenderingContext, style: ChartStyle)
    requires settings.xAxisEnabled == Str("rotate-45")
    ensures var h45 := XAxisTicksHeight(chartModel, settings, formatter, ctx, style).height;
      var h90 := XAxisTicksHeight(chartModel, settings.(xAxisEnabled := Str("rotate-90")), formatter, ctx, style).height;
      h45 == h90.DividedBy(SQRT2)
  {
  }

  /** Under rotate-90, rows whose labels measure 40, 55 and 30 reserve a height of 55. */
  lemma WidestOfThreeLabels(chartModel: ChartModel, settings: Settings, formatter: AxisFormatter,
                            ctx: RenderingContext, style: ChartStyle)
    requires settings.xAxisEnabled == Str("rotate-90")
    requires TickWidths(chartModel, formatter, ctx, style) == [40.0, 55.0, 30.0]
    ensures XAxisTicksHeight(chartModel, settings, formatter, ctx, style).height == Finite(55.0)
  {
    assert MaxOf([40.0, 55.0, 30.0]) == Finite(55.0);
  }

  /** The X name gap never looks at the X title. */
  lemma XAxisNameGapIgnoresTitle(chartModel: ChartModel, settings: Settings, formatter: AxisFormatter,
                                 ctx: RenderingContext, style: ChartStyle, title: Option<string>)
    ensures XAxisNameGap(chartModel, settings, formatter, ctx, style)
         == XAxisNameGap(chartModel, settings.(xTitleText := title), formatter, ctx, style)
  {
  }

  /**
   * The grid's test for a Y title is stricter than the name gap's: whenever
   * the grid reserves title space the name gap does too, and with
   * `labels_enabled` unset the name gap is reserved while the grid is not.
   */
  lemma GridTitleTestIsStricter(settings: Settings)
    ensures HasYAxisNameForGrid(settings) ==> HasYAxisNameForGap(settings)
    ensures settings.yLabelsEnabled == Undefined && settings.yTitleText.Some? ==>
      HasYAxisNameForGap(settings) && !HasYAxisNameForGrid(settings)
  {
  }
}
