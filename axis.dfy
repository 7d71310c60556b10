/**
 * Axis descriptors for a cartesian chart (axis.ts): Y-range resolution, the
 * dimension (X) axis and up to two metric (Y) axes.
 */
module Axis {
  import opened Wrappers
  import opened JsValues
  import opened OptionTypes
  import opened ChartInputs
  import opened Layout

  const NORMALIZED_RANGE: AxisRange := AxisRange(Some(0.0), Some(1.0))
  const EMPTY_RANGE: AxisRange := AxisRange(None, None)

  /** The share of the axis left empty on each side of a category or time axis. */
  const BOUNDARY_GAP_RATIO: real := 0.02

  /** No bound of `range` cuts into `extent`. */
  predicate ShowsExtent(range: AxisRange, extent: Extent) {
    && (range.min.Some? ==> range.min.value < extent.min)
    && (range.max.Some? ==> range.max.value > extent.max)
  }

  /**
   * A custom bound is kept only where it widens the view past the data;
   * otherwise it is dropped so that the renderer rounds that end itself.
   */
  function GetCustomAxisRange(axisExtent: Extent, min: Option<real>, max: Option<real>): (r: AxisRange)
    ensures ShowsExtent(r, axisExtent)
    ensures r.min.Some? <==> min.Some? && min.value < axisExtent.min
    ensures r.max.Some? <==> max.Some? && max.value > axisExtent.max
    ensures r.min.Some? ==> r.min == min
    ensures r.max.Some? ==> r.max == max
  {
    var finalMin := if min.Some? && min.value < axisExtent.min then min else None;
    var finalMax := if max.Some? && max.value > axisExtent.max then max else None;
    AxisRange(finalMin, finalMax)
  }

  /** The range of one Y slot when auto range is off. */
  function SlotRange(extent: Option<Extent>, settings: Settings): (r: AxisRange)
    ensures extent.None? ==> r == EMPTY_RANGE
    ensures extent.Some? ==> r == GetCustomAxisRange(extent.value, settings.yMin, settings.yMax)
    ensures extent.Some? ==> ShowsExtent(r, extent.value)
  {
    if extent.Some? then GetCustomAxisRange(extent.value, settings.yMin, settings.yMax) else EMPTY_RANGE
  }

  /**
   * `[leftRange, rightRange]`. The normalized `[0, 1]` range is applied only
   * under auto range; with auto range off each slot takes its custom range
   * whatever the stack type.
   */
  function GetAxisRanges(chartModel: ChartModel, settings: Settings): (r: (AxisRange, AxisRange))
    ensures Truthy(settings.yAutoRange) ==>
      r.0 == r.1 && r.0 == (if settings.stackType == Str("normalized") then NORMALIZED_RANGE else EMPTY_RANGE)
    ensures !Truthy(settings.yAutoRange) ==>
      r.0 == SlotRange(chartModel.yAxisExtents.0, settings) && r.1 == SlotRange(chartModel.yAxisExtents.1, settings)
  {
    var isNormalized := settings.stackType == Str("normalized");
    if Truthy(settings.yAutoRange) then
      var defaultRange := if isNormalized then NORMALIZED_RANGE else EMPTY_RANGE;
      (defaultRange, defaultRange)
    else
      var (left, right) := chartModel.yAxisExtents;
      (SlotRange(left, settings), SlotRange(right, settings))
  }

  datatype AxisType = Time | Value | Category

  function GetXAxisType(settings: Settings): (t: AxisType)
    ensures t == Time <==> settings.xScale == Str("timeseries")
    ensures t == Value <==> settings.xScale == Str("linear")
  {
    if settings.xScale == Str("timeseries") then Time
    else if settings.xScale == Str("linear") then Value
    else Category
  }

  function GetRotateAngle(settings: Settings): (angle: Option<int>)
    ensures angle == Some(45) <==> settings.xAxisEnabled == Str("rotate-45")
    ensures angle == Some(90) <==> settings.xAxisEnabled == Str("rotate-90")
    ensures angle.Some? ==> angle == Some(45) || angle == Some(90)
  {
    if settings.xAxisEnabled == Str("rotate-45") then Some(45)
    else if settings.xAxisEnabled == Str("rotate-90") then Some(90)
    else None
  }

  /** The value handed to the formatter for the tick value `value`, which ECharts passes as text. */
  function ValueToFormat(value: string, axisType: AxisType, isNumericColumn: bool, runtime: LabelRuntime): JsValue {
    if axisType == Time then Str(runtime.formatTimestamp(value))
    else if isNumericColumn then runtime.parseInt(value)
    else Str(value)
  }

  /** The dimension axis label: the formatted tick value with one space on either side. */
  function DimensionLabel(value: string, axisType: AxisType, isNumericColumn: bool,
                          formatter: AxisFormatter, runtime: LabelRuntime): (text: string)
    ensures |text| >= 2 && text[0] == ' ' && text[|text| - 1] == ' '
    ensures axisType == Time ==> text[1..|text| - 1] == formatter(Str(runtime.formatTimestamp(value)))
    ensures axisType != Time && isNumericColumn ==> text[1..|text| - 1] == formatter(runtime.parseInt(value))
    ensures axisType != Time && !isNumericColumn ==> text[1..|text| - 1] == formatter(Str(value))
  {
    var formatted := formatter(ValueToFormat(value, axisType, isNumericColumn, runtime));
    var text := " " + formatted + " ";
    assert text[1..|text| - 1] == formatted;
    text
  }

  /** The X axis descriptor; colours and fonts are not modelled. */
  datatype DimensionAxisOption = DimensionAxisOption(
    name: Option<string>,
    nameGap: Extended,
    axisTickShow: bool,
    boundaryGap: Option<(real, real)>,
    splitLineShow: bool,
    axisType: AxisType,
    labelShow: bool,
    rotate: Option<int>,
    labelFormatter: string -> string)

  function BuildDimensionAxis(chartModel: ChartModel, settings: Settings, formatter: AxisFormatter,
                              ctx: RenderingContext, style: ChartStyle, runtime: LabelRuntime): (axis: DimensionAxisOption)
    ensures axis.axisType == GetXAxisType(settings)
    ensures axis.boundaryGap.None? <==> axis.axisType == Value
    ensures axis.boundaryGap.Some? ==> axis.boundaryGap.value == (BOUNDARY_GAP_RATIO, BOUNDARY_GAP_RATIO)
    ensures axis.labelShow <==> Truthy(settings.xAxisEnabled)
    ensures axis.rotate == GetRotateAngle(settings)
    ensures axis.name == settings.xTitleText
    ensures axis.nameGap == XAxisNameGap(chartModel, settings, formatter, ctx, style)
    ensures !axis.axisTickShow && !axis.splitLineShow
    ensures forall value ::
              axis.labelFormatter(value)
              == DimensionLabel(value, axis.axisType, chartModel.dimensionModel.isNumericColumn, formatter, runtime)
  {
    var axisType := GetXAxisType(settings);
    var boundaryGap := if axisType == Value then None else Some((BOUNDARY_GAP_RATIO, BOUNDARY_GAP_RATIO));
    var nameGap := XAxisNameGap(chartModel, settings, formatter, ctx, style);
    var isNumericColumn := chartModel.dimensionModel.isNumericColumn;
    DimensionAxisOption(
      name := settings.xTitleText,
      nameGap := nameGap,
      axisTickShow := false,
      boundaryGap := boundaryGap,
      splitLineShow := false,
      axisType := axisType,
      labelShow := Truthy(settings.xAxisEnabled),
      rotate := GetRotateAngle(settings),
      labelFormatter := (value: string) => DimensionLabel(value, axisType, isNumericColumn, formatter, runtime))
  }

  datatype Position = Left | Right

  /** A Y axis descriptor; colours, fonts and the dashed split line are not modelled. */
  datatype MetricAxisOption = MetricAxisOption(
    range: AxisRange,
    name: Option<string>,
    nameGap: real,
    position: Position,
    formatter: AxisFormatter)

  function BuildMetricAxis(settings: Settings, position: Position, range: AxisRange, extent: Extent,
                           formatter: AxisFormatter, ctx: RenderingContext, style: ChartStyle): (axis: MetricAxisOption)
    ensures axis.range == range && axis.position == position && axis.formatter == formatter
    ensures axis.name == settings.yTitleText
    ensures axis.nameGap == YAxisNameGap(extent, formatter, settings, ctx, style)
  {
    MetricAxisOption(range, settings.yTitleText, YAxisNameGap(extent, formatter, settings, ctx, style), position, formatter)
  }

  /** A Y slot gets an axis only when it has both a formatter and an extent. */
  predicate HasAxis(formatter: Option<AxisFormatter>, extent: Option<Extent>) {
    formatter.Some? && extent.Some?
  }

  function BuildMetricsAxes(chartModel: ChartModel, settings: Settings, axesFormatters: AxesFormatters,
                            ctx: RenderingContext, style: ChartStyle): (axes: seq<MetricAxisOption>)
    ensures var hasLeft := HasAxis(axesFormatters.left, chartModel.yAxisExtents.0);
      var hasRight := HasAxis(axesFormatters.right, chartModel.yAxisExtents.1);
      && |axes| == (if hasLeft then 1 else 0) + (if hasRight then 1 else 0)
      && (hasLeft ==> axes[0].position == Left && axes[0].range == GetAxisRanges(chartModel, settings).0
                      && axes[0].formatter == axesFormatters.left.value)
      && (hasRight ==> axes[|axes| - 1].position == Right && axes[|axes| - 1].range == GetAxisRanges(chartModel, settings).1
                       && axes[|axes| - 1].formatter == axesFormatters.right.value)
      && (hasLeft ==> axes[0] == BuildMetricAxis(settings, Left, GetAxisRanges(chartModel, settings).0,
                                                 chartModel.yAxisExtents.0.value, axesFormatters.left.value, ctx, style))
      && (hasRight ==> axes[|axes| - 1] == BuildMetricAxis(settings, Right, GetAxisRanges(chartModel, settings).1,
                                                           chartModel.yAxisExtents.1.value, axesFormatters.right.value, ctx, style))
    ensures forall i :: 0 <= i < |axes| ==> (axes[i].position == Left <==> i == 0 && HasAxis(axesFormatters.left, chartModel.yAxisExtents.0))
  {
    var (leftRange, rightRange) := GetAxisRanges(chartModel, settings);
    var (leftExtent, rightExtent) := chartModel.yAxisExtents;
    var hasLeftAxis := HasAxis(axesFormatters.left, leftExtent);
    var hasRightAxis := HasAxis(axesFormatters.right, rightExtent);
    (if hasLeftAxis
     then [BuildMetricAxis(settings, Left, leftRange, leftExtent.value, axesFormatters.left.value, ctx, style)]
     else [])
    + (if hasRightAxis
       then [BuildMetricAxis(settings, Right, rightRange, rightExtent.value, axesFormatters.right.value, ctx, style)]
       else [])
  }

  datatype AxesOption = AxesOption(xAxis: DimensionAxisOption, yAxis: seq<MetricAxisOption>)

  function BuildAxes(chartModel: ChartModel, settings: Settings, axesFormatters: AxesFormatters,
                     ctx: RenderingContext, style: ChartStyle, runtime: LabelRuntime): (axes: AxesOption)
    ensures axes.xAxis == BuildDimensionAxis(chartModel, settings, axesFormatters.bottom, ctx, style, runtime)
    ensures axes.yAxis == BuildMetricsAxes(chartModel, settings, axesFormatters, ctx, style)
    ensures |axes.yAxis| <= 2
    ensures forall i :: 0 <= i < |axes.yAxis| ==>
              (axes.yAxis[i].position == Left ==> i == 0) && (axes.yAxis[i].position == Right ==> i == |axes.yAxis| - 1)
    ensures (exists i :: 0 <= i < |axes.yAxis| && axes.yAxis[i].position == Left)
            <==> HasAxis(axesFormatters.left, chartModel.yAxisExtents.0)
    ensures (exists i :: 0 <= i < |axes.yAxis| && axes.yAxis[i].position == Right)
            <==> HasAxis(axesFormatters.right, chartModel.yAxisExtents.1)
  {
    AxesOption(
      BuildDimensionAxis(chartModel, settings, axesFormatters.bottom, ctx, style, runtime),
      BuildMetricsAxes(chartModel, settings, axesFormatters, ctx, style))
  }

  /** With auto range off, no resolved bound hides data, and custom bounds that widen the view survive. */
  lemma ManualRangeNeverHidesData(chartModel: ChartModel, settings: Settings)
    requires !Truthy(settings.yAutoRange)
    ensures var (left, right) := GetAxisRanges(chartModel, settings);
      && (chartModel.yAxisExtents.0.Some? ==> ShowsExtent(left, chartModel.yAxisExtents.0.value))
      && (chartModel.yAxisExtents.1.Some? ==> ShowsExtent(right, chartModel.yAxisExtents.1.value))
      && (chartModel.yAxisExtents.0.None? ==> left == EMPTY_RANGE)
      && (chartModel.yAxisExtents.1.None? ==> right == EMPTY_RANGE)
      && (chartModel.yAxisExtents.0.Some? && settings.yMin.Some? && settings.yMin.value < chartModel.yAxisExtents.0.value.min
          ==> left.min == settings.yMin)
      && (chartModel.yAxisExtents.0.Some? && settings.yMax.Some? && settings.yMax.value > chartModel.yAxisExtents.0.value.max
          ==> left.max == settings.yMax)
      && (chartModel.yAxisExtents.1.Some? && settings.yMin.Some? && settings.yMin.value < chartModel.yAxisExtents.1.value.min
          ==> right.min == settings.yMin)
      && (chartModel.yAxisExtents.1.Some? && settings.yMax.Some? && settings.yMax.value > chartModel.yAxisExtents.1.value.max
          ==> right.max == settings.yMax)
  {
  }

  /** With auto range off, a normalized stack gets the same custom ranges as any other. */
  lemma ManualRangeIgnoresStackType(chartModel: ChartModel, settings: Settings, stackType: JsValue)
    requires !Truthy(settings.yAutoRange)
    ensures GetAxisRanges(chartModel, settings) == GetAxisRanges(chartModel, settings.(stackType := stackType))
  {
  }

  /** Extent 10..90 with custom bounds 0 and 100: both ends widen. */
  lemma CustomBoundsWidenBothEnds()
    ensures GetCustomAxisRange(Extent(10.0, 90.0), Some(0.0), Some(100.0)) == AxisRange(Some(0.0), Some(100.0))
  {
  }

  /** Extent 10..90 with custom bounds 20 and 100: the minimum would crop data and is dropped. */
  lemma CroppingMinimumIsDropped()
    ensures GetCustomAxisRange(Extent(10.0, 90.0), Some(20.0), Some(100.0)) == AxisRange(None, Some(100.0))
  {
  }
}
