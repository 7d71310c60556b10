/**
 * What the axis and layout builders are given: the computed chart model, the
 * settings they read, the rendering context and the chart style constants.
 */
module ChartInputs {
  import opened Wrappers
  import opened JsValues

  /** `[min, max]`, the span of the series drawn against one Y axis. */
  datatype Extent = Extent(min: real, max: real)

  /** One dataset row, keyed by column. */
  type Datum = map<string, JsValue>

  /** `datum[key]`: `undefined` when the row has no such key. */
  function DatumValue(datum: Datum, key: string): JsValue {
    if key in datum then datum[key] else Undefined
  }

  /**
   * The dimension (X) column: the row key that holds its values, and whether
   * `isNumeric` holds of the column.
   */
  datatype DimensionModel = DimensionModel(dataKey: string, isNumericColumn: bool)

  /** The parts of `CartesianChartModel` the builders read; `yAxisExtents` is `[left, right]`. */
  datatype ChartModel = ChartModel(
    dataset: seq<Datum>,
    dimensionModel: DimensionModel,
    yAxisExtents: (Option<Extent>, Option<Extent>))

  /** The settings keys the builders read, each as the raw JavaScript value. */
  datatype Settings = Settings(
    stackType: JsValue,         // stackable.stack_type
    yAutoRange: JsValue,        // graph.y_axis.auto_range
    yMin: Option<real>,         // graph.y_axis.min
    yMax: Option<real>,         // graph.y_axis.max
    xScale: JsValue,            // graph.x_axis.scale
    xAxisEnabled: JsValue,      // graph.x_axis.axis_enabled
    yLabelsEnabled: JsValue,    // graph.y_axis.labels_enabled
    yTitleText: Option<string>, // graph.y_axis.title_text
    xTitleText: Option<string>) // graph.x_axis.title_text

  /** The style object handed to `measureText`. */
  datatype FontStyle = FontStyle(size: real, weight: real, family: string)

  /** The rendering context: colour lookup, text measurement and the font family. */
  datatype RenderingContext = RenderingContext(
    getColor: string -> string,
    measureText: (string, FontStyle) -> real,
    fontFamily: string)

  datatype TextStyle = TextStyle(size: real, weight: real)

  /** The `CHART_STYLE` constants, whose values are not part of this model. */
  datatype ChartStyle = ChartStyle(axisName: TextStyle, axisTicks: TextStyle, axisNamePadding: real)

  /** `{ ...CHART_STYLE.axisTicks, family: fontFamily }`. */
  function TickFontStyle(style: ChartStyle, ctx: RenderingContext): FontStyle {
    FontStyle(style.axisTicks.size, style.axisTicks.weight, ctx.fontFamily)
  }

  /**
   * The library calls made by the dimension label formatter:
   * `moment(value).format("YYYY-MM-DDTHH:mm:ss")` and `parseInt(value, 10)`.
   */
  datatype LabelRuntime = LabelRuntime(formatTimestamp: string -> string, parseInt: string -> JsValue)
}
