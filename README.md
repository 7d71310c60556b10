# Cartesian axis layout and filter-value rules, modelled in Dafny

This project models two pure parts of the Metabase frontend.

1. **The cartesian axis and layout engine** (`option/axis.ts`, `option/layout.ts`, with the
   record shapes of `option/types.ts`). Given a chart model (dataset rows, the dimension
   column, the extents of the left and right Y series) and the visualization settings, it
   resolves the Y ranges. It also measures how much room the tick labels and axis titles need,
   sizes the plot grid, and assembles the ECharts descriptors for the X axis and for up to two
   Y axes.
2. **Filter-picker value rules** for numeric and string filters (`utils.ts` and `constants.ts`
   of `NumberFilterPicker` and `StringFilterPicker`). Each operator has an arity
   (`valueCount`) in a constant table. `getDefaultValues` resizes a value list to that arity,
   and `hasValidValues` decides whether the list can be submitted.

Files and modules:

- `wrappers.dfy` (`Wrappers`): `Option`, used for `undefined` and absent keys.
- `js_values.dfy` (`JsValues`): the JavaScript primitives that settings hold, and JavaScript
  truthiness. `graph.x_axis.axis_enabled` and `graph.y_axis.labels_enabled` are kept as raw
  JavaScript values. This keeps `!x`, `x === true` and `x !== false` distinct, as in the code.
- `option_types.dfy` (`OptionTypes`): `AxisRange`, `AxisFormatter` and `AxesFormatters`.
- `chart_inputs.dfy` (`ChartInputs`): the chart model, the settings keys read, the rendering
  context, the `CHART_STYLE` constants, and the two library calls of the dimension label
  formatter.
- `layout.dfy` (`Layout`): tick space, name gaps and the grid.
- `axis.dfy` (`Axis`): ranges, axis type, rotation, and the axis descriptors.
- `number_filter_constants.dfy`, `number_filter_utils.dfy`, `string_filter_constants.dfy`,
  `string_filter_utils.dfy`: the filter-picker tables and rules.

Foreign pieces become parameters:

- `measureText`, `getColor` and `fontFamily` are fields of `RenderingContext`.
- The `CHART_STYLE` values are a `ChartStyle` argument. `style.ts` is not part of this model.
- `moment(value).format(...)` and `parseInt(value, 10)` are fields of `LabelRuntime`.
- `isNumeric(column)` is a boolean of the dimension model.
- Formatters are Dafny functions from JavaScript values to strings.

Lengths are `real`. `Math.max()` of an empty dataset is `-Infinity` in the code. This is
modelled explicitly as `Layout.Extended.NegInfinity`: with an empty dataset and a rotated label
mode, the X tick height and the X name gap are `-Infinity`. `Math.sqrt(2)` is the constant
`Layout.SQRT2`, written as 1.4142135623730951: the shortest decimal that rounds to the
double `Math.sqrt(2)` returns, not that double's exact value. The rotate-45 height is stated as "times `SQRT2` gives the
rotate-90 height".

Three quirks of the code are kept as written:

- Normalized stacking forces the `[0, 1]` range only under auto range (axis.ts:49-51). With
  auto range off, a normalized stack still takes its custom range
  (`Axis.ManualRangeIgnoresStackType`).
- The Y tick width is gated on the X-axis flag `graph.x_axis.axis_enabled` (layout.ts:19).
- The Y name gap treats `labels_enabled` as on unless it is exactly `false`. The grid requires
  it to be truthy (`Layout.GridTitleTestIsStricter`).

A custom bound is kept only when it is strictly outside the extent (axis.ts:36-37): a custom
minimum equal to the data minimum is dropped.

## Model

| member | source | states |
|---|---|---|
| Axis.GetCustomAxisRange | frontend/src/metabase/visualizations/echarts/cartesian/option/axis.ts:28-40 | the range never cuts into the extent; a custom min is kept iff it is strictly below the extent min, a custom max iff strictly above the extent max, and a kept bound is the custom value itself |
| Axis.SlotRange | frontend/src/metabase/visualizations/echarts/cartesian/option/axis.ts:57-62 | with auto range off, a slot with no extent gets `{}`; a slot with an extent gets the custom range of that extent under `graph.y_axis.min`/`max`, which shows the whole extent |
| Axis.GetAxisRanges | frontend/src/metabase/visualizations/echarts/cartesian/option/axis.ts:42-63 | with auto range on, both slots get the same range, `{min: 0, max: 1}` iff `stack_type` is `"normalized"`, else `{}`; with it off, each slot gets its own custom range |
| Axis.ManualRangeNeverHidesData | frontend/src/metabase/visualizations/echarts/cartesian/option/axis.ts:54-62 | with auto range off, neither returned range hides data of its slot, an unused slot yields `{}`, and a custom bound that widens a used slot's view survives in that slot |
| Axis.ManualRangeIgnoresStackType | frontend/src/metabase/visualizations/echarts/cartesian/option/axis.ts:46-62 | with auto range off, the stack type has no effect on the ranges, so a normalized stack is not forced to `[0, 1]` |
| Axis.CustomBoundsWidenBothEnds | frontend/src/metabase/visualizations/echarts/cartesian/option/axis.ts:36-37 | extent 10..90 with custom bounds 0 and 100 resolves to `{min: 0, max: 100}` |
| Axis.CroppingMinimumIsDropped | frontend/src/metabase/visualizations/echarts/cartesian/option/axis.ts:36-37 | extent 10..90 with custom bounds 20 and 100 resolves to `{max: 100}`: the cropping minimum is dropped |
| Axis.GetXAxisType | frontend/src/metabase/visualizations/echarts/cartesian/option/axis.ts:91-101 | the axis is `time` iff the scale is `"timeseries"`, `value` iff it is `"linear"`, and `category` for every other value |
| Axis.GetRotateAngle | frontend/src/metabase/visualizations/echarts/cartesian/option/axis.ts:103-112 | the angle is 45 iff the mode is `"rotate-45"`, 90 iff it is `"rotate-90"`, and undefined otherwise |
| Axis.DimensionLabel | frontend/src/metabase/visualizations/echarts/cartesian/option/axis.ts:152-165 | a dimension label is the formatter's output with exactly one leading and one trailing space; the formatter gets the timestamp string on a time axis, the `parseInt` result for a numeric column, and the raw text otherwise |
| Axis.BuildDimensionAxis | frontend/src/metabase/visualizations/echarts/cartesian/option/axis.ts:114-173 | the X axis has the mapped type, no boundary gap iff its type is `value` (else 2% on each side), labels shown iff `axis_enabled` is truthy, the mapped rotation, the X title, the X name gap, hidden ticks and split lines, and the space-padded label formatter |
| Axis.BuildMetricAxis | frontend/src/metabase/visualizations/echarts/cartesian/option/axis.ts:175-210 | a Y axis carries the given range, position and formatter, the Y title and the Y name gap of its extent |
| Axis.BuildMetricsAxes | frontend/src/metabase/visualizations/echarts/cartesian/option/axis.ts:212-251 | the left axis is present iff the left formatter and extent are both present, and the right likewise; there are 0 to 2 axes, left first; each is the metric axis built for its slot: its position, its slot's range and formatter, the Y title, and the name gap measured on its own slot's extent |
| Axis.BuildAxes | frontend/src/metabase/visualizations/echarts/cartesian/option/axis.ts:253-273 | the X axis is built with the bottom formatter; there are at most two Y axes, a left one only first and a right one only last, each present iff its slot has both a formatter and an extent |
| Layout.MaxOf | frontend/src/metabase/visualizations/echarts/cartesian/option/layout.ts:61 | `Math.max` over the tick widths is `-Infinity` iff there are none, and is otherwise at least every width and equal to one of them |
| Layout.YAxisTicksWidth | frontend/src/metabase/visualizations/echarts/cartesian/option/layout.ts:13-33 | 0 when the X-axis flag is falsy; otherwise at least the measured widths of the formatted extent min and max and equal to one of them |
| Layout.XAxisTicksHeight | frontend/src/metabase/visualizations/echarts/cartesian/option/layout.ts:35-74 | 0 when hidden; the tick font size for `true` or `"compact"`; for rotate-90 the widest row label; for rotate-45 that width over the square root of two; `-Infinity` for a rotated mode on an empty dataset; any other truthy mode warns and gives the tick font size |
| Layout.Rotate45IsRotate90OverSqrt2 | frontend/src/metabase/visualizations/echarts/cartesian/option/layout.ts:63-69 | on the same data, the rotate-45 height is the rotate-90 height divided by `Math.sqrt(2)` |
| Layout.WidestOfThreeLabels | frontend/src/metabase/visualizations/echarts/cartesian/option/layout.ts:51-64 | under `"rotate-90"`, a three-row dataset whose formatted labels measure 40, 55 and 30 gets an X tick height of 55 |
| Layout.YAxisNameGap | frontend/src/metabase/visualizations/echarts/cartesian/option/layout.ts:76-94 | 0 when `labels_enabled` is exactly `false` or there is no Y title; otherwise the Y tick width plus the name padding |
| Layout.XAxisNameGap | frontend/src/metabase/visualizations/echarts/cartesian/option/layout.ts:96-106 | the X tick height plus the name padding, and `-Infinity` when that height is |
| Layout.XAxisNameGapIgnoresTitle | frontend/src/metabase/visualizations/echarts/cartesian/option/layout.ts:96-106 | the X name gap does not depend on the X title |
| Layout.GetChartGrid | frontend/src/metabase/visualizations/echarts/cartesian/option/layout.ts:108-132 | `top` is 0 and labels are contained; `left` and `right` are equal, set iff `labels_enabled` is truthy and a Y title exists; `bottom` is set iff `axis_enabled` is truthy; every set side is the title font size plus the name padding |
| Layout.GridTitleTestIsStricter | frontend/src/metabase/visualizations/echarts/cartesian/option/layout.ts:113-115 | whenever the grid reserves Y title space, the name gap (layout.ts:82-84) does too; with `labels_enabled` unset and a title present, the name gap is reserved while the grid side is not |
| NumberFilterConstants.OperatorOptions | frontend/src/metabase/common/components/FilterPicker/NumberFilterPicker/constants.ts:3-38 | every entry's `operator` is its key; `=` and `!=` have no arity; `>`, `<`, `>=`, `<=` have arity 1; `between` has 2; `is-null` and `not-null` have 0 |
| NumberFilterConstants.OperatorNamed | frontend/src/metabase/common/components/FilterPicker/NumberFilterPicker/constants.ts:3-38 | a name found in the table names the operator whose key it is |
| NumberFilterConstants.NineOperators | frontend/src/metabase/common/components/FilterPicker/NumberFilterPicker/constants.ts:3-38 | the table has exactly nine entries, with distinct keys, covering every operator |
| NumberFilterConstants.KeyRoundTrip | frontend/src/metabase/common/components/FilterPicker/NumberFilterPicker/constants.ts:3-38 | looking up an operator's key gives back that operator |
| NumberFilterUtils.GetDefaultValues | frontend/src/metabase/common/components/FilterPicker/NumberFilterPicker/utils.ts:4-13 | the length is the operator's arity when it has one, else the input length, with `[]` for a missing input; each entry is the input's entry at that index if one exists, else `""` |
| NumberFilterUtils.Every | frontend/src/metabase/common/components/FilterPicker/NumberFilterPicker/utils.ts:20 | true iff no entry is `""` |
| NumberFilterUtils.HasValidValues | frontend/src/metabase/common/components/FilterPicker/NumberFilterPicker/utils.ts:15-21 | true iff the list is at least as long as the arity (1 by default) and no entry is `""` |
| NumberFilterUtils.GetDefaultValuesIdempotent | frontend/src/metabase/common/components/FilterPicker/NumberFilterPicker/utils.ts:8-12 | resizing an already resized list changes nothing |
| NumberFilterUtils.DefaultValuesValidity | frontend/src/metabase/common/components/FilterPicker/NumberFilterPicker/utils.ts:8-20 | a resized list is valid iff the input had at least the resized length, that length meets the arity, and none of those input entries is `""` |
| NumberFilterUtils.ZeroArityDefaultsAreValid | frontend/src/metabase/common/components/FilterPicker/NumberFilterPicker/utils.ts:8-20 | for `is-null` and `not-null` the resized list is empty and valid |
| StringFilterConstants.OperatorOptions | frontend/src/metabase/common/components/FilterPicker/StringFilterPicker/constants.ts:3-38 | every entry's `operator` is its key; `=` and `!=` have no arity and no case-sensitivity option; the four text-match operators have arity 1 and the option set to true; `is-empty` and `not-empty` have 0; the option appears only with arity 1 |
| StringFilterConstants.OperatorNamed | frontend/src/metabase/common/components/FilterPicker/StringFilterPicker/constants.ts:3-38 | a name found in the table names the operator whose key it is |
| StringFilterConstants.EightOperators | frontend/src/metabase/common/components/FilterPicker/StringFilterPicker/constants.ts:3-38 | the table has exactly eight entries, with distinct keys, covering every operator |
| StringFilterConstants.KeyRoundTrip | frontend/src/metabase/common/components/FilterPicker/StringFilterPicker/constants.ts:3-38 | looking up an operator's key gives back that operator |
| StringFilterUtils.GetDefaultValues | frontend/src/metabase/common/components/FilterPicker/StringFilterPicker/utils.ts:4-13 | the length is the operator's arity when it has one, else the input length, with `[]` for a missing input; the input prefix is kept and the rest is padded with `""` |
| StringFilterUtils.Every | frontend/src/metabase/common/components/FilterPicker/StringFilterPicker/utils.ts:20 | true iff every string is non-empty |
| StringFilterUtils.HasValidValues | frontend/src/metabase/common/components/FilterPicker/StringFilterPicker/utils.ts:15-21 | true iff the list is at least as long as the arity (1 by default) and every string is non-empty |
| StringFilterUtils.GetDefaultValuesIdempotent | frontend/src/metabase/common/components/FilterPicker/StringFilterPicker/utils.ts:8-12 | resizing an already resized list changes nothing |
| StringFilterUtils.DefaultValuesValidity | frontend/src/metabase/common/components/FilterPicker/StringFilterPicker/utils.ts:8-20 | a resized list is valid iff the input had at least the resized length, that length meets the arity, and none of those input strings is empty |
| StringFilterUtils.EqualityRejectsEmptyList | frontend/src/metabase/common/components/FilterPicker/StringFilterPicker/utils.ts:19-20 | for `=` and `!=`, the empty list, and the resized missing input, are rejected |
| StringFilterUtils.ZeroArityDefaultsAreValid | frontend/src/metabase/common/components/FilterPicker/StringFilterPicker/utils.ts:8-20 | for `is-empty` and `not-empty` the resized list is empty and valid |

## Left out

- Styling objects are not modelled: colours from `getColor`, fonts, `nameLocation`, `nameTextStyle`, `axisLine`, `hideOverlap`, and the dashed `splitLine` of the Y axes. They carry no decisions.
- `console.warn` for an unknown `axis_enabled` mode is the `warned` flag of `Layout.TicksHeight`. The message text is not modelled.
- Floating point: lengths are exact reals. `/ Math.sqrt(2)` is real division by `Layout.SQRT2`, the shortest decimal that rounds to the double `Math.sqrt(2)` returns. Among the non-finite numbers, the model has `-Infinity` (only as `Math.max()` of nothing, in `Layout.Extended`) and `NaN` (`JsValues.JsValue.NaN`, falsy, which `parseInt` may return). Infinite numbers as settings or row values are not modelled.
- `measureText`, `getColor`, `fontFamily`, the `CHART_STYLE` values, `moment(...).format`, `parseInt` and `isNumeric` are uninterpreted parameters. Their own behaviour is not part of this model.
- `buildMetricsAxes` passes a seventh argument, the Y title, to `buildMetricAxis` for the left axis. JavaScript ignores it, and so does the model.
- Operator names are the `NumberOperator` and `StringOperator` datatypes, as the TypeScript types demand. A name outside the operator type is not modelled beyond `OperatorNamed` returning `None` for every string that is not an own key of the record. Looking up such a name in JavaScript either gives `undefined`, and destructuring it throws, or for an inherited key such as `"toString"` gives an `Object.prototype` member, and destructuring uses the default `valueCount`.
- Determinism: every member except `Layout.GetChartGrid` is a function, so equal inputs give equal outputs by construction. That method's ensures fix all five grid fields, so equal inputs give equal outputs there too. No lemma states it.
