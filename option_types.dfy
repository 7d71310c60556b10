/** The record shapes shared by the axis and layout builders. */
module OptionTypes {
  import opened Wrappers
  import opened JsValues

  /** `{ min?: number, max?: number }`: an absent bound lets the renderer pick a rounded one. */
  datatype AxisRange = AxisRange(min: Option<real>, max: Option<real>)

  /** `(value: unknown) => string`. */
  type AxisFormatter = JsValue -> string

  /** One formatter per axis slot; a missing Y formatter means that slot is unused. */
  datatype AxesFormatters = AxesFormatters(
    left: Option<AxisFormatter>,
    right: Option<AxisFormatter>,
    bottom: AxisFormatter)
}
