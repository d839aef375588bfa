/**
 * The JavaScript number operations the forms rely on. Their exact behaviour
 * (`Number` parsing, `parseFloat`, binary floating point, the rounding of
 * `toFixed`) is not modelled: a `Numerics` value supplies them, and every result
 * stated about them holds whatever they do. Numbers are exact reals; `NaN` is
 * `None`.
 */
module JsNumerics {
  import opened Wrappers

  datatype Numerics = Numerics(
    /** `!isNaN(Number(s))` */
    isNumeric: string -> bool,
    /** `parseFloat(s)`, `None` where it gives `NaN` */
    parseFloat: string -> Option<real>,
    /** `x.toFixed(2)` */
    toFixed2: real -> string,
    /** `x.toFixed(1)` */
    toFixed1: real -> string)

  /** Kilograms to the pound. */
  const KgPerLb: real := 0.453592

  /** Centimetres to the inch. */
  const CmPerInch: real := 2.54

  /** Metres to the inch. */
  const MetresPerInch: real := 0.0254

  /** `(parseFloat(s) * factor).toFixed(2)`; `NaN.toFixed(2)` is the string "NaN". */
  function ScaledFixed2(num: Numerics, s: string, factor: real): string
  {
    match num.parseFloat(s)
    case None => "NaN"
    case Some(x) => num.toFixed2(x * factor)
  }
}
