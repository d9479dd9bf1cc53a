/**
 * What document validation reports: one error per failing path, with the
 * messages the schemas declare or, where a schema declares none, the text of
 * the document library's built-in required, enum and min validators.
 */
module Schema {

  datatype FieldError = FieldError(path: string, message: string)

  /** The messages of the errors, in order: `Object.values(error.errors).map(v => v.message)`. */
  function Messages(errors: seq<FieldError>): (r: seq<string>)
    ensures |r| == |errors|
    ensures forall i :: 0 <= i < |errors| ==> r[i] == errors[i].message
  {
    seq(|errors|, i requires 0 <= i < |errors| => errors[i].message)
  }

  function DigitChar(d: nat): char
    requires d < 10
  {
    "0123456789"[d]
  }

  /** Decimal rendering of a natural number. */
  function NatToString(n: nat): string
    decreases n
  {
    if n < 10 then [DigitChar(n)] else NatToString(n / 10) + [DigitChar(n % 10)]
  }

  /** Decimal rendering of an integer, with a leading '-' when negative. */
  function IntToString(i: int): string {
    if i < 0 then "-" + NatToString(-i) else NatToString(i)
  }

  function RequiredMessage(path: string): string {
    "Path `" + path + "` is required."
  }

  function EnumMessage(path: string, value: string): string {
    "`" + value + "` is not a valid enum value for path `" + path + "`."
  }

  function MinMessage(path: string, value: int, min: int): string {
    "Path `" + path + "` (" + IntToString(value) + ") is less than minimum allowed value (" + IntToString(min) + ")."
  }
}
