/** What the validators validateInput and validateUnits decide
    (app.js:88-132), as functions of the fields they read, and the error
    record they write (app.js:14). */
module Validation {
  import opened Conversions

  /** The raw content of the value field: empty (null or ''), text that is
      not a number, or a number. */
  datatype Input = Empty | NotANumber | Num(x: real)

  const ValueMissing: string := "Please enter a value"
  const ValueNotNumber: string := "Please enter a valid number"
  const ValueTooLarge: string := "Value is too large for precise conversion"
  const UnitMissing: string := "Please select a unit"

  /** The largest magnitude the converter accepts; it is itself accepted. */
  const MaxMagnitude: real := 1e15

  /** The per-field error messages; '' means no error. */
  datatype Errors = Errors(value: string, fromUnit: string, toUnit: string) {
    /** The messages in the order `Object.values` lists them. */
    function Values(): (s: seq<string>)
      ensures |s| == 3 && s[0] == value && s[1] == fromUnit && s[2] == toUnit
    {
      [value, fromUnit, toUnit]
    }
  }

  const NoErrors: Errors := Errors("", "", "")

  /** Whether some string of s is not empty (`some(error => error !== '')`). */
  function AnyNonEmpty(s: seq<string>): (b: bool)
    ensures b <==> exists i :: 0 <= i < |s| && s[i] != ""
  {
    if s == [] then false
    else if s[0] != "" then true
    else
      assert forall i :: 1 <= i < |s| ==> s[i] == s[1..][i - 1];
      AnyNonEmpty(s[1..])
  }

  /** The message validateInput leaves in the value field: the first check
      that fails, in the order empty, not a number, too large; '' when the
      value is accepted. */
  function InputError(v: Input): (msg: string)
    ensures msg == "" <==> v.Num? && Abs(v.x) <= MaxMagnitude
    ensures v.Empty? ==> msg == ValueMissing
    ensures v.NotANumber? ==> msg == ValueNotNumber
    ensures v.Num? && Abs(v.x) > MaxMagnitude ==> msg == ValueTooLarge
  {
    match v
    case Empty => ValueMissing
    case NotANumber => ValueNotNumber
    case Num(x) => if Abs(x) > MaxMagnitude then ValueTooLarge else ""
  }

  /** The messages validateUnits leaves in the two unit fields. Because it
      returns at the first missing unit, a missing source unit is the only
      error reported even when the target unit is missing too. */
  function UnitErrors(from: string, to: string): (e: (string, string))
    ensures e.0 != "" <==> from == ""
    ensures e.1 != "" <==> from != "" && to == ""
    ensures e.0 == "" || e.1 == ""
    ensures (e.0 == "" && e.1 == "") <==> from != "" && to != ""
    ensures e.0 in {"", UnitMissing} && e.1 in {"", UnitMissing}
  {
    if from == "" then (UnitMissing, "")
    else if to == "" then ("", UnitMissing)
    else ("", "")
  }

  /** Examples: '', 'abc' and 1e16 are rejected;
      0, -5.5 and 1e15 are accepted. */
  lemma InputExamples()
    ensures InputError(Empty) == ValueMissing
    ensures InputError(NotANumber) == ValueNotNumber
    ensures InputError(Num(1e16)) == ValueTooLarge
    ensures InputError(Num(-1e16)) == ValueTooLarge
    ensures InputError(Num(0.0)) == ""
    ensures InputError(Num(-5.5)) == ""
    ensures InputError(Num(1e15)) == "" && InputError(Num(-1e15)) == ""
  {
  }
}
