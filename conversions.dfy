/** The arithmetic of a conversion (app.js:153-199, 211-232), over exact
    reals. A JavaScript computation that yields NaN, Infinity or
    `undefined` is `None` here. */
module Conversions {
  import opened Wrappers
  import opened UnitTables

  function Abs(x: real): (a: real)
    ensures a >= 0.0 && (a == x || a == -x)
  {
    if x < 0.0 then -x else x
  }

  // ---------------------------------------------------------------------
  // Linear categories: length, weight and volume

  /** A value in a unit of factor `ff` re-expressed in a unit of factor `ft`. */
  function Rescale(v: real, ff: real, ft: real): (r: real)
    requires ff > 0.0 && ft > 0.0
    ensures r * ft == v * ff
    ensures ff == ft ==> r == v
  {
    v * ff / ft
  }

  /** `v * factor[from] / factor[to]` (app.js:189-190); `None` when either
      code has no factor, where JavaScript computes NaN. */
  function LinearConvert(c: Category, v: real, from: string, to: string): (r: Option<real>)
    ensures r.Some? <==> from in Factors(c) && to in Factors(c)
    ensures r.Some? ==> r.value * Factors(c)[to] == v * Factors(c)[from]
    ensures r.Some? && from == to ==> r.value == v
  {
    if from in Factors(c) && to in Factors(c) then
      Some(Rescale(v, Factors(c)[from], Factors(c)[to]))
    else
      None
  }

  lemma CancelPositive(x: real, y: real, k: real)
    requires k > 0.0 && x * k == y * k
    ensures x == y
  {
    assert (x - y) * k == 0.0;
  }

  lemma RescaleRoundTrip(v: real, fa: real, fb: real)
    requires fa > 0.0 && fb > 0.0
    ensures Rescale(Rescale(v, fa, fb), fb, fa) == v
  {
    var w := Rescale(v, fa, fb);
    var back := Rescale(w, fb, fa);
    assert back * fa == w * fb == v * fa;
    CancelPositive(back, v, fa);
  }

  lemma RescaleCompose(v: real, fa: real, fb: real, fd: real)
    requires fa > 0.0 && fb > 0.0 && fd > 0.0
    ensures Rescale(Rescale(v, fa, fb), fb, fd) == Rescale(v, fa, fd)
  {
    var x := Rescale(Rescale(v, fa, fb), fb, fd);
    var y := Rescale(v, fa, fd);
    assert x * fd == Rescale(v, fa, fb) * fb == v * fa == y * fd;
    CancelPositive(x, y, fd);
  }

  lemma RescaleKeepsSign(v: real, fa: real, fb: real)
    requires fa > 0.0 && fb > 0.0
    ensures var r := Rescale(v, fa, fb);
      (v > 0.0 <==> r > 0.0) && (v < 0.0 <==> r < 0.0) && (v == 0.0 <==> r == 0.0)
  {
    var r := Rescale(v, fa, fb);
    SignOfProduct(r, fb);
    SignOfProduct(v, fa);
  }

  lemma SignOfProduct(x: real, k: real)
    requires k > 0.0
    ensures (x > 0.0 <==> x * k > 0.0) && (x < 0.0 <==> x * k < 0.0)
  {
    if x > 0.0 { assert x * k > 0.0; }
    if x < 0.0 { assert (-x) * k > 0.0; }
  }

  /** Converting to the unit one started from gives the value back. */
  lemma LinearIdentity(c: Category, v: real, u: string)
    requires u in Factors(c)
    ensures LinearConvert(c, v, u, u) == Some(v)
  {
    CancelPositive(Rescale(v, Factors(c)[u], Factors(c)[u]), v, Factors(c)[u]);
  }

  /** Converting a to b and back again gives the value back. */
  lemma LinearRoundTrip(c: Category, v: real, a: string, b: string)
    requires a in Factors(c) && b in Factors(c)
    ensures LinearConvert(c, LinearConvert(c, v, a, b).value, b, a) == Some(v)
  {
    var f := Factors(c);
    RescaleRoundTrip(v, f[a], f[b]);
  }

  /** Converting a to b and then b to d is converting a to d. */
  lemma LinearCompose(c: Category, v: real, a: string, b: string, d: string)
    requires a in Factors(c) && b in Factors(c) && d in Factors(c)
    ensures LinearConvert(c, LinearConvert(c, v, a, b).value, b, d) == LinearConvert(c, v, a, d)
  {
    var f := Factors(c);
    RescaleCompose(v, f[a], f[b], f[d]);
  }

  /** A conversion keeps the sign of the value, every factor being positive. */
  lemma LinearKeepsSign(c: Category, v: real, a: string, b: string)
    requires a in Factors(c) && b in Factors(c)
    ensures var r := LinearConvert(c, v, a, b).value;
      (v > 0.0 <==> r > 0.0) && (v < 0.0 <==> r < 0.0) && (v == 0.0 <==> r == 0.0)
  {
    var f := Factors(c);
    RescaleKeepsSign(v, f[a], f[b]);
  }

  /** The expected conversions: 1 km is 1000 m, 1 lb is 453.592 g, 1 gal is 3.78541 l. */
  lemma KnownLinearConversions()
    ensures LinearConvert(Length, 1.0, "km", "m") == Some(1000.0)
    ensures LinearConvert(Weight, 1.0, "lb", "g") == Some(453.592)
    ensures LinearConvert(Volume, 1.0, "gal", "l") == Some(3.78541)
    ensures LinearConvert(Length, 1000.0, "m", "km") == Some(1.0)
  {
  }

  // ---------------------------------------------------------------------
  // Temperature: conversion through Celsius (app.js:211-232)

  /** The temperature codes the conversion knows. */
  predicate IsTemperatureCode(u: string) {
    u == "C" || u == "F" || u == "K"
  }

  /** The first half of convertTemperature: a value in unit u as Celsius. */
  function ToCelsius(v: real, u: string): (r: Option<real>)
    ensures r.Some? <==> IsTemperatureCode(u)
    ensures u == "C" ==> r == Some(v)
  {
    if u == "C" then Some(v)
    else if u == "F" then Some((v - 32.0) * 5.0 / 9.0)
    else if u == "K" then Some(v - 273.15)
    else None
  }

  /** The second half of convertTemperature: Celsius as a value in unit u.
      It is the inverse of ToCelsius. */
  function FromCelsius(celsius: real, u: string): (r: Option<real>)
    ensures r.Some? <==> IsTemperatureCode(u)
    ensures r.Some? ==> ToCelsius(r.value, u) == Some(celsius)
  {
    if u == "C" then Some(celsius)
    else if u == "F" then Some(celsius * 9.0 / 5.0 + 32.0)
    else if u == "K" then Some(celsius + 273.15)
    else None
  }

  /** convertTemperature: the value unchanged when both units are the same
      (whatever they are), otherwise through Celsius; `None` where
      JavaScript yields `undefined` or NaN, that is, when a unit is unknown. */
  function ConvertTemperature(v: real, from: string, to: string): (r: Option<real>)
    ensures from == to ==> r == Some(v)
    ensures from != to ==> (r.Some? <==> IsTemperatureCode(from) && IsTemperatureCode(to))
    ensures r.Some? && from != to ==> ToCelsius(r.value, to) == ToCelsius(v, from)
  {
    if from == to then Some(v)
    else
      match ToCelsius(v, from)
      case None => None
      case Some(celsius) => FromCelsius(celsius, to)
  }

  /** Converting a to b and back again gives the value back. */
  lemma TemperatureRoundTrip(v: real, a: string, b: string)
    requires IsTemperatureCode(a) && IsTemperatureCode(b)
    ensures ConvertTemperature(ConvertTemperature(v, a, b).value, b, a) == Some(v)
  {
    if a != b {
      var w := ConvertTemperature(v, a, b).value;
      var back := ConvertTemperature(w, b, a).value;
      assert ToCelsius(back, a) == ToCelsius(w, b) == ToCelsius(v, a);
      ToCelsiusInjective(back, v, a);
    }
  }

  lemma ToCelsiusInjective(x: real, y: real, u: string)
    requires IsTemperatureCode(u) && ToCelsius(x, u) == ToCelsius(y, u)
    ensures x == y
  {
  }

  /** Examples: 0 C is 32 F, 32 F is 0 C, 0 C is 273.15 K. */
  lemma KnownTemperatures()
    ensures ConvertTemperature(0.0, "C", "F") == Some(32.0)
    ensures ConvertTemperature(32.0, "F", "C") == Some(0.0)
    ensures ConvertTemperature(0.0, "C", "K") == Some(273.15)
    ensures ConvertTemperature(-40.0, "F", "C") == Some(-40.0)
  {
  }

  // ---------------------------------------------------------------------
  // The compute step of convert (app.js:153-196)

  /** The converted value: temperature by its own formula, every other
      category by factors; `None` where the code throws "Calculation
      resulted in an invalid value". */
  function Compute(c: Category, v: real, from: string, to: string): (r: Option<real>)
    ensures r.Some? <==>
      if c == Temperature then from == to || (IsTemperatureCode(from) && IsTemperatureCode(to))
      else from in Factors(c) && to in Factors(c)
    ensures r.Some? && from == to ==> r.value == v
    ensures r.Some? && c != Temperature ==> r.value * Factors(c)[to] == v * Factors(c)[from]
    ensures r.Some? && c == Temperature && from != to ==> ToCelsius(r.value, to) == ToCelsius(v, from)
  {
    if c == Temperature then ConvertTemperature(v, from, to) else LinearConvert(c, v, from, to)
  }

  /** Every pair of codes the active category offers converts to a value. */
  lemma ComputeDefinedOnListedCodes(c: Category, v: real, from: string, to: string)
    requires from in Codes(c) && to in Codes(c)
    ensures Compute(c, v, from, to).Some?
  {
    if c == Temperature {
      TemperatureCodes();
    } else {
      FactorKeysMatchCodes(c);
    }
  }

  // ---------------------------------------------------------------------
  // Rounding: Number(x.toFixed(6)) (app.js:199)

  const Scale: real := 1000000.0

  /** x is a whole number of millionths. */
  predicate OnMicroGrid(x: real) {
    (x * Scale).Floor as real == x * Scale
  }

  /** A non-negative value rounded to the nearest millionth, ties upwards:
      the integer n nearest to a * 10^6, the larger one on a tie, over 10^6. */
  function RoundMagnitude(a: real): (m: real)
    requires a >= 0.0
    ensures m >= 0.0 && OnMicroGrid(m)
    ensures a - 0.0000005 < m <= a + 0.0000005
  {
    var n := (a * Scale + 0.5).Floor;
    assert n as real <= a * Scale + 0.5 < n as real + 1.0;
    var m := n as real / Scale;
    assert m * Scale == n as real;
    m
  }

  lemma GridNegation(m: real)
    requires OnMicroGrid(m)
    ensures OnMicroGrid(-m)
  {
    var k := (m * Scale).Floor;
    assert (-m) * Scale == (-k) as real;
  }

  /** `Number(x.toFixed(6))` over reals: the magnitude rounded to the
      nearest millionth with ties away from zero, the sign kept; values of
      magnitude 1e21 or more are printed in full by toFixed and come back
      unchanged. */
  function Round6(x: real): (r: real)
    ensures Abs(x) >= 1e21 ==> r == x
    ensures Abs(x) < 1e21 ==> OnMicroGrid(r) && Abs(r - x) <= 0.0000005
    ensures (x >= 0.0 ==> r >= 0.0) && (x <= 0.0 ==> r <= 0.0)
    ensures 0.0 <= x < 1e21 ==> x - 0.0000005 < r
    ensures -1e21 < x < 0.0 ==> r < x + 0.0000005
  {
    if Abs(x) >= 1e21 then x
    else if x < 0.0 then
      var m := RoundMagnitude(-x);
      GridNegation(m);
      -m
    else
      RoundMagnitude(x)
  }

  /** A value already on the grid of millionths is not changed by rounding;
      so rounding twice is rounding once. */
  lemma Round6OnGrid(x: real)
    requires OnMicroGrid(x)
    ensures Round6(x) == x
  {
    var a := Abs(x);
    if a < 1e21 {
      var k := (x * Scale).Floor;
      assert x * Scale == k as real;
      var n := (a * Scale + 0.5).Floor;
      if x >= 0.0 {
        assert a * Scale == k as real;
        assert n == k;
      } else {
        assert a * Scale == (-k) as real;
        assert n == -k;
      }
    }
  }

  /** Rounding is idempotent. */
  lemma Round6Idempotent(x: real)
    ensures Round6(Round6(x)) == Round6(x)
  {
    if Abs(x) < 1e21 {
      Round6OnGrid(Round6(x));
    }
  }
}
