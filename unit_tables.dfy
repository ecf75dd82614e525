/** The static tables of the converter: the unit list of each category
    (app.js:30-63) and the linear conversion factors (app.js:158-186). */
module UnitTables {

  /** The four conversion categories (the tabs of app.js:22-27). */
  datatype Category = Length | Weight | Temperature | Volume

  /** One entry of a unit list: a display name and a unit code. */
  datatype Unit = Unit(name: string, code: string)

  /** The unit list of a category, in display order. */
  function UnitOptions(c: Category): (units: seq<Unit>)
    ensures |units| > 0
  {
    match c
    case Length => [
      Unit("Meters", "m"), Unit("Kilometers", "km"), Unit("Centimeters", "cm"),
      Unit("Millimeters", "mm"), Unit("Inches", "in"), Unit("Feet", "ft"),
      Unit("Yards", "yd"), Unit("Miles", "mi")]
    case Weight => [
      Unit("Grams", "g"), Unit("Kilograms", "kg"), Unit("Milligrams", "mg"),
      Unit("Pounds", "lb"), Unit("Ounces", "oz"), Unit("Tons", "ton")]
    case Temperature => [
      Unit("Celsius", "C"), Unit("Fahrenheit", "F"), Unit("Kelvin", "K")]
    case Volume => [
      Unit("Liters", "l"), Unit("Milliliters", "ml"), Unit("Cubic Meters", "m3"),
      Unit("Gallons (US)", "gal"), Unit("Quarts", "qt"), Unit("Pints", "pt"),
      Unit("Fluid Ounces", "floz")]
  }

  /** The set of unit codes a category offers. */
  function Codes(c: Category): set<string> {
    set u | u in UnitOptions(c) :: u.code
  }

  /** No two entries of a unit list share a code. */
  predicate DistinctCodes(units: seq<Unit>) {
    forall i, j :: 0 <= i < j < |units| ==> units[i].code != units[j].code
  }

  /** How many base units (metre, gram, litre) one unit of each code is.
      The temperature category has no factor table. */
  function Factors(c: Category): (f: map<string, real>)
    ensures forall code :: code in f ==> f[code] > 0.0
  {
    match c
    case Length => map[
      "m" := 1.0, "km" := 1000.0, "cm" := 0.01, "mm" := 0.001,
      "in" := 0.0254, "ft" := 0.3048, "yd" := 0.9144, "mi" := 1609.344]
    case Weight => map[
      "g" := 1.0, "kg" := 1000.0, "mg" := 0.001, "lb" := 453.592,
      "oz" := 28.3495, "ton" := 907185.0]
    case Volume => map[
      "l" := 1.0, "ml" := 0.001, "m3" := 1000.0, "gal" := 3.78541,
      "qt" := 0.946353, "pt" := 0.473176, "floz" := 0.0295735]
    case Temperature => map[]
  }

  /** The base unit of each linear category: the unit whose factor is 1. */
  function BaseUnit(c: Category): (code: string)
    requires c != Temperature
    ensures code in Factors(c) && Factors(c)[code] == 1.0
    ensures exists i :: 0 <= i < |UnitOptions(c)| && UnitOptions(c)[i].code == code
  {
    match c
    case Length => assert UnitOptions(c)[0].code == "m"; "m"
    case Weight => assert UnitOptions(c)[0].code == "g"; "g"
    case Volume => assert UnitOptions(c)[0].code == "l"; "l"
  }

  /** Every unit list has pairwise distinct codes. */
  lemma CodesAreDistinct(c: Category)
    ensures DistinctCodes(UnitOptions(c))
  {
  }

  /** The codes the length list offers. */
  lemma LengthCodes()
    ensures Codes(Length) == {"m", "km", "cm", "mm", "in", "ft", "yd", "mi"}
  {
    var units, codes := UnitOptions(Length), {"m", "km", "cm", "mm", "in", "ft", "yd", "mi"};
    forall code | code in Codes(Length) ensures code in codes {
      var u :| u in units && u.code == code;
    }
    assert units[0] in units && units[1] in units && units[2] in units && units[3] in units;
    assert units[4] in units && units[5] in units && units[6] in units && units[7] in units;
    assert codes <= Codes(Length);
  }

  /** The codes the weight list offers. */
  lemma WeightCodes()
    ensures Codes(Weight) == {"g", "kg", "mg", "lb", "oz", "ton"}
  {
    var units, codes := UnitOptions(Weight), {"g", "kg", "mg", "lb", "oz", "ton"};
    forall code | code in Codes(Weight) ensures code in codes {
      var u :| u in units && u.code == code;
    }
    assert units[0] in units && units[1] in units && units[2] in units && units[3] in units;
    assert units[4] in units && units[5] in units;
    assert codes <= Codes(Weight);
  }

  /** The codes the temperature list offers. */
  lemma TemperatureCodes()
    ensures Codes(Temperature) == {"C", "F", "K"}
  {
    var units, codes := UnitOptions(Temperature), {"C", "F", "K"};
    forall code | code in Codes(Temperature) ensures code in codes {
      var u :| u in units && u.code == code;
    }
    assert units[0] in units && units[1] in units && units[2] in units;
    assert codes <= Codes(Temperature);
  }

  /** The codes the volume list offers. */
  lemma VolumeCodes()
    ensures Codes(Volume) == {"l", "ml", "m3", "gal", "qt", "pt", "floz"}
  {
    var units, codes := UnitOptions(Volume), {"l", "ml", "m3", "gal", "qt", "pt", "floz"};
    forall code | code in Codes(Volume) ensures code in codes {
      var u :| u in units && u.code == code;
    }
    assert units[0] in units && units[1] in units && units[2] in units && units[3] in units;
    assert units[4] in units && units[5] in units && units[6] in units;
    assert codes <= Codes(Volume);
  }

  /** For the linear categories, the factor table has an entry for exactly
      the codes the unit list offers. */
  lemma FactorKeysMatchCodes(c: Category)
    requires c != Temperature
    ensures Factors(c).Keys == Codes(c)
  {
    match c
    case Length => LengthCodes();
    case Weight => WeightCodes();
    case Volume => VolumeCodes();
  }

  /** i is the first entry of units whose code is `code`. */
  predicate IsFirstWithCode(units: seq<Unit>, code: string, i: int) {
    0 <= i < |units| && units[i].code == code &&
    forall j :: 0 <= j < i ==> units[j].code != code
  }

  /** `units.find(u => u.value === code)?.name || ''`: the name of the
      first entry with that code, or '' when there is none. */
  function FindName(units: seq<Unit>, code: string): (name: string)
    ensures (forall i :: 0 <= i < |units| ==> units[i].code != code) ==> name == ""
    ensures forall i :: IsFirstWithCode(units, code, i) ==> name == units[i].name
  {
    if units == [] then ""
    else if units[0].code == code then units[0].name
    else
      assert forall i :: IsFirstWithCode(units, code, i) ==> i > 0 && IsFirstWithCode(units[1..], code, i - 1);
      FindName(units[1..], code)
  }

  /** Within a category, looking up the code of an entry finds that
      entry's name, the codes being distinct. */
  lemma NameOfListedCode(c: Category, code: string)
    ensures code in Codes(c) ==>
      exists i :: 0 <= i < |UnitOptions(c)| && UnitOptions(c)[i] == Unit(FindName(UnitOptions(c), code), code)
  {
    if code !in Codes(c) { return; }
    var units := UnitOptions(c);
    var u :| u in units && u.code == code;
    var i :| 0 <= i < |units| && units[i] == u;
    CodesAreDistinct(c);
    assert IsFirstWithCode(units, code, i);
  }
}
