/** The conversion state of the widget (app.js:7-14) and the operations
    that update it: the validators, convert, swapUnits, reset, the
    activeTab watcher, getUnitName and hasErrors. The watchers on the value
    and on the two units (app.js:78-85) are modelled as setters that call
    the validator they trigger. */
module ConverterEngine {
  import opened Wrappers
  import opened UnitTables
  import opened Conversions
  import opened Validation

  /** How a convert ended: stopped by a validator, stopped by a computed
      value that is not finite (the alert of app.js:203), or with a new
      stored result. */
  datatype Outcome = Rejected | CalculationFailed | Stored(value: real)

  /** The part of the state convert writes, with how it ended. */
  datatype Effect = Effect(errors: Errors, result: Option<real>, outcome: Outcome)

  /** What convert does, from the category, the value, the two units, and
      the errors and result before it runs (app.js:136-208). */
  function ConvertEffect(tab: Category, v: Input, from: string, to: string,
                         e: Errors, r: Option<real>): (s: Effect)
    ensures s.errors.value == InputError(v)
    ensures InputError(v) != "" ==>
      s.errors.fromUnit == e.fromUnit && s.errors.toUnit == e.toUnit
    ensures InputError(v) == "" ==>
      (s.errors.fromUnit, s.errors.toUnit) == UnitErrors(from, to)
    ensures s.outcome.Rejected? <==> InputError(v) != "" || from == "" || to == ""
    ensures s.outcome.Stored? <==>
      InputError(v) == "" && from != "" && to != "" && Compute(tab, v.x, from, to).Some?
    ensures s.outcome.Stored? ==>
      s.errors == NoErrors && s.result == Some(s.outcome.value) &&
      s.outcome.value == Round6(Compute(tab, v.x, from, to).value)
    ensures !s.outcome.Stored? ==> s.result == r
  {
    var e1 := e.(value := InputError(v));
    if InputError(v) != "" then
      Effect(e1, r, Rejected)
    else
      var ue := UnitErrors(from, to);
      var e2 := e1.(fromUnit := ue.0, toUnit := ue.1);
      if from == "" || to == "" then
        Effect(e2, r, Rejected)
      else
        match Compute(tab, v.x, from, to)
        case None => Effect(e2, r, CalculationFailed)
        case Some(x) => Effect(e2, Some(Round6(x)), Stored(Round6(x)))
  }

  /** A unit code is never empty, so a listed unit is a selected unit. */
  lemma ListedCodesNonEmpty(c: Category)
    ensures "" !in Codes(c)
  {
    forall code | code in Codes(c) ensures code != "" {
      var u :| u in UnitOptions(c) && u.code == code;
      assert |u.code| > 0;
    }
  }

  /** With an accepted value and two units the category offers, convert
      always stores a result. */
  lemma ConvertListedUnits(tab: Category, v: Input, from: string, to: string,
                           e: Errors, r: Option<real>)
    requires InputError(v) == ""
    requires from in Codes(tab) && to in Codes(tab)
    ensures ConvertEffect(tab, v, from, to, e, r).outcome.Stored?
  {
    ListedCodesNonEmpty(tab);
    ComputeDefinedOnListedCodes(tab, v.x, from, to);
  }

  /** Converting to the unit one started from stores the value itself,
      rounded to six decimals. */
  lemma ConvertSameUnit(tab: Category, v: Input, u: string, e: Errors, r: Option<real>)
    requires InputError(v) == ""
    requires u in Codes(tab)
    ensures ConvertEffect(tab, v, u, u, e, r).result == Some(Round6(v.x))
  {
    ListedCodesNonEmpty(tab);
    if tab != Temperature {
      FactorKeysMatchCodes(tab);
      LinearIdentity(tab, v.x, u);
    }
  }

  /** Examples of stored results, after rounding:
      1 km is 1000 m, 1 lb is 453.592 g, 1 gal is 3.78541 l, 0 C is 32 F
      and 273.15 K. */
  lemma KnownResultsStored(e: Errors, r: Option<real>)
    ensures ConvertEffect(Length, Num(1.0), "km", "m", e, r).result == Some(1000.0)
    ensures ConvertEffect(Weight, Num(1.0), "lb", "g", e, r).result == Some(453.592)
    ensures ConvertEffect(Volume, Num(1.0), "gal", "l", e, r).result == Some(3.78541)
    ensures ConvertEffect(Temperature, Num(0.0), "C", "F", e, r).result == Some(32.0)
    ensures ConvertEffect(Temperature, Num(0.0), "C", "K", e, r).result == Some(273.15)
  {
    KnownLinearConversions();
    KnownTemperatures();
    Round6OnGrid(1000.0);
    Round6OnGrid(453.592);
    Round6OnGrid(3.78541);
    Round6OnGrid(32.0);
    Round6OnGrid(273.15);
  }

  /** The engine's state: the refs of app.js:7-14 other than the loading
      and theme flags. */
  class Engine {
    var activeTab: Category
    var value: Input
    var fromUnit: string
    var toUnit: string
    var result: Option<real>
    var errors: Errors

    /** The initial state (app.js:7-14). */
    constructor ()
      ensures activeTab == Length && value == Empty
      ensures fromUnit == "" && toUnit == "" && result == None && errors == NoErrors
    {
      activeTab := Length;
      value := Empty;
      fromUnit, toUnit := "", "";
      result := None;
      errors := NoErrors;
    }

    /** The selected units, when set, are codes the active category offers
        (the unit selectors show only those). */
    predicate UnitsListed()
      reads this
    {
      (fromUnit == "" || fromUnit in Codes(activeTab)) &&
      (toUnit == "" || toUnit in Codes(activeTab))
    }

    /** hasErrors (app.js:17-19): some error message is set. */
    function HasErrors(): (b: bool)
      reads this
      ensures b <==> errors != NoErrors
    {
      AnyNonEmpty(errors.Values())
    }

    /** getUnitName (app.js:252): the display name the active category
        gives the code, or '' for a code it does not offer. */
    function GetUnitName(code: string): (name: string)
      reads this
      ensures code !in Codes(activeTab) ==> name == ""
      ensures code in Codes(activeTab) ==>
        exists i :: 0 <= i < |UnitOptions(activeTab)| &&
                    UnitOptions(activeTab)[i] == Unit(name, code)
    {
      NameOfListedCode(activeTab, code);
      FindName(UnitOptions(activeTab), code)
    }

    /** validateInput (app.js:88-111). */
    method ValidateInput() returns (ok: bool)
      modifies this`errors
      ensures ok <==> value.Num? && Abs(value.x) <= MaxMagnitude
      ensures errors == old(errors).(value := InputError(value))
    {
      errors := errors.(value := "");
      if value.Empty? {
        errors := errors.(value := ValueMissing);
        return false;
      }
      if value.NotANumber? {
        errors := errors.(value := ValueNotNumber);
        return false;
      }
      if Abs(value.x) > MaxMagnitude {
        errors := errors.(value := ValueTooLarge);
        return false;
      }
      return true;
    }

    /** validateUnits (app.js:114-132). */
    method ValidateUnits() returns (ok: bool)
      modifies this`errors
      ensures ok <==> fromUnit != "" && toUnit != ""
      ensures errors == old(errors).(fromUnit := UnitErrors(fromUnit, toUnit).0,
                                     toUnit := UnitErrors(fromUnit, toUnit).1)
    {
      errors := errors.(fromUnit := "", toUnit := "");
      if fromUnit == "" {
        errors := errors.(fromUnit := UnitMissing);
        return false;
      }
      if toUnit == "" {
        errors := errors.(toUnit := UnitMissing);
        return false;
      }
      return true;
    }

    /** convert (app.js:136-208), validation and computation in one step. */
    method Convert() returns (outcome: Outcome)
      modifies this`errors, this`result
      ensures Effect(errors, result, outcome) ==
        ConvertEffect(activeTab, value, fromUnit, toUnit, old(errors), old(result))
      ensures UnitsListed() && InputError(value) == "" && fromUnit != "" && toUnit != "" ==>
        outcome.Stored?
    {
      var valueOk := ValidateInput();
      if !valueOk {
        return Rejected;
      }
      var unitsOk := ValidateUnits();
      if !unitsOk {
        return Rejected;
      }
      if UnitsListed() {
        ListedCodesNonEmpty(activeTab);
        ComputeDefinedOnListedCodes(activeTab, value.x, fromUnit, toUnit);
      }
      var converted := Compute(activeTab, value.x, fromUnit, toUnit);
      if converted.None? {
        return CalculationFailed;
      }
      result := Some(Round6(converted.value));
      outcome := Stored(Round6(converted.value));
    }

    /** swapUnits (app.js:235-240). */
    method SwapUnits()
      modifies this`fromUnit, this`toUnit, this`errors, this`result
      ensures old(fromUnit) == "" || old(toUnit) == "" ==>
        fromUnit == old(fromUnit) && toUnit == old(toUnit) &&
        errors == old(errors) && result == old(result)
      ensures old(fromUnit) != "" && old(toUnit) != "" ==>
        fromUnit == old(toUnit) && toUnit == old(fromUnit)
      ensures old(fromUnit) != "" && old(toUnit) != "" && old(result).None? ==>
        errors == old(errors) && result == None
      ensures old(fromUnit) != "" && old(toUnit) != "" && old(result).Some? ==>
        var s := ConvertEffect(activeTab, value, fromUnit, toUnit, old(errors), old(result));
        errors == s.errors && result == s.result
      ensures UnitsListed() == old(UnitsListed())
    {
      if fromUnit != "" && toUnit != "" {
        fromUnit, toUnit := toUnit, fromUnit;
        if result.Some? {
          var _ := Convert();
        }
      }
    }

    /** reset (app.js:243-249): everything but the category is cleared. */
    method Reset()
      modifies this`value, this`fromUnit, this`toUnit, this`result, this`errors
      ensures value == Empty && fromUnit == "" && toUnit == ""
      ensures result == None && errors == NoErrors
      ensures UnitsListed() && !HasErrors()
    {
      value := Empty;
      fromUnit, toUnit := "", "";
      result := None;
      errors := NoErrors;
    }

    /** Choosing a tab; the activeTab watcher (app.js:69-75) clears the
        state, and it runs only when the tab actually changes. */
    method SelectTab(c: Category)
      modifies this
      ensures activeTab == c
      ensures c != old(activeTab) ==>
        value == Empty && fromUnit == "" && toUnit == "" &&
        result == None && errors == NoErrors
      ensures c == old(activeTab) ==> unchanged(this)
      ensures old(UnitsListed()) ==> UnitsListed()
    {
      if c != activeTab {
        activeTab := c;
        value := Empty;
        fromUnit, toUnit := "", "";
        result := None;
        errors := NoErrors;
      }
    }

    /** Typing in the value field; the value watcher (app.js:78-80)
        revalidates it. */
    method SetValue(v: Input)
      modifies this`value, this`errors
      ensures value == v
      ensures errors == old(errors).(value := InputError(v))
    {
      value := v;
      var _ := ValidateInput();
    }

    /** Choosing the source unit; the unit watcher (app.js:83-85)
        revalidates both units. */
    method SetFromUnit(code: string)
      modifies this`fromUnit, this`errors
      ensures fromUnit == code
      ensures errors == old(errors).(fromUnit := UnitErrors(code, toUnit).0,
                                     toUnit := UnitErrors(code, toUnit).1)
      ensures old(UnitsListed()) && (code == "" || code in Codes(activeTab)) ==> UnitsListed()
    {
      fromUnit := code;
      var _ := ValidateUnits();
    }

    /** Choosing the target unit; the unit watcher (app.js:83-85)
        revalidates both units. */
    method SetToUnit(code: string)
      modifies this`toUnit, this`errors
      ensures toUnit == code
      ensures errors == old(errors).(fromUnit := UnitErrors(fromUnit, code).0,
                                     toUnit := UnitErrors(fromUnit, code).1)
      ensures old(UnitsListed()) && (code == "" || code in Codes(activeTab)) ==> UnitsListed()
    {
      toUnit := code;
      var _ := ValidateUnits();
    }
  }

  /** Swapping twice gives back the original pair of units, and never
      touches the value or the category. */
  method SwapTwiceRestoresUnits(e: Engine)
    modifies e
    ensures e.fromUnit == old(e.fromUnit) && e.toUnit == old(e.toUnit)
    ensures e.value == old(e.value) && e.activeTab == old(e.activeTab)
  {
    e.SwapUnits();
    e.SwapUnits();
  }

  /** Examples: with 1 in the value field, converting
      m to km stores 0.001; swapping then recomputes in the other
      direction and stores 1000. */
  method SwapRecomputes() returns (before: Option<real>, after: Option<real>)
    ensures before == Some(0.001) && after == Some(1000.0)
  {
    var e := new Engine();
    e.SetValue(Num(1.0));
    e.SetFromUnit("m");
    e.SetToUnit("km");
    var _ := e.Convert();
    Round6OnGrid(0.001);
    before := e.result;
    e.SwapUnits();
    Round6OnGrid(1000.0);
    after := e.result;
  }
}
