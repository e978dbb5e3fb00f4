/** The emission calculator panel: emissions of one shipment from its distance,
    weight, transport mode and fuel, with a fixed "optimized" comparison. */
module EmissionCalculator {
  import opened Wrappers
  import opened JsNumbers

  /** One entry of the transport-mode or fuel-type list: the select value, its shown
      text and its emission factor. */
  datatype FactorOption = FactorOption(value: string, display: string, factor: real)

  const TransportModes: seq<FactorOption> := [
    FactorOption("truck", "Truck", 0.234),
    FactorOption("plane", "Air Freight", 0.602),
    FactorOption("ship", "Sea Freight", 0.015),
    FactorOption("rail", "Rail", 0.041)
  ]

  const FuelTypes: seq<FactorOption> := [
    FactorOption("diesel", "Diesel", 1.0),
    FactorOption("electric", "Electric", 0.3),
    FactorOption("hybrid", "Hybrid", 0.7),
    FactorOption("hydrogen", "Hydrogen", 0.2)
  ]

  /** The fixed share of the emissions the "optimized" figure keeps (a 35% cut). */
  const OptimizationFactor: real := 0.65

  /** `options.find(o => o.value === value)`: the first entry with that value. */
  function Find(options: seq<FactorOption>, value: string): (r: Option<FactorOption>)
    ensures r.None? <==> forall i :: 0 <= i < |options| ==> options[i].value != value
    ensures r.Some? ==> r.value in options && r.value.value == value
  {
    if options == [] then None
    else if options[0].value == value then Some(options[0])
    else
      var r := Find(options[1..], value);
      assert r.None? ==> forall i :: 0 <= i < |options| ==> options[i].value != value by {
        if r.None? {
          forall i | 0 <= i < |options| ensures options[i].value != value {
            if i > 0 { assert options[i] == options[1..][i - 1]; }
          }
        }
      }
      r
  }

  /** Every factor in both lists is positive, so whatever `find` returns is. */
  lemma FoundFactorPositive(mode: string, fuel: string)
    ensures Find(TransportModes, mode).Some? ==> Find(TransportModes, mode).value.factor > 0.0
    ensures Find(FuelTypes, fuel).Some? ==> Find(FuelTypes, fuel).value.factor > 0.0
  {
    assert forall i :: 0 <= i < |TransportModes| ==> TransportModes[i].factor > 0.0;
    assert forall i :: 0 <= i < |FuelTypes| ==> FuelTypes[i].factor > 0.0;
  }

  lemma ProductNonZero(a: real, b: real, c: real, d: real)
    requires a != 0.0 && b != 0.0 && c > 0.0 && d > 0.0
    ensures a * b * c * d != 0.0
  {
    assert a * b != 0.0;
    assert a * b * c != 0.0;
  }

  /** The three figures the results card shows. */
  datatype EmissionResult = EmissionResult(emissions: real, optimizedEmissions: real, savings: real)

  /** The calculator form; every field holds the raw text or select value. */
  datatype CalculatorForm = CalculatorForm(
    origin: string, destination: string, distance: string, weight: string,
    transportMode: string, fuelType: string)

  const EmptyForm := CalculatorForm("", "", "", "", "", "")

  /** The result `calculateEmissions` sets for this form, or None when one of its
      guards returns early: distance or weight 0 or unparsable, mode or fuel
      empty or not in its list. */
  function Evaluate(form: CalculatorForm): Option<EmissionResult>
  {
    EvaluateNumbers(ParseFloat(form.distance), ParseFloat(form.weight), form.transportMode, form.fuelType)
  }

  /** The same, once distance and weight have been read with `parseFloat`. */
  function EvaluateNumbers(distance: Num, weight: Num, transportMode: string, fuelType: string): Option<EmissionResult>
  {
    if !Truthy(distance) || !Truthy(weight) || transportMode == "" || fuelType == "" then None
    else
      var mode := Find(TransportModes, transportMode);
      var fuel := Find(FuelTypes, fuelType);
      if mode.None? || fuel.None? then None
      else
        FoundFactorPositive(transportMode, fuelType);
        Some(Shipment(distance.v, weight.v, mode.value.factor, fuel.value.factor))
  }

  /** The figures for a shipment: `distance * weight * mode factor * fuel factor`. */
  function Shipment(distance: real, weight: real, modeFactor: real, fuelFactor: real): EmissionResult
    requires distance != 0.0 && weight != 0.0 && modeFactor > 0.0 && fuelFactor > 0.0
  {
    ProductNonZero(distance, weight, modeFactor, fuelFactor);
    Figures(distance * weight * modeFactor * fuelFactor)
  }

  /** The three figures for non-zero base emissions. */
  function Figures(baseEmissions: real): EmissionResult
    requires baseEmissions != 0.0
  {
    var optimizedEmissions := baseEmissions * OptimizationFactor;
    EmissionResult(baseEmissions, optimizedEmissions, (baseEmissions - optimizedEmissions) / baseEmissions * 100.0)
  }

  /** The optimized figure keeps 65% of the emissions, which is never more when
      they are not negative, and the saving is exactly 35%. */
  lemma FiguresFixedSaving(baseEmissions: real)
    requires baseEmissions != 0.0
    ensures var r := Figures(baseEmissions);
            && r.emissions == baseEmissions
            && r.optimizedEmissions == 0.65 * baseEmissions
            && (baseEmissions >= 0.0 ==> r.optimizedEmissions <= r.emissions)
            && r.savings == 35.0
  {
    var optimized := baseEmissions * 0.65;
    assert baseEmissions - optimized == baseEmissions * 0.35;
    assert (baseEmissions * 0.35) / baseEmissions == 0.35 by {
      assert 0.35 * baseEmissions == baseEmissions * 0.35;
    }
  }

  /** A result is produced exactly when both numbers are non-zero and both
      selections name a listed entry; an empty selection names none. */
  lemma EvaluateDefinedWhen(distance: Num, weight: Num, transportMode: string, fuelType: string)
    ensures EvaluateNumbers(distance, weight, transportMode, fuelType).Some? <==>
              Truthy(distance) && Truthy(weight)
              && (exists i :: 0 <= i < |TransportModes| && TransportModes[i].value == transportMode)
              && (exists i :: 0 <= i < |FuelTypes| && FuelTypes[i].value == fuelType)
  {
  }

  /** Whenever a result is set, both selections name a listed entry, the figures
      are those of a shipment with the distance, the weight and the two listed
      factors, the emissions are not zero, the optimized figure keeps 65% of
      them and the saving is exactly 35%. */
  lemma EvaluateFigures(distance: Num, weight: Num, transportMode: string, fuelType: string)
    requires EvaluateNumbers(distance, weight, transportMode, fuelType).Some?
    ensures var r := EvaluateNumbers(distance, weight, transportMode, fuelType).value;
            var mode := Find(TransportModes, transportMode);
            var fuel := Find(FuelTypes, fuelType);
            && mode.Some? && fuel.Some?
            && r == Shipment(distance.v, weight.v, mode.value.factor, fuel.value.factor)
            && r.emissions != 0.0
            && r.optimizedEmissions == 0.65 * r.emissions
            && (r.emissions >= 0.0 ==> r.optimizedEmissions <= r.emissions)
            && r.savings == 35.0
  {
    var mode := Find(TransportModes, transportMode).value.factor;
    var fuel := Find(FuelTypes, fuelType).value.factor;
    FoundFactorPositive(transportMode, fuelType);
    var r := Shipment(distance.v, weight.v, mode, fuel);
    assert EvaluateNumbers(distance, weight, transportMode, fuelType) == Some(r);
    ShipmentFigures(distance.v, weight.v, mode, fuel);
  }

  lemma EvaluateIsShipment(distance: Num, weight: Num, transportMode: string, fuelType: string)
    requires Truthy(distance) && Truthy(weight) && transportMode != "" && fuelType != ""
    requires Find(TransportModes, transportMode).Some? && Find(FuelTypes, fuelType).Some?
    ensures Find(TransportModes, transportMode).value.factor > 0.0
    ensures Find(FuelTypes, fuelType).value.factor > 0.0
    ensures EvaluateNumbers(distance, weight, transportMode, fuelType)
         == Some(Shipment(distance.v, weight.v, Find(TransportModes, transportMode).value.factor,
                          Find(FuelTypes, fuelType).value.factor))
  {
    FoundFactorPositive(transportMode, fuelType);
  }

  /** The emissions of a shipment are its distance times its weight times both
      factors, never zero; the optimized figure keeps 65% and the saving is 35%. */
  lemma ShipmentFigures(distance: real, weight: real, modeFactor: real, fuelFactor: real)
    requires distance != 0.0 && weight != 0.0 && modeFactor > 0.0 && fuelFactor > 0.0
    ensures var r := Shipment(distance, weight, modeFactor, fuelFactor);
            && r.emissions == distance * weight * modeFactor * fuelFactor
            && r.emissions != 0.0
            && r.optimizedEmissions == 0.65 * r.emissions
            && (r.emissions >= 0.0 ==> r.optimizedEmissions <= r.emissions)
            && r.savings == 35.0
  {
    ProductNonZero(distance, weight, modeFactor, fuelFactor);
    FiguresFixedSaving(distance * weight * modeFactor * fuelFactor);
  }

  /** Distance 2500 and weight 25 by diesel truck: 14625 kg, 9506.25 kg optimized, 35% saved. */
  lemma EvaluateWorkedExample()
    ensures Evaluate(CalculatorForm("Los Angeles", "New York", "2500", "25", "truck", "diesel"))
         == Some(EmissionResult(14625.0, 9506.25, 35.0))
  {
    Parses2500();
    Parses25();
    ShipmentWorkedExample();
  }

  lemma ShipmentWorkedExample()
    ensures EvaluateNumbers(Finite(2500.0), Finite(25.0), "truck", "diesel")
         == Some(EmissionResult(14625.0, 9506.25, 35.0))
  {
    assert Find(TransportModes, "truck") == Some(TransportModes[0]);
    assert Find(FuelTypes, "diesel") == Some(FuelTypes[0]);
    FiguresFixedSaving(14625.0);
  }

  lemma Parses25()
    ensures ParseFloat("25") == Finite(25.0)
  {
    assert DigitsValue("25") == 25 by { assert "25"[..1] == "2" && "2"[..0] == ""; }
    DigitsParse("25");
  }

  lemma Parses2500()
    ensures ParseFloat("2500") == Finite(2500.0)
  {
    assert DigitsValue("25") == 25 by { assert "25"[..1] == "2" && "2"[..0] == ""; }
    assert DigitsValue("250") == 250 by { assert "250"[..2] == "25"; }
    assert DigitsValue("2500") == 2500 by { assert "2500"[..3] == "250"; }
    DigitsParse("2500");
  }

  /** The calculate button's `disabled` condition: a required field is empty. */
  predicate CalculateDisabled(form: CalculatorForm)
  {
    form.distance == "" || form.weight == "" || form.transportMode == "" || form.fuelType == ""
  }

  /** Whenever a result can be computed, the button is enabled. */
  lemma ComputableIsEnabled(form: CalculatorForm)
    requires Evaluate(form).Some?
    ensures !CalculateDisabled(form)
  {
    if form.distance == "" { NoDigitIsNaN(""); }
    if form.weight == "" { NoDigitIsNaN(""); }
  }

  /** The button only looks at emptiness: a distance with no number in it
      leaves it enabled, and pressing it then does nothing. */
  lemma EnabledButNotComputable()
    ensures var form := CalculatorForm("", "", "abc", "25", "truck", "diesel");
            !CalculateDisabled(form) && Evaluate(form).None?
  {
    var form := CalculatorForm("", "", "abc", "25", "truck", "diesel");
    assert !CalculateDisabled(form);
    assert Evaluate(form).None? by {
      NoDigitIsNaN(form.distance);
      NoNumberNoResult(form);
    }
  }

  /** A distance `parseFloat` cannot read gives no result. */
  lemma NoNumberNoResult(form: CalculatorForm)
    requires ParseFloat(form.distance) == NaN
    ensures Evaluate(form).None?
  {
  }

  /** The component's state. */
  class Calculator {
    var formData: CalculatorForm
    var result: Option<EmissionResult>

    constructor ()
      ensures formData == EmptyForm && result == None
    {
      formData := EmptyForm;
      result := None;
    }

    /** `calculateEmissions`: sets the result, or keeps the previous one when a
        guard returns early. The form is never written. */
    method CalculateEmissions()
      modifies this`result
      ensures formData == old(formData)
      ensures result == if Evaluate(formData).Some? then Evaluate(formData) else old(result)
    {
      var distance := ParseFloat(formData.distance);
      var weight := ParseFloat(formData.weight);
      if !Truthy(distance) || !Truthy(weight) || formData.transportMode == "" || formData.fuelType == "" {
        return;
      }
      var transportMode := Find(TransportModes, formData.transportMode);
      var fuelType := Find(FuelTypes, formData.fuelType);
      if transportMode.None? || fuelType.None? {
        return;
      }
      EvaluateIsShipment(distance, weight, formData.transportMode, formData.fuelType);
      result := Some(Shipment(distance.v, weight.v, transportMode.value.factor, fuelType.value.factor));
    }

    /** `resetCalculator`: every field back to "" and no result. */
    method ResetCalculator()
      modifies this
      ensures formData == EmptyForm && result == None
    {
      formData := EmptyForm;
      result := None;
    }
  }
}
