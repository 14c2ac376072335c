/** The welding cost estimator of js/calculator.js: the pricing formula,
    the required/number field validator, the all-fields gate in front of a
    manual calculation, and the notification icon lookup.

    Money, hours and multipliers are `real`, so the arithmetic is exact.
    Wherever the code writes `parseFloat(x) || d`, the parse is an
    already-parsed `Option<real>` (`None` standing for NaN) and `OrElse`
    applies the fallback, which also replaces a parsed 0. */
module Calculator {
  import opened Wrappers
  import JsText

  /** Hourly rate per work type (the `hourlyRates` table). */
  const HourlyRates: map<string, real> :=
    map["tig" := 80.0, "mig" := 60.0, "konstrukcja" := 70.0, "balustrada" := 65.0, "naprawa" := 75.0]

  /** The `complexityMultipliers` table. The formula never consults it: the
      multiplier is whatever number the complexity string parses to. */
  const ComplexityMultipliers: map<string, real> :=
    map["1" := 1.0, "1.2" := 1.2, "1.5" := 1.5, "1.8" := 1.8]

  /** Each tier of the select parses to its own table value, so the
      multiplier the formula uses for a tier is that value, at least 1; in
      particular `MoreHoursNeverCheaper` applies to every tier. */
  lemma TierMultipliersAreTheirValues()
    ensures forall c :: c in ComplexityMultipliers ==>
      Multiplier(Some(ComplexityMultipliers[c])) == ComplexityMultipliers[c] >= 1.0
  {
  }

  const MinimumCost: real := 200.0
  const VatRate: real := 0.23

  /** The smallest total the estimator can produce: the floor plus its VAT. */
  const MinimumTotal: real := 246.0

  /** JavaScript's `p || d` on the result `p` of a `parseFloat`: NaN and 0
      are falsy, so both give way to the default. */
  function OrElse(p: Option<real>, d: real): real {
    if p.Some? && p.value != 0.0 then p.value else d
  }

  /** The cost breakdown returned by `calculateWeldingCost`. */
  datatype Estimate = Estimate(
    laborCost: real,
    materialCost: real,
    complexityAddition: real,
    subtotal: real,
    vatAmount: real,
    total: real,
    hourlyRate: real,
    workHours: real,
    isMinimumApplied: bool)

  /** `settings.hourlyRates[workType] || 0`: every listed rate is positive,
      so a listed work type gets its rate and any other string gets 0. */
  function HourlyRate(workType: string): (rate: real)
    ensures rate >= 0.0
    ensures rate > 0.0 <==> workType in HourlyRates
    ensures workType in HourlyRates ==> rate == HourlyRates[workType]
  {
    OrElse(if workType in HourlyRates then Some(HourlyRates[workType]) else None, 0.0)
  }

  /** `parseFloat(complexity) || 1`. */
  function Multiplier(complexity: Option<real>): real {
    OrElse(complexity, 1.0)
  }

  /** `calculateWeldingCost(workType, workHours, materialCost, complexity)`,
      with `complexity` already parsed. Hours and material cost are used
      as given: the formula clamps neither. */
  function CalculateWeldingCost(workType: string, workHours: real, materialCost: real, complexity: Option<real>): (e: Estimate)
    // the inputs are echoed back
    ensures e.hourlyRate == HourlyRate(workType) && e.workHours == workHours && e.materialCost == materialCost
    // labour is the base cost plus the complexity surcharge
    ensures e.laborCost == e.hourlyRate * workHours + e.complexityAddition
    ensures e.laborCost == e.hourlyRate * workHours * Multiplier(complexity)
    // the floor is applied before VAT, and the flag says whether it bit
    ensures e.subtotal >= MinimumCost
    ensures e.isMinimumApplied <==> e.laborCost + e.materialCost < MinimumCost
    ensures e.subtotal == if e.isMinimumApplied then MinimumCost else e.laborCost + e.materialCost
    // VAT is charged on the floored subtotal
    ensures e.vatAmount == e.subtotal * VatRate && e.total == e.subtotal + e.vatAmount
    ensures e.total >= MinimumTotal
  {
    var hourlyRate := HourlyRate(workType);
    var baseLaborCost := hourlyRate * workHours;
    var complexityMultiplier := Multiplier(complexity);
    var complexityAddition := baseLaborCost * (complexityMultiplier - 1.0);
    var totalLaborCost := baseLaborCost + complexityAddition;
    var subtotal := totalLaborCost + materialCost;
    var finalSubtotal := if subtotal > MinimumCost then subtotal else MinimumCost;
    var vatAmount := finalSubtotal * VatRate;
    Estimate(totalLaborCost, materialCost, complexityAddition, finalSubtotal, vatAmount,
             finalSubtotal + vatAmount, hourlyRate, workHours, subtotal < MinimumCost)
  }

  /** Without the floor, the total is the pre-floor subtotal with VAT;
      with it, the total is exactly the minimum total. */
  lemma TotalIsSubtotalWithVat(workType: string, workHours: real, materialCost: real, complexity: Option<real>)
    ensures var e := CalculateWeldingCost(workType, workHours, materialCost, complexity);
      e.total == (if e.isMinimumApplied then MinimumTotal else (e.laborCost + e.materialCost) * (1.0 + VatRate))
  {
  }

  /** An unknown work type contributes no labour: only the material cost
      and the floor remain. */
  lemma UnknownWorkTypeChargesMaterialsOnly(workType: string, workHours: real, materialCost: real, complexity: Option<real>)
    requires workType !in HourlyRates
    ensures var e := CalculateWeldingCost(workType, workHours, materialCost, complexity);
      e.hourlyRate == 0.0 && e.laborCost == 0.0 && e.complexityAddition == 0.0 &&
      e.subtotal == (if materialCost < MinimumCost then MinimumCost else materialCost)
  {
  }

  /** A complexity that does not parse, or parses to 0, or parses to 1
      leaves labour at the plain hourly cost, with no surcharge. */
  lemma StandardComplexityAddsNothing(workType: string, workHours: real, materialCost: real, complexity: Option<real>)
    requires complexity.None? || complexity.value == 0.0 || complexity.value == 1.0
    ensures var e := CalculateWeldingCost(workType, workHours, materialCost, complexity);
      e.complexityAddition == 0.0 && e.laborCost == HourlyRate(workType) * workHours
  {
  }

  /** For a non-negative multiplier, more hours never lower the labour
      cost, the subtotal or the total. */
  lemma {:induction false} MoreHoursNeverCheaper(workType: string, h1: real, h2: real, materialCost: real, complexity: Option<real>)
    requires h1 <= h2
    requires Multiplier(complexity) >= 0.0
    ensures var e1 := CalculateWeldingCost(workType, h1, materialCost, complexity);
      var e2 := CalculateWeldingCost(workType, h2, materialCost, complexity);
      e1.laborCost <= e2.laborCost && e1.subtotal <= e2.subtotal && e1.total <= e2.total
  {
    var e1 := CalculateWeldingCost(workType, h1, materialCost, complexity);
    var e2 := CalculateWeldingCost(workType, h2, materialCost, complexity);
    var rate, m := HourlyRate(workType), Multiplier(complexity);
    assert rate * m >= 0.0 by { MulNonNegative(rate, m); }
    assert rate * m * h1 <= rate * m * h2 by { MulMonotone(rate * m, h1, h2); }
    assert rate * h1 * m == rate * m * h1 && rate * h2 * m == rate * m * h2;
    assert e1.laborCost <= e2.laborCost;
    assert e1.subtotal <= e2.subtotal;
    assert e1.total == e1.subtotal * (1.0 + VatRate) && e2.total == e2.subtotal * (1.0 + VatRate);
    MulMonotone(1.0 + VatRate, e1.subtotal, e2.subtotal);
    assert (1.0 + VatRate) * e1.subtotal == e1.subtotal * (1.0 + VatRate);
    assert (1.0 + VatRate) * e2.subtotal == e2.subtotal * (1.0 + VatRate);
  }

  lemma MulNonNegative(a: real, b: real)
    requires a >= 0.0 && b >= 0.0
    ensures a * b >= 0.0
  {
  }

  lemma MulMonotone(k: real, x: real, y: real)
    requires k >= 0.0 && x <= y
    ensures k * x <= k * y
  {
    assert k * y - k * x == k * (y - x);
    MulNonNegative(k, y - x);
  }

  /** The formula does not clamp negative hours: with a known work type and
      the standard multiplier, negative hours give a negative labour cost. */
  lemma NegativeHoursGiveNegativeLabour(workType: string, workHours: real, materialCost: real)
    requires workType in HourlyRates && workHours < 0.0
    ensures CalculateWeldingCost(workType, workHours, materialCost, Some(1.0)).laborCost < 0.0
  {
    var rate := HourlyRate(workType);
    assert rate * (0.0 - workHours) > 0.0;
  }

  /** Any numeric complexity string is taken as the multiplier, so a
      negative one makes more hours cheaper: the non-negativity premise of
      `MoreHoursNeverCheaper` cannot be dropped. */
  lemma NegativeMultiplierReversesHours()
    ensures CalculateWeldingCost("tig", 2.0, 0.0, Some(-1.0)).laborCost < CalculateWeldingCost("tig", 1.0, 0.0, Some(-1.0)).laborCost
  {
  }

  /** The three presets of `addProjectPresets`, and three further sample
      inputs, priced by the formula. */
  lemma PresetEstimates()
    ensures var e := CalculateWeldingCost("balustrada", 8.0, 800.0, Some(1.0));
      e.laborCost == 520.0 && e.complexityAddition == 0.0 && e.subtotal == 1320.0 && e.total == 1623.6 && !e.isMinimumApplied
    ensures var e := CalculateWeldingCost("konstrukcja", 12.0, 1500.0, Some(1.2));
      e.laborCost == 1008.0 && e.complexityAddition == 168.0 && e.subtotal == 2508.0 && e.total == 3084.84 && !e.isMinimumApplied
    ensures var e := CalculateWeldingCost("konstrukcja", 40.0, 5000.0, Some(1.5));
      e.laborCost == 4200.0 && e.complexityAddition == 1400.0 && e.subtotal == 9200.0 &&
      e.vatAmount == 2116.0 && e.total == 11316.0 && !e.isMinimumApplied
    ensures var e := CalculateWeldingCost("tig", 5.0, 0.0, Some(1.0));
      e.laborCost == 400.0 && e.subtotal == 400.0 && e.vatAmount == 92.0 && e.total == 492.0 && !e.isMinimumApplied
    ensures var e := CalculateWeldingCost("mig", 1.0, 0.0, Some(1.0));
      e.laborCost == 60.0 && e.subtotal == 200.0 && e.vatAmount == 46.0 && e.total == 246.0 && e.isMinimumApplied
    ensures var e := CalculateWeldingCost("unknown-type", 10.0, 50.0, Some(1.0));
      e.hourlyRate == 0.0 && e.laborCost == 0.0 && e.subtotal == 200.0 && e.total == 246.0 && e.isMinimumApplied
  {
  }

  /** The values `calculateCostRealTime` reads from the form, each number
      already parsed. */
  datatype FormValues = FormValues(workType: string, workHours: Option<real>, materialCost: Option<real>, complexity: Option<real>)

  /** `calculateCostRealTime`: hours and material cost that are empty, not
      numbers or 0 count as 0; the rest goes to the formula unchanged. */
  function EstimateFromForm(f: FormValues): (e: Estimate)
    ensures e.workHours == OrElse(f.workHours, 0.0) && e.materialCost == OrElse(f.materialCost, 0.0)
    ensures e == CalculateWeldingCost(f.workType, OrElse(f.workHours, 0.0), OrElse(f.materialCost, 0.0), f.complexity)
    ensures f.workHours.None? ==> e.laborCost == 0.0
    ensures f.materialCost.None? && f.workHours.None? ==> e.subtotal == MinimumCost && e.isMinimumApplied
  {
    CalculateWeldingCost(f.workType, OrElse(f.workHours, 0.0), OrElse(f.materialCost, 0.0), f.complexity)
  }

  /** The upper bound of a number field: `parseFloat(max) || Infinity`. */
  datatype Bound = Finite(limit: real) | Infinity {
    predicate Admits(x: real) {
      Infinity? || x <= limit
    }
  }

  /** What `validateInput` reads from an input element. `parsedValue` is
      `parseFloat` of the trimmed value, `parsedMin` and `parsedMax` that of
      the `min` and `max` attributes. */
  datatype Input = Input(
    required: bool,
    isNumber: bool,
    value: string,
    parsedValue: Option<real>,
    parsedMin: Option<real>,
    parsedMax: Option<real>)

  /** The verdict of `validateInput`: accepted, or the error it shows. */
  datatype InputVerdict = Accepted | MissingValue | OutOfRange(min: real, max: Bound)

  function MinOf(input: Input): real {
    OrElse(input.parsedMin, 0.0)
  }

  function MaxOf(input: Input): Bound {
    if input.parsedMax.Some? && input.parsedMax.value != 0.0 then Finite(input.parsedMax.value) else Infinity
  }

  /** `validateInput`: a required field that is blank after trimming is
      missing; a non-blank number field must parse to a number in
      [min, max]; everything else passes. */
  function ValidateInput(input: Input): (v: InputVerdict)
    ensures v == MissingValue <==> input.required && JsText.AllWhiteSpace(input.value)
    ensures v.OutOfRange? ==> input.isNumber && !JsText.AllWhiteSpace(input.value) && v.min == MinOf(input) && v.max == MaxOf(input)
    ensures v.Accepted? <==>
      (!input.required || !JsText.AllWhiteSpace(input.value)) &&
      (!input.isNumber || JsText.AllWhiteSpace(input.value) ||
        (input.parsedValue.Some? && MinOf(input) <= input.parsedValue.value && MaxOf(input).Admits(input.parsedValue.value)))
  {
    var value := JsText.Trim(input.value);
    if input.required && value == [] then MissingValue
    else if input.isNumber && value != [] &&
            (input.parsedValue.None? || input.parsedValue.value < MinOf(input) || !MaxOf(input).Admits(input.parsedValue.value))
    then OutOfRange(MinOf(input), MaxOf(input))
    else Accepted
  }

  /** A blank optional field passes, whatever its type. */
  lemma BlankOptionalInputAccepted(input: Input)
    requires !input.required && JsText.AllWhiteSpace(input.value)
    ensures ValidateInput(input) == Accepted
  {
  }

  /** A `max` attribute that is missing, not a number, or 0 leaves the
      field without an upper bound, and a `min` attribute of that kind
      makes the lower bound 0. */
  lemma DegenerateBounds(input: Input)
    requires input.parsedMax.None? || input.parsedMax.value == 0.0
    requires input.parsedMin.None? || input.parsedMin.value == 0.0
    requires input.isNumber && !JsText.AllWhiteSpace(input.value) && input.parsedValue.Some?
    ensures ValidateInput(input) == Accepted <==> input.parsedValue.value >= 0.0
  {
  }

  /** `window.calculateCost`, the validation step: every required input is
      validated (none is skipped after a failure), and the form is valid
      exactly when every input is accepted. */
  method ValidateAll(inputs: seq<Input>) returns (isValid: bool, verdicts: seq<InputVerdict>)
    ensures |verdicts| == |inputs|
    ensures forall i :: 0 <= i < |inputs| ==> verdicts[i] == ValidateInput(inputs[i])
    ensures isValid <==> forall i :: 0 <= i < |inputs| ==> ValidateInput(inputs[i]).Accepted?
  {
    isValid := true;
    verdicts := [];
    for i := 0 to |inputs|
      invariant |verdicts| == i
      invariant forall j :: 0 <= j < i ==> verdicts[j] == ValidateInput(inputs[j])
      invariant isValid <==> forall j :: 0 <= j < i ==> ValidateInput(inputs[j]).Accepted?
    {
      var verdict := ValidateInput(inputs[i]);
      verdicts := verdicts + [verdict];
      if !verdict.Accepted? {
        isValid := false;
      }
    }
  }

  /** The notification `window.calculateCost` shows when validation fails. */
  const FormErrorMessage: string := "Proszę poprawić błędy w formularzu"

  /** `window.calculateCost`: on invalid input it stops with the error
      notification; otherwise it prices the form's current values. */
  method CalculateCost(inputs: seq<Input>, form: FormValues) returns (r: Result<Estimate, string>)
    ensures r.Failure? <==> exists i :: 0 <= i < |inputs| && !ValidateInput(inputs[i]).Accepted?
    ensures r.Failure? ==> r.error == FormErrorMessage
    ensures r.Success? ==> r.value == EstimateFromForm(form)
  {
    var isValid, _ := ValidateAll(inputs);
    if !isValid {
      return Failure(FormErrorMessage);
    }
    return Success(EstimateFromForm(form));
  }

  /** `getNotificationIcon`: the four known notification types have their
      own icon; any other type falls back to the `info` icon. */
  function NotificationIcon(kind: string): (icon: string)
    ensures icon in {"check-circle", "exclamation-triangle", "exclamation-circle", "info-circle"}
    ensures kind == "success" ==> icon == "check-circle"
    ensures kind == "error" ==> icon == "exclamation-triangle"
    ensures kind == "warning" ==> icon == "exclamation-circle"
    ensures kind !in {"success", "error", "warning"} ==> icon == "info-circle"
  {
    var icons := map["success" := "check-circle", "error" := "exclamation-triangle",
                     "warning" := "exclamation-circle", "info" := "info-circle"];
    if kind in icons then icons[kind] else "info-circle"
  }
}
