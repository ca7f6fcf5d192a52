/** The BMI calculator: weight in kilograms, height in centimetres or metres,
    a categorised result rounded to one decimal, and per-field errors. */
module Bmi {
  import opened Input

  datatype HeightUnit = Cm | M

  datatype Category = Underweight | Normal | Overweight | Obese

  datatype BmiResult = BmiResult(value: real, category: Category, description: string)

  /** The errors object: a message under `weight`, `height`, both or neither. */
  datatype BmiErrors = BmiErrors(weight: Option<string>, height: Option<string>)

  const NoErrors := BmiErrors(None, None)

  const WeightMessage := "Weight must be between 20 and 300 kg"
  const InvalidHeightMessage := "Please enter a valid height"

  function HeightRangeMessage(unit: HeightUnit): string {
    match unit
    case Cm => "Height must be between 50 and 250 cm"
    case M => "Height must be between 0.5 and 2.5 m"
  }

  predicate WeightInRange(w: real) {
    20.0 <= w <= 300.0
  }

  /** A raw weight is accepted when it is non-empty, parses, and lies in
      [20, 300]. */
  predicate ValidWeight(raw: string, parse: Parser) {
    raw != "" && parse(raw).Some? && WeightInRange(parse(raw).value)
  }

  /** Both weight bounds are accepted; values just outside are not. */
  lemma WeightBoundsInclusive()
    ensures WeightInRange(20.0) && WeightInRange(300.0)
    ensures !WeightInRange(19.9) && !WeightInRange(300.1)
  {
  }

  /** The closed height range of each unit. */
  predicate HeightInRange(h: real, unit: HeightUnit) {
    match unit
    case Cm => 50.0 <= h <= 250.0
    case M => 0.5 <= h <= 2.5
  }

  /** The height check: an empty or unparseable field is reported as such,
      whatever the unit; only a parsed height is held to its unit's range. */
  function HeightError(raw: string, unit: HeightUnit, parse: Parser): (e: Option<string>)
    ensures raw == "" || parse(raw).None? ==> e == Some(InvalidHeightMessage)
    ensures raw != "" && parse(raw).Some? ==>
      (e.None? <==> HeightInRange(parse(raw).value, unit)) &&
      (e.Some? ==> e.value == HeightRangeMessage(unit))
  {
    if raw == "" || parse(raw).None? then Some(InvalidHeightMessage)
    else if unit == Cm && (parse(raw).value < 50.0 || parse(raw).value > 250.0) then Some(HeightRangeMessage(Cm))
    else if unit == M && (parse(raw).value < 0.5 || parse(raw).value > 2.5) then Some(HeightRangeMessage(M))
    else None
  }

  /** The precedence rule: the "valid height" message and a range message
      are never confused. */
  lemma InvalidHeightIsNotARangeMessage(unit: HeightUnit)
    ensures InvalidHeightMessage != HeightRangeMessage(unit)
  {
    assert InvalidHeightMessage[0] != HeightRangeMessage(unit)[0];
  }

  /** The unit toggle. */
  function Flip(unit: HeightUnit): (u: HeightUnit)
    ensures u != unit
  {
    if unit == Cm then M else Cm
  }

  /** Toggling twice restores the unit. */
  lemma FlipInvolution(unit: HeightUnit)
    ensures Flip(Flip(unit)) == unit
  {
  }

  /** A height in the given unit, expressed in metres. */
  function ToMetres(h: real, unit: HeightUnit): (m: real)
    ensures unit == M ==> m == h
    ensures unit == Cm ==> m * 100.0 == h
    ensures HeightInRange(h, unit) <==> HeightInRange(m, M)
  {
    if unit == Cm then h / 100.0 else h
  }

  /** weight / height²: the number that, multiplied by the squared height,
      gives back the weight. */
  function BmiOf(weightKg: real, heightM: real): (bmi: real)
    requires heightM != 0.0
    ensures bmi * (heightM * heightM) == weightKg
  {
    weightKg / (heightM * heightM)
  }

  /** An accepted weight and height give a BMI between 20/2.5² = 3.2 and
      300/0.5² = 1200; in particular the divisor is non-zero and the BMI
      positive. */
  lemma BmiBounds(weightKg: real, heightM: real)
    requires WeightInRange(weightKg) && HeightInRange(heightM, M)
    ensures 3.2 <= BmiOf(weightKg, heightM) <= 1200.0
  {
    var sq := heightM * heightM;
    MulMonotone(0.5, heightM, 0.5);
    MulMonotone(0.5, heightM, heightM);
    MulMonotone(heightM, 2.5, heightM);
    MulMonotone(heightM, 2.5, 2.5);
    assert 0.25 <= sq <= 6.25;
    var bmi := BmiOf(weightKg, heightM);
    LowerBoundOfQuotient(bmi, sq, 3.2, 6.25);
    UpperBoundOfQuotient(bmi, sq, 1200.0, 0.25);
  }

  /** If lo·smax <= q·s with 0 < s <= smax, then lo <= q. */
  lemma LowerBoundOfQuotient(q: real, s: real, lo: real, smax: real)
    requires lo * smax <= q * s && 0.0 < s <= smax && 0.0 <= lo
    ensures lo <= q
  {
    MulMonotone(s, smax, lo);
    assert s * lo == lo * s && smax * lo == lo * smax;
    CancelPositiveFactor(lo, q, s);
  }

  /** If q·s <= hi·smin with 0 < smin <= s, then q <= hi. */
  lemma UpperBoundOfQuotient(q: real, s: real, hi: real, smin: real)
    requires q * s <= hi * smin && 0.0 < smin <= s && 0.0 <= hi
    ensures q <= hi
  {
    MulMonotone(smin, s, hi);
    assert smin * hi == hi * smin && s * hi == hi * s;
    CancelPositiveFactor(q, hi, s);
  }

  lemma MulMonotone(x: real, y: real, z: real)
    requires x <= y && 0.0 <= z
    ensures x * z <= y * z
  {
    assert y * z - x * z == (y - x) * z;
  }

  lemma MulStrictMonotone(x: real, y: real, z: real)
    requires x < y && 0.0 < z
    ensures x * z < y * z
  {
    assert y * z - x * z == (y - x) * z;
  }

  lemma CancelPositiveFactor(x: real, y: real, z: real)
    requires x * z <= y * z && 0.0 < z
    ensures x <= y
  {
    if y < x {
      MulStrictMonotone(y, x, z);
      assert false;
    }
  }

  /** The half-open band of each category. */
  predicate InBand(bmi: real, c: Category) {
    match c
    case Underweight => bmi < 18.5
    case Normal => 18.5 <= bmi < 25.0
    case Overweight => 25.0 <= bmi < 30.0
    case Obese => 30.0 <= bmi
  }

  /** The categoriser: the unrounded BMI lies in the band of its category. */
  function Categorize(bmi: real): (c: Category)
    ensures InBand(bmi, c)
  {
    if bmi < 18.5 then Underweight
    else if bmi < 25.0 then Normal
    else if bmi < 30.0 then Overweight
    else Obese
  }

  /** The bands do not overlap, so the category is determined by them. */
  lemma BandsDisjoint(bmi: real, c1: Category, c2: Category)
    requires InBand(bmi, c1) && InBand(bmi, c2)
    ensures c1 == c2
  {
  }

  /** Severity order of the categories. */
  function Rank(c: Category): nat {
    match c
    case Underweight => 0
    case Normal => 1
    case Overweight => 2
    case Obese => 3
  }

  /** A larger BMI never falls into a lighter category. */
  lemma CategorizeMonotone(a: real, b: real)
    requires a <= b
    ensures Rank(Categorize(a)) <= Rank(Categorize(b))
  {
  }

  /** Each boundary value belongs to the higher category. */
  lemma BoundariesGoUp()
    ensures Categorize(18.5) == Normal
    ensures Categorize(25.0) == Overweight
    ensures Categorize(30.0) == Obese
  {
  }

  /** The fixed description of each category. */
  function Description(c: Category): string {
    match c
    case Underweight => "Underweight - Consider gaining healthy weight"
    case Normal => "Normal weight - Keep up the good work!"
    case Overweight => "Overweight - Consider a healthier lifestyle"
    case Obese => "Obese - Consult a healthcare professional"
  }

  /** Distinct categories have distinct descriptions. */
  lemma DescriptionInjective(c1: Category, c2: Category)
    requires Description(c1) == Description(c2)
    ensures c1 == c2
  {
    assert Description(c1)[..2] == Description(c2)[..2];
  }

  /** A number with at most one decimal digit. */
  predicate IsTenth(x: real) {
    (x * 10.0).Floor as real == x * 10.0
  }

  /** `Math.round(x * 10) / 10`: JavaScript's Math.round rounds halves up,
      i.e. it is ⌊y + ½⌋. The result has one decimal and is within 0.05 of x. */
  function RoundOneDecimal(x: real): (r: real)
    ensures IsTenth(r)
    ensures x - 0.05 < r <= x + 0.05
  {
    (x * 10.0 + 0.5).Floor as real / 10.0
  }

  /** Rounding preserves order. */
  lemma RoundMonotone(x: real, y: real)
    requires x <= y
    ensures RoundOneDecimal(x) <= RoundOneDecimal(y)
  {
    assert (x * 10.0 + 0.5).Floor <= (y * 10.0 + 0.5).Floor;
  }

  /** A number that already has one decimal is left alone. */
  lemma RoundKeepsTenths(k: int)
    ensures RoundOneDecimal(k as real / 10.0) == k as real / 10.0
  {
    var y := k as real / 10.0;
    assert y * 10.0 + 0.5 == k as real + 0.5;
    assert (k as real + 0.5).Floor == k;
  }

  /** The closed band each category's stored value can land in: rounding
      may carry a value just below a boundary onto it, never past it. */
  predicate InClosedBand(v: real, c: Category) {
    match c
    case Underweight => v <= 18.5
    case Normal => 18.5 <= v <= 25.0
    case Overweight => 25.0 <= v <= 30.0
    case Obese => 30.0 <= v
  }

  /** The stored, rounded value stays in the closed band of the category
      decided on the unrounded BMI. */
  lemma RoundedValueInClosedBand(bmi: real)
    ensures InClosedBand(RoundOneDecimal(bmi), Categorize(bmi))
  {
    RoundKeepsTenths(185);
    RoundKeepsTenths(250);
    RoundKeepsTenths(300);
    match Categorize(bmi)
    case Underweight =>
      RoundMonotone(bmi, 18.5);
    case Normal =>
      RoundMonotone(18.5, bmi);
      RoundMonotone(bmi, 25.0);
    case Overweight =>
      RoundMonotone(25.0, bmi);
      RoundMonotone(bmi, 30.0);
    case Obese =>
      RoundMonotone(30.0, bmi);
  }

  /** The category is decided on the unrounded value: 24.96 is normal
      although its stored value 25.0 would be overweight. */
  lemma CategoryUsesUnroundedValue()
    ensures Categorize(24.96) == Normal
    ensures RoundOneDecimal(24.96) == 25.0
    ensures Categorize(RoundOneDecimal(24.96)) == Overweight
  {
    assert (24.96 * 10.0 + 0.5).Floor == 250;
  }

  /** What every stored result satisfies. */
  predicate WellFormed(r: BmiResult) {
    r.description == Description(r.category) &&
    InClosedBand(r.value, r.category) &&
    IsTenth(r.value) &&
    3.2 <= r.value <= 1200.0
  }

  /** The result computed from an accepted weight and height. */
  function Compute(weightKg: real, height: real, unit: HeightUnit): (r: BmiResult)
    requires WeightInRange(weightKg) && HeightInRange(height, unit)
    ensures WellFormed(r)
    ensures InBand(BmiOf(weightKg, ToMetres(height, unit)), r.category)
    ensures BmiOf(weightKg, ToMetres(height, unit)) - 0.05 < r.value <= BmiOf(weightKg, ToMetres(height, unit)) + 0.05
  {
    var heightM := ToMetres(height, unit);
    var bmi := BmiOf(weightKg, heightM);
    var category := Categorize(bmi);
    BmiBounds(weightKg, heightM);
    RoundedValueInClosedBand(bmi);
    RoundKeepsTenths(32);
    RoundKeepsTenths(12000);
    RoundMonotone(3.2, bmi);
    RoundMonotone(bmi, 1200.0);
    BmiResult(RoundOneDecimal(bmi), category, Description(category))
  }

  /** 70 kg at 175 cm: BMI 22.857…, stored as 22.9, normal. */
  lemma SeventyKgAt175Cm()
    ensures Compute(70.0, 175.0, Cm) == BmiResult(22.9, Normal, Description(Normal))
  {
    var bmi := BmiOf(70.0, ToMetres(175.0, Cm));
    assert ToMetres(175.0, Cm) == 1.75;
    assert bmi * 3.0625 == 70.0;
    assert (bmi * 10.0 + 0.5).Floor == 229;
  }

  /** 50 kg at 1.60 m: BMI 19.53125, stored as 19.5, normal. */
  lemma FiftyKgAt160M()
    ensures Compute(50.0, 1.6, M) == BmiResult(19.5, Normal, Description(Normal))
  {
    var bmi := BmiOf(50.0, 1.6);
    assert bmi * 2.56 == 50.0;
    assert bmi == 19.53125;
    assert (bmi * 10.0 + 0.5).Floor == 195;
  }

  /** The component state of the BMI calculator; `parse` stands for
      `parseFloat`. */
  class BmiCalculator {
    var weight: string
    var height: string
    var heightUnit: HeightUnit
    var result: Option<BmiResult>
    var errors: BmiErrors
    const parse: Parser

    /** A stored result is always well formed. */
    ghost predicate Valid()
      reads this
    {
      result.Some? ==> WellFormed(result.value)
    }

    constructor (parse: Parser)
      ensures Valid()
      ensures this.parse == parse
      ensures weight == "" && height == "" && heightUnit == Cm
      ensures result == None && errors == NoErrors
    {
      this.parse := parse;
      weight, height, heightUnit := "", "", Cm;
      result, errors := None, NoErrors;
    }

    /** Editing the weight field. */
    method SetWeight(raw: string)
      requires Valid()
      modifies this`weight
      ensures Valid()
      ensures weight == raw
    {
      weight := raw;
    }

    /** Editing the height field. */
    method SetHeight(raw: string)
      requires Valid()
      modifies this`height
      ensures Valid()
      ensures height == raw
    {
      height := raw;
    }

    /** The weight gets its message exactly when it is not accepted; the
        height gets HeightError's message; success means neither. */
    method ValidateInputs() returns (ok: bool)
      requires Valid()
      modifies this`errors
      ensures Valid()
      ensures errors.weight == if ValidWeight(weight, parse) then None else Some(WeightMessage)
      ensures errors.height == HeightError(height, heightUnit, parse)
      ensures ok <==> errors == NoErrors
      ensures ok ==> ValidWeight(weight, parse) && parse(height).Some? &&
                     HeightInRange(parse(height).value, heightUnit)
    {
      var newErrors := NoErrors;
      var weightNum := parse(weight);
      var heightNum := parse(height);
      if weight == "" || weightNum.None? || weightNum.value < 20.0 || weightNum.value > 300.0 {
        newErrors := newErrors.(weight := Some(WeightMessage));
      }
      if height == "" || heightNum.None? {
        newErrors := newErrors.(height := Some(InvalidHeightMessage));
      } else if heightUnit == Cm && (heightNum.value < 50.0 || heightNum.value > 250.0) {
        newErrors := newErrors.(height := Some(HeightRangeMessage(Cm)));
      } else if heightUnit == M && (heightNum.value < 0.5 || heightNum.value > 2.5) {
        newErrors := newErrors.(height := Some(HeightRangeMessage(M)));
      }
      errors := newErrors;
      ok := newErrors == NoErrors;
    }

    /** Pressing "Calculate": on a validation failure only `errors` changes;
        otherwise the result is recomputed from the fields and the unit. */
    method CalculateBmi()
      requires Valid()
      modifies this`errors, this`result
      ensures Valid()
      ensures errors.weight == if ValidWeight(weight, parse) then None else Some(WeightMessage)
      ensures errors.height == HeightError(height, heightUnit, parse)
      ensures errors != NoErrors ==> result == old(result)
      ensures errors == NoErrors ==>
        ValidWeight(weight, parse) && parse(height).Some? && HeightInRange(parse(height).value, heightUnit) &&
        result == Some(Compute(parse(weight).value, parse(height).value, heightUnit))
    {
      var ok := ValidateInputs();
      if !ok {
        return;
      }
      var weightKg := parse(weight).value;
      var heightM := parse(height).value;
      if heightUnit == Cm {
        heightM := heightM / 100.0;
      }
      assert heightM == ToMetres(parse(height).value, heightUnit);
      var bmiValue := BmiOf(weightKg, heightM);
      var category := Categorize(bmiValue);
      var description := Description(category);
      result := Some(BmiResult(RoundOneDecimal(bmiValue), category, description));
      assert result.value == Compute(weightKg, parse(height).value, heightUnit);
    }

    /** Reset: both fields, the result and the errors are cleared; the unit
        is kept. */
    method Reset()
      requires Valid()
      modifies this`weight, this`height, this`result, this`errors
      ensures Valid()
      ensures weight == "" && height == ""
      ensures result == None && errors == NoErrors
    {
      weight := "";
      height := "";
      result := None;
      errors := NoErrors;
    }

    /** The unit button: cm and m swap; nothing else changes. */
    method ToggleUnit()
      requires Valid()
      modifies this`heightUnit
      ensures Valid()
      ensures heightUnit == Flip(old(heightUnit))
    {
      heightUnit := if heightUnit == Cm then M else Cm;
    }
  }
}
