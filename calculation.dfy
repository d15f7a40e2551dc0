/**
 * The area calculation of the storage-yard calculator: for every material,
 * in the order of the material list, the area S = V / (q * Kис) and the
 * running total, with the whole calculation abandoned at the first material
 * that cannot be computed.
 */
module Calculation {
  import opened Wrappers

  /** What one material's tab holds at the moment "calculate" is pressed. */
  datatype MaterialInput = MaterialInput(material: string, volume: real, q: real, kis: real)

  /** One record of the result list: the inputs it was computed from and its area. */
  datatype MaterialResult = MaterialResult(material: string, volume: real, q: real, kis: real, area: real)

  /** The result list and the total area, as kept for the export. */
  datatype Report = Report(results: seq<MaterialResult>, totalArea: real)

  /**
   * Why a calculation was abandoned: a volume that is not positive (the message
   * names the material), or a product q * Kис of zero, which makes the division
   * raise before any check of q or Kис exists.
   */
  datatype CalcError =
    | NonPositiveVolume(material: string)
    | DivisionByZero

  /** The error, if any, that this material's inputs raise; the volume is checked first. */
  function Check(input: MaterialInput): Option<CalcError>
  {
    if input.volume <= 0.0 then Some(NonPositiveVolume(input.material))
    else if input.q * input.kis == 0.0 then Some(DivisionByZero)
    else None
  }

  /** The record for one material whose inputs pass the check. */
  function Evaluate(input: MaterialInput): MaterialResult
    requires Check(input) == None
  {
    MaterialResult(input.material, input.volume, input.q, input.kis, input.volume / (input.q * input.kis))
  }

  /** The total area, accumulated from 0 in list order, one addition per record. */
  function Total(results: seq<MaterialResult>): real
  {
    if results == [] then 0.0
    else Total(results[..|results| - 1]) + results[|results| - 1].area
  }

  /** The index of the first material whose inputs raise an error, or the length when none does. */
  function FirstInvalid(inputs: seq<MaterialInput>): (k: nat)
    ensures k <= |inputs|
    ensures forall j :: 0 <= j < k ==> Check(inputs[j]) == None
    ensures k < |inputs| ==> Check(inputs[k]).Some?
  {
    if inputs == [] then 0
    else if Check(inputs[0]).Some? then 0
    else 1 + FirstInvalid(inputs[1..])
  }

  /** The records of a list of inputs that all pass the check, in the same order. */
  function EvaluateAll(inputs: seq<MaterialInput>): seq<MaterialResult>
    requires forall k :: 0 <= k < |inputs| ==> Check(inputs[k]) == None
  {
    seq(|inputs|, k requires 0 <= k < |inputs| => Evaluate(inputs[k]))
  }

  /** What one press of "calculate" produces: the error of the first offender, or the report. */
  function Compute(inputs: seq<MaterialInput>): Result<Report, CalcError>
  {
    var k := FirstInvalid(inputs);
    if k < |inputs| then Err(Check(inputs[k]).value)
    else
      var results := EvaluateAll(inputs);
      Ok(Report(results, Total(results)))
  }

  /**
   * One material's step: the volume check, then the area S = V / (q * Kис),
   * whose division fails when q * Kис is zero.
   */
  method CalculateOne(input: MaterialInput) returns (r: Result<MaterialResult, CalcError>)
    ensures Check(input) == None ==> r == Ok(Evaluate(input))
    ensures Check(input) != None ==> r == Err(Check(input).value)
  {
    var v := input.volume;
    if v <= 0.0 {
      return Err(NonPositiveVolume(input.material));
    }
    var q := input.q;
    var kis := input.kis;
    if q * kis == 0.0 {
      return Err(DivisionByZero);
    }
    var s := v / (q * kis);
    r := Ok(MaterialResult(input.material, v, q, kis, s));
  }

  /**
   * The calculation loop: walks the inputs in order, stops at the first
   * material whose step fails, and otherwise appends one record per material
   * and adds its area to the total.
   */
  method Calculate(inputs: seq<MaterialInput>) returns (r: Result<Report, CalcError>)
    ensures r == Compute(inputs)
  {
    var results: seq<MaterialResult> := [];
    var totalArea := 0.0;
    var i := 0;
    while i < |inputs|
      invariant 0 <= i <= |inputs|
      invariant forall j :: 0 <= j < i ==> Check(inputs[j]) == None
      invariant |results| == i
      invariant forall j :: 0 <= j < i ==> results[j] == Evaluate(inputs[j])
      invariant totalArea == Total(results)
    {
      var step := CalculateOne(inputs[i]);
      if step.Err? {
        ComputeRejectsFirstOffender(inputs, i);
        return Err(step.error);
      }
      var record := step.value;
      totalArea := totalArea + record.area;
      assert (results + [record])[..i] == results;
      results := results + [record];
      i := i + 1;
    }
    ComputeOfAccepted(inputs, results);
    r := Ok(Report(results, totalArea));
  }

  /** When every input passes, the report is the records of the inputs, in order, and their total. */
  lemma ComputeOfAccepted(inputs: seq<MaterialInput>, results: seq<MaterialResult>)
    requires forall j :: 0 <= j < |inputs| ==> Check(inputs[j]) == None
    requires |results| == |inputs|
    requires forall j :: 0 <= j < |inputs| ==> results[j] == Evaluate(inputs[j])
    ensures Compute(inputs) == Ok(Report(results, Total(results)))
  {
    assert FirstInvalid(inputs) == |inputs|;
    assert results == EvaluateAll(inputs);
  }

  /** A calculation fails exactly when some material's inputs raise an error. */
  lemma ComputeFailsIffSomeInputRejected(inputs: seq<MaterialInput>)
    ensures Compute(inputs).Err? <==> exists k :: 0 <= k < |inputs| && Check(inputs[k]).Some?
  {
    if Compute(inputs).Err? {
      var k := FirstInvalid(inputs);
      assert 0 <= k < |inputs| && Check(inputs[k]).Some?;
    }
  }

  /**
   * When material k is the first whose inputs raise an error, the calculation
   * fails with exactly that error; a non-positive volume is reported with the
   * material's name.
   */
  lemma ComputeRejectsFirstOffender(inputs: seq<MaterialInput>, k: nat)
    requires k < |inputs| && Check(inputs[k]).Some?
    requires forall j :: 0 <= j < k ==> Check(inputs[j]) == None
    ensures Compute(inputs) == Err(Check(inputs[k]).value)
    ensures inputs[k].volume <= 0.0 ==> Compute(inputs) == Err(NonPositiveVolume(inputs[k].material))
  {
  }

  /**
   * When every material passes, the report holds one record per input, in input
   * order, carrying that input's volume, q and Kис unchanged and the area
   * V / (q * Kис); the total is the sum of those areas taken in order.
   */
  lemma ComputeSucceeds(inputs: seq<MaterialInput>)
    requires forall k :: 0 <= k < |inputs| ==> inputs[k].volume > 0.0 && inputs[k].q * inputs[k].kis != 0.0
    ensures Compute(inputs).Ok?
    ensures |Compute(inputs).value.results| == |inputs|
    ensures forall k :: 0 <= k < |inputs| ==>
      var r := Compute(inputs).value.results[k];
      r.material == inputs[k].material && r.volume == inputs[k].volume &&
      r.q == inputs[k].q && r.kis == inputs[k].kis &&
      r.area == inputs[k].volume / (inputs[k].q * inputs[k].kis)
    ensures Compute(inputs).value.totalArea == Total(Compute(inputs).value.results)
  {
    assert forall k :: 0 <= k < |inputs| ==> Check(inputs[k]) == None;
    var results := EvaluateAll(inputs);
    ComputeOfAccepted(inputs, results);
    forall k | 0 <= k < |inputs|
      ensures results[k] == Evaluate(inputs[k])
    {
    }
  }

  /** Accumulating from the front gives the same total: the first area plus the total of the rest. */
  lemma {:induction false} TotalFromFront(r: MaterialResult, rest: seq<MaterialResult>)
    ensures Total([r] + rest) == r.area + Total(rest)
  {
    if rest != [] {
      var all := [r] + rest;
      assert all[..|all| - 1] == [r] + rest[..|rest| - 1];
      TotalFromFront(r, rest[..|rest| - 1]);
    }
  }

  /** The records in the opposite order. */
  function Reversed(results: seq<MaterialResult>): seq<MaterialResult>
  {
    if results == [] then [] else Reversed(results[1..]) + [results[0]]
  }

  /** Summing the areas in the opposite order gives the same total: the order of accumulation does not matter. */
  lemma {:induction false} TotalReversed(results: seq<MaterialResult>)
    ensures Total(Reversed(results)) == Total(results)
  {
    if results != [] {
      var rest := results[1..];
      var rev := Reversed(rest) + [results[0]];
      TotalReversed(rest);
      assert rev[..|rev| - 1] == Reversed(rest);
      assert results == [results[0]] + rest;
      TotalFromFront(results[0], rest);
    }
  }

  /** The total of two lists one after the other is the sum of their totals. */
  lemma {:induction false} TotalConcat(a: seq<MaterialResult>, b: seq<MaterialResult>)
    ensures Total(a + b) == Total(a) + Total(b)
  {
    if b != [] {
      var init := b[..|b| - 1];
      assert (a + b)[..|a + b| - 1] == a + init;
      TotalConcat(a, init);
    } else {
      assert a + b == a;
    }
  }

  /**
   * Any rearrangement of the records has the same total: the order in which the
   * areas are accumulated does not matter.
   */
  lemma {:induction false} TotalPermutation(a: seq<MaterialResult>, b: seq<MaterialResult>)
    requires multiset(a) == multiset(b)
    ensures Total(a) == Total(b)
    decreases |a|
  {
    if a == [] {
      assert |b| == |multiset(b)| == 0;
    } else {
      var x := a[|a| - 1];
      var init := a[..|a| - 1];
      assert a == init + [x];
      assert x in multiset(b);
      var j :| 0 <= j < |b| && b[j] == x;
      var rest := b[..j] + b[j + 1..];
      assert b == b[..j] + [x] + b[j + 1..];
      assert multiset(init) == multiset(a) - multiset{x};
      assert multiset(rest) == multiset(b) - multiset{x};
      TotalPermutation(init, rest);
      TotalConcat(b[..j], [x]);
      TotalConcat(b[..j] + [x], b[j + 1..]);
      TotalConcat(b[..j], b[j + 1..]);
      assert Total([x]) == x.area by {
        assert [x][..0] == [];
      }
    }
  }

  /** A non-empty list of positive areas has a positive total. */
  lemma {:induction false} TotalPositive(results: seq<MaterialResult>)
    requires |results| > 0
    requires forall k :: 0 <= k < |results| ==> results[k].area > 0.0
    ensures Total(results) > 0.0
  {
    var init := results[..|results| - 1];
    if |init| > 0 {
      TotalPositive(init);
    }
  }

  /** Inputs inside the slider ranges: q in [3, 7] and Kис in [0.7, 0.8]. */
  predicate InSliderRanges(input: MaterialInput)
  {
    3.0 <= input.q <= 7.0 && 0.7 <= input.kis <= 0.8
  }

  /** The area is the S that solves S * q * Kис = V. */
  lemma AreaSolvesFormula(input: MaterialInput)
    requires Check(input) == None
    ensures Evaluate(input).area * (input.q * input.kis) == input.volume
  {
  }

  /** Inside the slider ranges, the product q * Kис lies between 2.1 and 5.6. */
  lemma ProductWithinSliderBounds(q: real, kis: real)
    requires 3.0 <= q <= 7.0 && 0.7 <= kis <= 0.8
    ensures 2.1 <= q * kis <= 5.6
  {
    assert q * kis >= 3.0 * kis;
    assert q * kis <= 7.0 * kis;
  }

  /** Dividing a positive volume by a larger positive divisor gives a smaller positive quotient. */
  lemma QuotientAntitone(v: real, p: real, p': real)
    requires v > 0.0 && 0.0 < p <= p'
    ensures 0.0 < v / p' <= v / p
  {
    assert (v / p') * p' == v;
    assert (v / p) * p == v;
    assert (v / p') * p <= (v / p') * p';
  }

  /**
   * One material with a positive volume and inputs inside the slider ranges has
   * an area between V / 5.6 and V / 2.1, so in particular a positive one.
   */
  lemma AreaWithinSliderBounds(input: MaterialInput)
    requires input.volume > 0.0 && InSliderRanges(input)
    ensures input.q * input.kis != 0.0
    ensures input.volume / 5.6 <= Evaluate(input).area <= input.volume / 2.1
    ensures Evaluate(input).area > 0.0
  {
    var p := input.q * input.kis;
    ProductWithinSliderBounds(input.q, input.kis);
    QuotientAntitone(input.volume, p, 5.6);
    QuotientAntitone(input.volume, 2.1, p);
  }

  /**
   * With every volume positive and every q and Kис inside the slider ranges,
   * the calculation succeeds, every area is positive and, for a non-empty
   * material list, so is the total.
   */
  lemma PositiveInputsGivePositiveAreas(inputs: seq<MaterialInput>)
    requires |inputs| > 0
    requires forall k :: 0 <= k < |inputs| ==> inputs[k].volume > 0.0 && InSliderRanges(inputs[k])
    ensures Compute(inputs).Ok?
    ensures forall k :: 0 <= k < |inputs| ==> Compute(inputs).value.results[k].area > 0.0
    ensures Compute(inputs).value.totalArea > 0.0
  {
    forall k | 0 <= k < |inputs|
      ensures inputs[k].q * inputs[k].kis != 0.0 && Evaluate(inputs[k]).area > 0.0
    {
      AreaWithinSliderBounds(inputs[k]);
    }
    ComputeSucceeds(inputs);
    TotalPositive(Compute(inputs).value.results);
  }

  /**
   * A worked example: crushed stone 100 m³ at q = 3, Kис = 0.7; expanded clay
   * 50 m³ at q = 5, Kис = 0.75; sand 200 m³ at q = 4, Kис = 0.8.
   */
  lemma WorkedExample()
    ensures
      var inputs := [MaterialInput("Щебень", 100.0, 3.0, 0.7),
                     MaterialInput("Керамзит", 50.0, 5.0, 0.75),
                     MaterialInput("Песок", 200.0, 4.0, 0.8)];
      var results := [MaterialResult("Щебень", 100.0, 3.0, 0.7, 1000.0 / 21.0),
                      MaterialResult("Керамзит", 50.0, 5.0, 0.75, 40.0 / 3.0),
                      MaterialResult("Песок", 200.0, 4.0, 0.8, 62.5)];
      Compute(inputs) == Ok(Report(results, 1000.0 / 21.0 + 40.0 / 3.0 + 62.5))
  {
    var inputs := [MaterialInput("Щебень", 100.0, 3.0, 0.7),
                   MaterialInput("Керамзит", 50.0, 5.0, 0.75),
                   MaterialInput("Песок", 200.0, 4.0, 0.8)];
    var expected := [MaterialResult("Щебень", 100.0, 3.0, 0.7, 1000.0 / 21.0),
                     MaterialResult("Керамзит", 50.0, 5.0, 0.75, 40.0 / 3.0),
                     MaterialResult("Песок", 200.0, 4.0, 0.8, 62.5)];
    ComputeSucceeds(inputs);
    var results := Compute(inputs).value.results;
    assert results == expected;
    assert expected[..2][..1] == expected[..1];
    assert expected[..1][..0] == [];
    assert Total(expected[..1]) == 1000.0 / 21.0;
    assert Total(expected[..2]) == 1000.0 / 21.0 + 40.0 / 3.0;
  }

  /** A zero volume in the first material stops the calculation there, naming that material. */
  lemma ZeroFirstVolumeExample(second: MaterialInput, third: MaterialInput)
    ensures Compute([MaterialInput("Щебень", 0.0, 3.0, 0.7), second, third])
            == Err(NonPositiveVolume("Щебень"))
  {
    ComputeRejectsFirstOffender([MaterialInput("Щебень", 0.0, 3.0, 0.7), second, third], 0);
  }
}
