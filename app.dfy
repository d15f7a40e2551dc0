/**
 * The calculator window's state: per material, the volume, storage type, q and
 * Kис variables behind its tab; the q sliders and the value labels that exist;
 * and the last successful report, which gates the export.
 */
module App {
  import opened Wrappers
  import opened Calculation
  import opened Export

  /** The fixed material list, in tab, calculation and export order. */
  const Materials: seq<string> := ["Щебень", "Керамзит", "Песок"]

  /** A storage-type preset: the q range it allows and its stacking-height range, if any. */
  datatype StorageType = StorageType(qRange: (real, real), heightRange: Option<(real, real)>)

  const OpenStackedYard: string := "Открытый склад штабельного типа"
  const OtherYards: string := "Другие типы складов"

  const StorageTypes: map<string, StorageType> := map[
    OpenStackedYard := StorageType((3.0, 4.0), Some((5.0, 6.0))),
    OtherYards := StorageType((5.0, 7.0), None)
  ]

  /** The q slider's range when it is created. */
  const InitialQRange: (real, real) := (3.0, 7.0)

  /** The initial and cleared value of Kис. */
  const DefaultKis: real := 0.7

  /** The value "clear" gives q. */
  const ClearedQ: real := 3.0

  /** What pressing "save to Excel" ends in. */
  datatype ExportOutcome =
    | NoResults                           // no calculation has succeeded yet: a warning, nothing written
    | Cancelled                           // the save dialog returned no path: nothing written
    | SaveFailed                          // writing the workbook failed: an error message
    | Saved(path: string, sheet: Sheet)   // the workbook with this sheet was written to `path`

  /** `vars` after setting, one after the other, the entry of each name in `names` to `value`. */
  function Cleared<T>(vars: map<string, T>, names: seq<string>, value: T): map<string, T>
  {
    if names == [] then vars
    else Cleared(vars, names[..|names| - 1], value)[names[|names| - 1] := value]
  }

  /**
   * Setting the entries one by one gives every listed name `value`, leaves every
   * other entry as it was, and adds no key beyond the listed names.
   */
  lemma {:induction false} ClearedEntries<T>(vars: map<string, T>, names: seq<string>, value: T)
    ensures Cleared(vars, names, value).Keys == vars.Keys + set m | m in names
    ensures forall m :: m in Cleared(vars, names, value) ==>
      Cleared(vars, names, value)[m] == if m in names then value else vars[m]
  {
    if names != [] {
      var init := names[..|names| - 1];
      ClearedEntries(vars, init, value);
      assert names == init + [names[|names| - 1]];
    }
  }

  /** The index of the first material without both value labels, or the length when none lacks one. */
  function FirstUnlabelled(qLabels: set<string>, kisLabels: set<string>, from: nat): (k: nat)
    requires from <= |Materials|
    ensures from <= k <= |Materials|
    ensures forall j :: from <= j < k ==> Materials[j] in qLabels && Materials[j] in kisLabels
    ensures k < |Materials| ==> Materials[k] !in qLabels || Materials[k] !in kisLabels
    decreases |Materials| - from
  {
    if from == |Materials| then from
    else if Materials[from] !in qLabels || Materials[from] !in kisLabels then from
    else FirstUnlabelled(qLabels, kisLabels, from + 1)
  }

  /**
   * How many materials "clear" resets: all of them when every label is
   * reachable, otherwise those up to and including the first unlabelled one.
   */
  function ClearedCount(qLabels: set<string>, kisLabels: set<string>): (n: nat)
    ensures n <= |Materials|
  {
    var k := FirstUnlabelled(qLabels, kisLabels, 0);
    if k < |Materials| then k + 1 else k
  }

  class StorageCalculatorApp {
    var volumeVars: map<string, real>
    var storageTypeVars: map<string, string>
    var qVars: map<string, real>
    var kisVars: map<string, real>
    /** The q sliders that can still be reached by material, with their (from, to) range. */
    var qSliders: map<string, (real, real)>
    /** The materials whose q value label can still be reached. */
    var qValueLabels: set<string>
    /** The materials whose Kис value label can still be reached. */
    var kisValueLabels: set<string>
    /** The last successful report; None until a calculation succeeds. */
    var lastResults: Option<Report>

    /** Every material has its four input variables. */
    ghost predicate Valid()
      reads this`volumeVars, this`storageTypeVars, this`qVars, this`kisVars
    {
      forall m :: m in Materials ==>
        m in volumeVars && m in storageTypeVars && m in qVars && m in kisVars
    }

    /**
     * Builds one tab per material. The variables are kept per material, but the
     * slider and label dictionaries are created afresh inside the loop, so only
     * the last material's slider and labels remain reachable.
     */
    constructor ()
      ensures Valid()
      ensures volumeVars.Keys == storageTypeVars.Keys == qVars.Keys == kisVars.Keys == set m | m in Materials
      ensures forall m :: m in Materials ==>
        volumeVars[m] == 0.0 && storageTypeVars[m] == "" && qVars[m] == 0.0 && kisVars[m] == DefaultKis
      ensures qSliders == map[Materials[|Materials| - 1] := InitialQRange]
      ensures qValueLabels == kisValueLabels == {Materials[|Materials| - 1]}
      ensures lastResults == None
    {
      var volumes: map<string, real> := map[];
      var types: map<string, string> := map[];
      var qs: map<string, real> := map[];
      var kiss: map<string, real> := map[];
      var sliders: map<string, (real, real)> := map[];
      var qLabels: set<string> := {};
      var kisLabels: set<string> := {};
      var i := 0;
      while i < |Materials|
        invariant 0 <= i <= |Materials|
        invariant volumes.Keys == types.Keys == qs.Keys == kiss.Keys == set m | m in Materials[..i]
        invariant forall m :: m in Materials[..i] ==>
          volumes[m] == 0.0 && types[m] == "" && qs[m] == 0.0 && kiss[m] == DefaultKis
        invariant i > 0 ==> sliders == map[Materials[i - 1] := InitialQRange]
        invariant i > 0 ==> qLabels == kisLabels == {Materials[i - 1]}
      {
        var m := Materials[i];
        assert Materials[..i + 1] == Materials[..i] + [m];
        volumes := volumes[m := 0.0];
        types := types[m := ""];
        qs := qs[m := 0.0];
        sliders := map[];
        sliders := sliders[m := InitialQRange];
        qLabels := {};
        qLabels := qLabels + {m};
        kiss := kiss[m := DefaultKis];
        kisLabels := {};
        kisLabels := kisLabels + {m};
        i := i + 1;
      }
      assert Materials[..|Materials|] == Materials;
      volumeVars, storageTypeVars, qVars, kisVars := volumes, types, qs, kiss;
      qSliders, qValueLabels, kisValueLabels := sliders, qLabels, kisLabels;
      lastResults := None;
    }

    /**
     * The window as its layout evidently intends it: the slider and label
     * dictionaries are created once, so every tab keeps its q slider and value
     * labels, and q starts at the slider's lower end, the 3.0 its label shows.
     */
    constructor Corrected()
      ensures Valid()
      ensures forall m :: m in Materials ==>
        volumeVars[m] == 0.0 && storageTypeVars[m] == "" && qVars[m] == ClearedQ && kisVars[m] == DefaultKis
      ensures forall m :: m in Materials ==> m in qSliders && qSliders[m] == InitialQRange
      ensures qValueLabels == kisValueLabels == set m | m in Materials
      ensures lastResults == None
    {
      var volumes: map<string, real> := map[];
      var types: map<string, string> := map[];
      var qs: map<string, real> := map[];
      var kiss: map<string, real> := map[];
      var sliders: map<string, (real, real)> := map[];
      var qLabels: set<string> := {};
      var kisLabels: set<string> := {};
      var i := 0;
      while i < |Materials|
        invariant 0 <= i <= |Materials|
        invariant volumes.Keys == types.Keys == qs.Keys == kiss.Keys == sliders.Keys == set m | m in Materials[..i]
        invariant qLabels == kisLabels == set m | m in Materials[..i]
        invariant forall m :: m in Materials[..i] ==>
          volumes[m] == 0.0 && types[m] == "" && qs[m] == ClearedQ && kiss[m] == DefaultKis &&
          sliders[m] == InitialQRange
      {
        var m := Materials[i];
        assert Materials[..i + 1] == Materials[..i] + [m];
        volumes := volumes[m := 0.0];
        types := types[m := ""];
        qs := qs[m := ClearedQ];
        sliders := sliders[m := InitialQRange];
        qLabels := qLabels + {m};
        kiss := kiss[m := DefaultKis];
        kisLabels := kisLabels + {m};
        i := i + 1;
      }
      assert Materials[..|Materials|] == Materials;
      volumeVars, storageTypeVars, qVars, kisVars := volumes, types, qs, kiss;
      qSliders, qValueLabels, kisValueLabels := sliders, qLabels, kisLabels;
      lastResults := None;
    }

    /** The four values of every material's tab, in material order. */
    function Inputs(): seq<MaterialInput>
      reads this`volumeVars, this`storageTypeVars, this`qVars, this`kisVars
      requires Valid()
    {
      var volumes, qs, kiss := volumeVars, qVars, kisVars;
      seq(|Materials|, k requires 0 <= k < |Materials| =>
        assert Materials[k] in Materials;
        MaterialInput(Materials[k], volumes[Materials[k]], qs[Materials[k]], kiss[Materials[k]]))
    }

    /**
     * Runs the calculation over the current inputs. On success the report
     * becomes the last result; on failure the previous last result, or its
     * absence, stays as it was.
     */
    method Calculate() returns (outcome: Result<Report, CalcError>)
      requires Valid()
      modifies this`lastResults
      ensures Valid()
      ensures outcome == Compute(Inputs())
      ensures outcome.Ok? ==> lastResults == Some(outcome.value)
      ensures outcome.Err? ==> lastResults == old(lastResults)
    {
      outcome := Calculation.Calculate(Inputs());
      if outcome.Ok? {
        lastResults := Some(outcome.value);
      }
    }

    /**
     * Exports the last result. `destination` is the path the save dialog
     * returned (empty when cancelled) and `written` whether writing the
     * workbook there succeeded.
     */
    method SaveToExcel(destination: string, written: bool) returns (outcome: ExportOutcome)
      ensures lastResults == None ==> outcome == NoResults
      ensures lastResults != None && destination == "" ==> outcome == Cancelled
      ensures lastResults != None && destination != "" && !written ==> outcome == SaveFailed
      ensures lastResults != None && destination != "" && written ==>
        outcome.Saved? && outcome.path == destination && LaysOut(outcome.sheet, lastResults.value)
    {
      if lastResults == None {
        return NoResults;
      }
      if destination == "" {
        return Cancelled;
      }
      var sheet := FillSheet(lastResults.value);
      if !written {
        return SaveFailed;
      }
      outcome := Saved(destination, sheet);
    }

    /**
     * Applies the storage-type preset of `material`: for a known type, the q
     * slider gets the type's range and q its minimum. The lookup of the
     * material's slider fails, before q is set, unless the material is one whose
     * slider is still reachable; the q label refresh afterwards fails the same
     * way. An unknown type changes nothing. A preset that is applied leaves q
     * inside the slider's initial range, the q half of `InSliderRanges`.
     */
    method UpdateQSlider(material: string) returns (ok: bool)
      requires Valid() && material in Materials
      modifies this`qSliders, this`qVars
      ensures Valid()
      ensures storageTypeVars[material] !in StorageTypes ==>
        ok && qSliders == old(qSliders) && qVars == old(qVars)
      ensures storageTypeVars[material] in StorageTypes && material !in old(qSliders) ==>
        !ok && qSliders == old(qSliders) && qVars == old(qVars)
      ensures storageTypeVars[material] in StorageTypes && material in old(qSliders) ==>
        var range := StorageTypes[storageTypeVars[material]].qRange;
        ok == (material in qValueLabels) &&
        qSliders == old(qSliders)[material := range] &&
        qVars == old(qVars)[material := range.0]
      ensures storageTypeVars[material] in StorageTypes && material in old(qSliders) ==>
        InitialQRange.0 <= qVars[material] <= InitialQRange.1
    {
      var storageType := storageTypeVars[material];
      if storageType in StorageTypes {
        var range := StorageTypes[storageType].qRange;
        PresetsWithinSlider();
        if material !in qSliders {
          return false;
        }
        qSliders := qSliders[material := range];
        qVars := qVars[material := range.0];
        return material in qValueLabels;
      }
      ok := true;
    }

    /** Choosing `storageType` in the material's storage-type list, which then applies the preset. */
    method SelectStorageType(material: string, storageType: string) returns (ok: bool)
      requires Valid() && material in Materials
      modifies this`storageTypeVars, this`qSliders, this`qVars
      ensures Valid()
      ensures storageTypeVars == old(storageTypeVars)[material := storageType]
      ensures storageType in StorageTypes && material in old(qSliders) ==>
        qSliders == old(qSliders)[material := StorageTypes[storageType].qRange] &&
        qVars == old(qVars)[material := StorageTypes[storageType].qRange.0] &&
        ok == (material in qValueLabels)
      ensures storageType !in StorageTypes || material !in old(qSliders) ==>
        qSliders == old(qSliders) && qVars == old(qVars) && ok == (storageType !in StorageTypes)
    {
      storageTypeVars := storageTypeVars[material := storageType];
      ok := UpdateQSlider(material);
    }

    /**
     * Resets the materials in order to volume 0, no storage type, q = 3 and
     * Kис = 0.7, refreshing each material's value labels after its reset. The
     * first material whose label cannot be reached ends the loop with a failure,
     * its own values already reset and the later materials untouched. The last
     * result is never removed.
     */
    method ClearFields() returns (ok: bool)
      requires Valid()
      modifies this`volumeVars, this`storageTypeVars, this`qVars, this`kisVars
      ensures Valid()
      ensures ok == (FirstUnlabelled(qValueLabels, kisValueLabels, 0) == |Materials|)
      ensures volumeVars == Cleared(old(volumeVars), Materials[..ClearedCount(qValueLabels, kisValueLabels)], 0.0)
      ensures storageTypeVars == Cleared(old(storageTypeVars), Materials[..ClearedCount(qValueLabels, kisValueLabels)], "")
      ensures qVars == Cleared(old(qVars), Materials[..ClearedCount(qValueLabels, kisValueLabels)], ClearedQ)
      ensures kisVars == Cleared(old(kisVars), Materials[..ClearedCount(qValueLabels, kisValueLabels)], DefaultKis)
    {
      ok := true;
      var i := 0;
      ghost var reset := 0;
      while i < |Materials| && ok
        invariant 0 <= i <= |Materials|
        invariant Valid()
        invariant ok ==> reset == i <= FirstUnlabelled(qValueLabels, kisValueLabels, 0)
        invariant !ok ==> reset == ClearedCount(qValueLabels, kisValueLabels) && FirstUnlabelled(qValueLabels, kisValueLabels, 0) < |Materials|
        invariant reset <= |Materials|
        decreases |Materials| - i, ok
        invariant volumeVars == Cleared(old(volumeVars), Materials[..reset], 0.0)
        invariant storageTypeVars == Cleared(old(storageTypeVars), Materials[..reset], "")
        invariant qVars == Cleared(old(qVars), Materials[..reset], ClearedQ)
        invariant kisVars == Cleared(old(kisVars), Materials[..reset], DefaultKis)
      {
        assert Materials[..i + 1][..i] == Materials[..i];
        ResetMaterial(Materials[i]);
        reset := i + 1;
        if Materials[i] !in qValueLabels || Materials[i] !in kisValueLabels {
          ok := false;
        } else {
          i := i + 1;
        }
      }
    }

    /** Sets one material's volume, storage type, q and Kис to their cleared values. */
    method ResetMaterial(m: string)
      requires Valid() && m in Materials
      modifies this`volumeVars, this`storageTypeVars, this`qVars, this`kisVars
      ensures Valid()
      ensures volumeVars == old(volumeVars)[m := 0.0] && storageTypeVars == old(storageTypeVars)[m := ""]
      ensures qVars == old(qVars)[m := ClearedQ] && kisVars == old(kisVars)[m := DefaultKis]
    {
      volumeVars := volumeVars[m := 0.0];
      storageTypeVars := storageTypeVars[m := ""];
      qVars := qVars[m := ClearedQ];
      kisVars := kisVars[m := DefaultKis];
    }
  }

  /**
   * A freshly opened window: choosing a storage type applies its preset only on
   * the last material's tab; on the first tab q keeps its initial 0.
   */
  method FreshWindowPresets() returns (firstOk: bool, firstQ: real, lastOk: bool, lastQ: real)
    ensures !firstOk && firstQ == 0.0
    ensures lastOk && lastQ == 5.0
  {
    var app := new StorageCalculatorApp();
    assert Materials[0] !in app.qSliders;
    assert OtherYards in StorageTypes;
    firstOk := app.SelectStorageType(Materials[0], OtherYards);
    firstQ := app.qVars[Materials[0]];
    assert Materials[2] in app.qSliders && Materials[2] in app.qValueLabels;
    lastOk := app.SelectStorageType(Materials[2], OtherYards);
    lastQ := app.qVars[Materials[2]];
  }

  /**
   * A freshly opened window with every volume entered: clearing fails after
   * resetting the first material, leaving the other two volumes as they were.
   */
  method FreshWindowClear() returns (cleared: bool, volumes: seq<real>)
    ensures !cleared
    ensures volumes == [0.0, 100.0, 100.0]
  {
    var app := new StorageCalculatorApp();
    app.volumeVars := map m | m in Materials :: 100.0;
    assert Materials[0] !in app.qValueLabels;
    assert FirstUnlabelled(app.qValueLabels, app.kisValueLabels, 0) == 0;
    cleared := app.ClearFields();
    volumes := [app.volumeVars[Materials[0]], app.volumeVars[Materials[1]], app.volumeVars[Materials[2]]];
  }

  /**
   * A freshly opened window: calculating with the untouched volumes fails on the
   * first material, and the export is then refused for want of a result.
   */
  method FreshWindowCalculateAndSave(destination: string) returns (calculated: Result<Report, CalcError>, saved: ExportOutcome)
    ensures calculated == Err(NonPositiveVolume(Materials[0]))
    ensures saved == NoResults
  {
    var app := new StorageCalculatorApp();
    calculated := app.Calculate();
    saved := app.SaveToExcel(destination, true);
  }

  /**
   * A freshly opened window with every volume entered but no slider moved and no
   * storage type chosen: q is still 0, so the first area's division fails.
   */
  method FreshWindowDivisionByZero() returns (calculated: Result<Report, CalcError>)
    ensures calculated == Err(DivisionByZero)
  {
    var app := new StorageCalculatorApp();
    app.volumeVars := map m | m in Materials :: 100.0;
    ComputeRejectsFirstOffender(app.Inputs(), 0);
    calculated := app.Calculate();
  }

  /** In the corrected window, "clear" resets every material and succeeds. */
  method CorrectedWindowClear() returns (cleared: bool, volumes: seq<real>)
    ensures cleared
    ensures volumes == [0.0, 0.0, 0.0]
  {
    var app := new StorageCalculatorApp.Corrected();
    app.volumeVars := map m | m in Materials :: 100.0;
    assert FirstUnlabelled(app.qValueLabels, app.kisValueLabels, 0) == |Materials|;
    ghost var entered := app.volumeVars;
    cleared := app.ClearFields();
    ClearedEntries(entered, Materials[..|Materials|], 0.0);
    volumes := [app.volumeVars[Materials[0]], app.volumeVars[Materials[1]], app.volumeVars[Materials[2]]];
  }

  /** In the corrected window, choosing a storage type on the first tab applies its preset. */
  method CorrectedWindowPreset() returns (ok: bool, q: real)
    ensures ok && q == 5.0
  {
    var app := new StorageCalculatorApp.Corrected();
    assert OtherYards in StorageTypes;
    ok := app.SelectStorageType(Materials[0], OtherYards);
    q := app.qVars[Materials[0]];
  }

  /**
   * In the corrected window, entering positive volumes is enough for the
   * calculation to succeed with a positive total, which is kept for the export.
   */
  method CorrectedWindowCalculate() returns (calculated: Result<Report, CalcError>, kept: bool)
    ensures calculated.Ok? && calculated.value.totalArea > 0.0
    ensures kept
  {
    var app := new StorageCalculatorApp.Corrected();
    app.volumeVars := map m | m in Materials :: 100.0;
    PositiveInputsGivePositiveAreas(app.Inputs());
    calculated := app.Calculate();
    kept := app.lastResults == Some(calculated.value);
  }

  /** Every preset's q range lies inside the slider's initial range, minimum first. */
  lemma PresetsWithinSlider()
    ensures forall t :: t in StorageTypes ==>
      InitialQRange.0 <= StorageTypes[t].qRange.0 <= StorageTypes[t].qRange.1 <= InitialQRange.1
    ensures StorageTypes[OpenStackedYard].qRange.0 == 3.0 && StorageTypes[OtherYards].qRange.0 == 5.0
  {
  }
}
