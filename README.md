# Storage-yard area calculator — a Dafny model

This project models the computing core of a small desktop calculator. The
calculator sizes aggregate storage yards for three fixed materials: crushed
stone ("Щебень"), expanded clay ("Керамзит") and sand ("Песок"). For each
material it takes a volume V, a q coefficient (m³ of material per m² of yard)
and a yard-utilisation coefficient Kис. The area is S = V / (q · Kис). The areas
are summed into a total. The last successful result can be exported to a
worksheet.

The model has four modules:

- `Wrappers` (wrappers.dfy) holds `Option` and `Result`.
- `Calculation` (calculation.dfy) holds the calculation:
  - the loop `Calculate` and its one-material step `CalculateOne`;
  - the specification `Compute`, built from `FirstInvalid`, `EvaluateAll` and `Total`;
  - lemmas for the first-offender error, the per-record formula, order and
    total, positivity inside the slider ranges, and a worked example.
- `Export` (export.dfy) holds the worksheet layout:
  - the layout is a map from (row, column) to a cell value;
  - `FillSheet` fills it with the same loops as the source;
  - `LaysOut` states where every value lands;
  - a reader (`ReadReport`) and the round-trip lemma recover the report from a laid-out sheet.
- `App` (app.dfy) holds the window state as the class `StorageCalculatorApp`:
  - the per-material Tk variables are maps keyed by material;
  - the slider and label dictionaries are kept as the set of materials they still reach;
  - `lastResults` is an `Option<Report>` that gates the export;
  - the methods are `Calculate`, `SaveToExcel`, `UpdateQSlider`, `SelectStorageType`, `ClearFields` and its per-material step `ResetMaterial`.

Numbers are Dafny `real`s with exact arithmetic, not IEEE doubles.

Details of the code worth noting:

- The material names, headers and the total label are the code's Russian strings.
- The total row is preceded by an empty row.
- q·Kис is not always non-zero. The q variable starts at 0.0 (main.py:60), so a
  calculation with positive volumes entered, before q is touched, fails with a
  division by zero. The handler
  at main.py:164 catches that failure. Its message names no material.
- A storage-type preset works only on the last material's tab. `clear` stops
  after the first material. Both come from the dictionaries rebuilt inside the
  tab loop (main.py:61, 65, 74).

## Model

| member | source | states |
|---|---|---|
| `Calculation.CalculateOne` | main.py:121-129 | One material's step: if the volume is not positive, an error naming the material; otherwise, if q·Kис is zero, the division error; otherwise the record with area V/(q·Kис) |
| `Calculation.Calculate` | main.py:117-139 | The loop returns exactly `Compute(inputs)`: the first offender's error, or one record per material in order with the total accumulated from 0 |
| `Calculation.FirstInvalid` | main.py:120-123 | The index at which the walk stops: every earlier material passes and the material at that index (if any) is rejected |
| `Calculation.ComputeFailsIffSomeInputRejected` | main.py:120-123 | The calculation fails if and only if some material's inputs are rejected |
| `Calculation.ComputeRejectsFirstOffender` | main.py:120-123 | When material k is the first rejected one, the result is exactly its error, and a non-positive volume's error names that material |
| `Calculation.ComputeOfAccepted` | main.py:117-139 | When all materials pass, the report is their records in input order and the total of those records |
| `Calculation.ComputeSucceeds` | main.py:125-139 | On success there is one record per material, in order; each carries its volume, q and Kис unchanged and the area V/(q·Kис); the total is their in-order sum |
| `Calculation.AreaSolvesFormula` | main.py:129 | The stored area S satisfies S·(q·Kис) = V |
| `Calculation.TotalFromFront` | main.py:118-131 | The left-to-right total equals the first area plus the total of the rest |
| `Calculation.TotalReversed` | main.py:118-131 | Accumulating the areas in reverse order gives the same total |
| `Calculation.TotalConcat` | main.py:118-131 | The total of two lists one after the other is the sum of their totals |
| `Calculation.TotalPermutation` | main.py:118-131 | Any rearrangement of the records (same multiset) has the same total, so the total does not depend on summation order |
| `Calculation.TotalPositive` | main.py:118-131 | A non-empty list of positive areas has a positive total |
| `Calculation.ProductWithinSliderBounds` | main.py:62-72 | With q in [3, 7] and Kис in [0.7, 0.8], q·Kис lies in [2.1, 5.6] |
| `Calculation.AreaWithinSliderBounds` | main.py:122-129 | A positive volume inside the slider ranges gives an area between V/5.6 and V/2.1, hence positive |
| `Calculation.PositiveInputsGivePositiveAreas` | main.py:120-131 | Positive volumes and in-range sliders make the calculation succeed, with every area and the total positive |
| `Calculation.WorkedExample` | main.py:125-139 | 100 m³ at 3/0.7, 50 m³ at 5/0.75 and 200 m³ at 4/0.8 give areas 1000/21, 40/3 and 62.5 and their sum as total |
| `Calculation.ZeroFirstVolumeExample` | main.py:120-123 | A zero volume for "Щебень" fails naming "Щебень", whatever the other materials hold |
| `Export.WriteRow` | main.py:193-197 | Writes material, volume, q, Kис and area into columns 1-5 of one row; every other cell, in that row or any other, keeps its value |
| `Export.FillSheet` | main.py:187-201 | The filled sheet satisfies `LaysOut`: header in row 1, columns 1-5; result i in row i+2; nothing else in row n+2; "ИТОГО:" and the total in columns 1 and 5 of row n+3; no other cell |
| `Export.GapRowEmpty` | main.py:199 | No cell of row n+2 is written |
| `Export.LayoutDeterminesSheet` | main.py:187-201 | The layout fixes every cell: two sheets laid out for one report are equal |
| `Export.ReadRowsOfLayout` | main.py:192-197 | Reading rows 2..k+1 of a laid-out sheet gives the first k records |
| `Export.ExportRoundTrip` | main.py:187-201 | Reading a laid-out sheet back gives the exported report, every record and the total |
| `App.ClearedEntries` | main.py:225-229 | Resetting the listed materials one by one sets each of them to the value and keeps every other entry |
| `App.FirstUnlabelled` | main.py:225-231 | The first material whose label lookup fails: every earlier material has both labels, and this one lacks one |
| `App.ClearedCount` | main.py:225-231 | "clear" resets at most all materials: up to and including the first one without labels |
| `App.StorageCalculatorApp.constructor` | main.py:31-76 | Volumes start at 0, types at "", q at 0, Kис at 0.7; only the last material keeps its q slider (range 3-7) and value labels; there is no last result |
| `App.StorageCalculatorApp.Calculate` | main.py:115-166 | The outcome is `Compute` of the current inputs; success stores the report as last result; failure leaves the previous last result or its absence unchanged |
| `App.StorageCalculatorApp.SaveToExcel` | main.py:168-222 | Without a last result nothing is written; an empty path is a no-op; a failed save is reported; otherwise the written sheet lays out the last result |
| `App.StorageCalculatorApp.UpdateQSlider` | main.py:99-105 | Unknown type: nothing changes. Known type but no slider for the material: fails before q is set. Otherwise the slider gets the preset range, q gets its minimum, which lies in the slider's 3-7 range, and success depends on the q label |
| `App.StorageCalculatorApp.SelectStorageType` | main.py:52-56 | Choosing a type stores it and then applies the preset, as `UpdateQSlider` states |
| `App.StorageCalculatorApp.ResetMaterial` | main.py:226-229 | One material's volume, type, q and Kис become 0, "", 3 and 0.7 |
| `App.StorageCalculatorApp.ClearFields` | main.py:224-234 | Materials are reset in order up to and including the first without labels; success only if all have labels; the last result is untouched |
| `App.FreshWindowPresets` | main.py:99-105 | In the window as built, a preset on the first tab fails and leaves q at 0; on the last tab it sets q to 5 |
| `App.FreshWindowClear` | main.py:224-231 | In the window as built, "clear" fails after resetting only the first material's volume |
| `App.FreshWindowCalculateAndSave` | main.py:120-171 | In the window as built, calculating fails on "Щебень" and the export is then refused |
| `App.FreshWindowDivisionByZero` | main.py:125-129 | With volumes entered and q untouched, the calculation fails with the division error |
| `App.StorageCalculatorApp.Corrected` | main.py:60-76 | The corrected window gives every material its slider and labels, and starts q at 3 |
| `App.CorrectedWindowClear` | main.py:224-231 | In the corrected window, "clear" succeeds and resets every volume |
| `App.CorrectedWindowPreset` | main.py:99-105 | In the corrected window, a preset on the first tab succeeds and sets q to 5 |
| `App.CorrectedWindowCalculate` | main.py:120-162 | In the corrected window, positive volumes make the calculation succeed with a positive total, which is stored as the last result |
| `App.PresetsWithinSlider` | main.py:16-19 | Each preset's q range lies within the slider's 3-7 range; the minimums are 3 and 5 |

## Findings

| source | as written | input that shows it | evidently intended | confidence | as-written member | corrected member |
|---|---|---|---|---|---|---|
| main.py:61-76 | `q_sliders`, `q_value_labels` and `kis_value_labels` are reassigned to `{}` inside the per-material loop, so only "Песок" keeps its entries | choosing a storage type on the "Щебень" tab; pressing "clear" | the dictionaries are created once, so every tab keeps its slider and labels | high, not executed | `App.FreshWindowPresets` | `App.CorrectedWindowPreset` |
| main.py:224-231 | because of the row above, `clear_fields` raises a KeyError at the label refresh of the first material | pressing "clear" with volumes 100, 100, 100 leaves 0, 100, 100 | every material is reset | high, not executed | `App.FreshWindowClear` | `App.CorrectedWindowClear` |
| main.py:60-66 | the q variable is created without a value (0.0), while its slider starts at 3 and its label shows "3.0" | volumes 100, 100, 100 with no slider moved: "calculate" raises division by zero | q starts at 3 | medium, not executed | `App.FreshWindowDivisionByZero` | `App.CorrectedWindowCalculate` |

The methods of `StorageCalculatorApp` are the same for both constructors. The
corrected behaviour comes only from `StorageCalculatorApp.Corrected`. All other
results hold for any state that satisfies `Valid()`.

## Left out

- Widgets are not modelled: the notebook and tabs, label texts, the slider-drag
  callbacks `update_q_value` and `update_kis_value`, the results text box, the
  status bar and the message boxes. The label callbacks appear only through
  whether their label lookup succeeds.
- Text formatting is not modelled: the `:.1f` and `:.2f` result block, the bold
  font, and the column auto-width `(max_length + 2) * 1.2`. These are
  presentation and floating-point string lengths.
- The openpyxl workbook, the file dialog and `wb.save` are foreign library and
  I/O calls:
  - the dialog's answer is the `destination` parameter, where "" means cancelled;
  - the outcome of the save is the `written` parameter;
  - the timestamped default file name, which reads the clock, is not modelled.
- IEEE double rounding, overflow and underflow are not modelled. The zero test
  is on the exact product q·Kис.
- A `DoubleVar.get()` that cannot parse the field is not modelled. It would
  raise an error that the handler at main.py:164 also catches.
- A storage type typed into the combobox, without a selection event, is not a
  separate operation. `UpdateQSlider` accepts any stored string.
- The slider's `from_`/`to` reconfiguration is kept only as the (from, to) pair
  in `qSliders`.
- `App.StorageCalculatorApp.Calculate` returns its outcome. The source returns
  nothing: on success it writes the results text box and the status bar, on
  failure it shows a message box and sets the status bar.
- `App.StorageCalculatorApp.UpdateQSlider` and `ClearFields` return `false`
  where the source's KeyError escapes the Tk callback.
