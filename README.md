# Anaesthesia chart (ficha anestésica): record store, state transitions and page logic

This project models the data core of a single-page anaesthesia chart that is
kept in the browser. The chart has these sections:

- patient, surgery, adverse events ("intercorrências"), techniques and monitors;
- vital-sign rows;
- administered and other drugs, fluids and equipment;
- the recovery-room (RPA) report: drugs, materials, Aldrete scores, summary, notes and destination.

The Dafny modules follow the program's files:

| module | file | what it holds |
|---|---|---|
| `Js`, `JsObject` | (shared) | the JavaScript semantics the core relies on: `null`/`undefined`, truthiness, `trim`, `filter` by index, insertion-ordered objects and `{ ...o, ...p }` |
| `FichaSchema` | `src/store/fichaStorage.js`, `src/context/FichaContext.jsx` | the entities, the default chart (`initial` / `initialState`, the same literal in both files), the storage cell, and the top-level merge `{ ...initial, ...JSON.parse(s) }` |
| `FichaStorage` | `src/store/fichaStorage.js` | the `ficha` store as a class over the storage cell, with every method |
| `FichaContext` | `src/context/FichaContext.jsx` | `load`, the persist effect, the `setState` updaters, the resets |
| `SinaisVitais` | `src/pages/SinaisVitais.jsx` | `parseHM`, `fmtHM`, `nextSlot`, `bumpTime`, `add`, `del` |
| `MedicacoesEquipamentos` | `src/pages/MedicacoesEquipamentos.jsx` | `maskDecimalBR`, the list edits, `setEquipField`, the marks, the fluid-type reset |
| `RelatorioRpa` | `src/pages/RelatorioRPA.jsx` | the Aldrete table and total, `classify`, the drug and material forms and lists, the discharge fields |
| `PdfReport` | `src/utils/pdf.js` | `score`, the report's Aldrete total, `safe`, `val`, `u`, `mapEquip`, the marked-equipment list, the ventilation, TCI and TOF row rules, the adverse-event rows, `deunicode` |
| `DadosPaciente` | `src/pages/DadosPaciente.jsx` | the patient and surgery fields, the adverse-event box and text, the technique and monitor checkboxes |

## How the store is modelled

Storage is a cell: `Absent` (no key, or an empty string), `Corrupt` (text
that `JSON.parse` rejects), or `Stored(doc)`. A stored document may lack any
top-level section.

- `read()` copies `initial` only at the top level.
- Whenever the cell lacks `vitais`, `meds` or `rpa`, the copy shares that
  nested object with `initial`.
- The store methods assign into those nested objects in place
  (`s.vitais.registros = …`, `s.meds.equipamentos = …`, `s.rpa.drogas = …`,
  `s.rpa.aldrete = …`).

So the model keeps these three sections as heap objects (`VitaisObj`,
`MedsObj`, `RpaObj`) owned by `initial`. Each method's contract says when
`initial` itself changes. `resetAll()` writes a top-level copy of `initial`,
so it restores the defaults only while `initial` is pristine:

- `ResetAfterAddKeepsVital` shows a vital that survives a reset;
- `ResetRestoresDefaultsWhenStored` shows that a reset does restore the defaults once the cell holds every nested section.

The other sections are always replaced whole, so they are values.

Every store method is tied to the pure updater of the same name in
`FichaContext`. Each store method ensures `Value() == FichaContext.X(old(Value()), …)`.
The lemmas about the updaters thus speak for the store too.

## How the pages are modelled

Each page is a class:

- a `store` reference;
- a datatype `ui` holding the page's local React state;
- one method per handler.

A handler's contract gives the new `ui` and the new stored chart. It also
states that an "in step" predicate (what the page shows agrees with the
store) is preserved. Mounting a page establishes it (`MountInSync`).

Pure helpers (time arithmetic, the mask, the report rules) are functions
with lemmas.

## Model

| member | source | states |
|---|---|---|
| FichaSchema.Defaults | src/store/fichaStorage.js:4-22 | the default chart has no techniques, no vital rows, no drugs, fluids or RPA drugs, no adverse events, no materials and no destination; every monitor is off and every Aldrete score is 0 |
| FichaSchema.WrittenIsRead | src/store/fichaStorage.js:24-34 | a whole chart written to the cell reads back as itself, whatever the defaults |
| FichaSchema.ReadCellSections | src/store/fichaStorage.js:24-31 | absent or corrupt storage reads as the defaults; otherwise each of the eight sections (patient, surgery, adverse events, techniques, monitors, vital signs, medications and RPA) present in the document replaces the default section wholesale, and a missing one takes the default's |
| FichaStorage.VitaisObj.constructor | src/store/fichaStorage.js:14 | a `vitais` object holds the given rows |
| FichaStorage.MedsObj.constructor | src/store/fichaStorage.js:16-19 | a `meds` object holds the given lists and equipment |
| FichaStorage.RpaObj.constructor | src/store/fichaStorage.js:21 | an `rpa` object holds the given section |
| FichaStorage.ToggledTecnicas | src/store/fichaStorage.js:50-55 | a listed name is removed everywhere and no other name's membership changes; an unlisted name is appended at the end |
| FichaStorage.ToggleKeepsNoDuplicates | src/store/fichaStorage.js:50-55 | toggling a duplicate-free list never creates a duplicate |
| FichaStorage.ToggleTwice | src/store/fichaStorage.js:50-55 | toggling twice restores every name's membership, and restores the list itself when the name was absent |
| FichaStorage.RemoveAllAppended | src/store/fichaStorage.js:53 | removing a name that was just appended to a list lacking it gives the list back |
| FichaStorage.Store.constructor | src/store/fichaStorage.js:4-22 | a store starts over the given cell with a pristine `initial` and fresh section objects |
| FichaStorage.Store.Read | src/store/fichaStorage.js:24-31 | `read()` yields the current chart; each nested section is a fresh object when the cell holds it and `initial`'s own object otherwise |
| FichaStorage.Store.Write | src/store/fichaStorage.js:32-34 | the cell then holds exactly the chart the copy denotes |
| FichaStorage.Store.GetAll | src/store/fichaStorage.js:37 | `getAll()` never fails: `initial`'s chart for an absent or corrupt cell, else the stored document merged over it |
| FichaStorage.Store.ResetAll | src/store/fichaStorage.js:38 | the chart becomes what `initial` denotes now, which is the defaults only if `initial` was still pristine |
| FichaStorage.Store.SetPaciente | src/store/fichaStorage.js:41-43 | the patient section is spread with the patch, nothing else changes, and the whole chart is written |
| FichaStorage.Store.SetCirurgia | src/store/fichaStorage.js:44-46 | the surgery section is spread with the patch, nothing else changes |
| FichaStorage.Store.SetIntercorrencias | src/store/fichaStorage.js:47-49 | the adverse-event section is spread with the patch, nothing else changes |
| FichaStorage.Store.ToggleTecnica | src/store/fichaStorage.js:50-55 | only the technique list changes, to its toggled form |
| FichaStorage.Store.SetMonitor | src/store/fichaStorage.js:56-58 | `!!val` is stored under the monitor's name and every other monitor keeps its value |
| FichaStorage.Store.AddVital | src/store/fichaStorage.js:61-63 | the row is appended; `initial`'s rows change too exactly when the cell held no `vitais` |
| FichaStorage.Store.AddMedAdministrada | src/store/fichaStorage.js:66-68 | the drug is appended; `initial`'s `meds` is updated in place exactly when the cell held no `meds` |
| FichaStorage.Store.RemoveMedAdministrada | src/store/fichaStorage.js:69-71 | position `i` is removed (nothing when out of range), with the same aliasing rule |
| FichaStorage.Store.AddOutraMed | src/store/fichaStorage.js:72-74 | the drug is appended to the other drugs |
| FichaStorage.Store.RemoveOutraMed | src/store/fichaStorage.js:75-77 | position `i` of the other drugs is removed |
| FichaStorage.Store.AddFluido | src/store/fichaStorage.js:78-80 | the fluid is appended |
| FichaStorage.Store.RemoveFluido | src/store/fichaStorage.js:81-83 | position `i` of the fluids is removed |
| FichaStorage.Store.SetEquip | src/store/fichaStorage.js:84-86 | the equipment object is spread with the patch, in place when the cell held no `meds` |
| FichaStorage.Store.AddRpaDroga | src/store/fichaStorage.js:89-91 | the RPA drug is appended; `initial`'s `rpa` changes exactly when the cell held no `rpa` |
| FichaStorage.Store.RemoveRpaDroga | src/store/fichaStorage.js:92-94 | position `i` of the RPA drugs is removed |
| FichaStorage.Store.SetRpa | src/store/fichaStorage.js:95-97 | the RPA section is replaced by a new spread object, so `initial` is never touched |
| FichaStorage.Store.SetAldreteField | src/store/fichaStorage.js:98-100 | only `rpa.aldrete[field]` changes, to `idx`; every other score and RPA field is kept |
| FichaStorage.ResetAfterAddKeepsVital | src/store/fichaStorage.js:24-63 | on an empty store, a vital added before `resetAll()` is still there afterwards, so the chart is not the defaults |
| FichaStorage.ResetRestoresDefaultsWhenStored | src/store/fichaStorage.js:24-38 | when the cell holds the vital-sign, medication and RPA sections, adding a vital, adding an RPA drug and setting one equipment flag, then `resetAll()`, give the defaults: none of these updates reaches `initial` |
| FichaContext.Load | src/context/FichaContext.jsx:23 | `load` yields the defaults for absent or corrupt storage; otherwise each of the eight stored sections (patient, surgery, adverse events, techniques, monitors, vital signs, medications and RPA) replaces its default and each missing one is the default |
| FichaContext.LoadPersisted | src/context/FichaContext.jsx:23-28 | whatever state the effect persists is the state the next load yields |
| FichaContext.SetPaciente | src/context/FichaContext.jsx:38 | only the patient section changes, and it becomes the spread of the patch over it |
| FichaContext.SetCirurgia | src/context/FichaContext.jsx:39 | only the surgery section changes, by spread |
| FichaContext.SpreadInter | src/context/FichaContext.jsx:40 | each adverse-event field takes the patch's value when the patch names it, else keeps its own |
| FichaContext.SetIntercorrencias | src/context/FichaContext.jsx:40 | only the adverse events change, by spread |
| FichaContext.SetTecnicas | src/context/FichaContext.jsx:41 | an array replaces the techniques and nothing else; anything else leaves the state unchanged |
| FichaContext.SetMonitorizacao | src/context/FichaContext.jsx:42 | only the monitors change, by spread |
| FichaContext.AddVital | src/context/FichaContext.jsx:44 | the row is appended: one longer, the row last, the earlier rows unchanged; nothing else changes |
| FichaContext.RemoveVital | src/context/FichaContext.jsx:45 | exactly position `i` is removed; an out-of-range `i` changes nothing |
| FichaContext.AddMedAdministrada | src/context/FichaContext.jsx:47 | the drug is appended to the administered list; the rest of `meds` and the chart are unchanged |
| FichaContext.RemoveMedAdministrada | src/context/FichaContext.jsx:48 | exactly position `i` of the administered list is removed |
| FichaContext.AddOutraMed | src/context/FichaContext.jsx:50 | the drug is appended to the other drugs |
| FichaContext.RemoveOutraMed | src/context/FichaContext.jsx:51 | exactly position `i` of the other drugs is removed |
| FichaContext.AddFluido | src/context/FichaContext.jsx:53 | the fluid is appended |
| FichaContext.RemoveFluido | src/context/FichaContext.jsx:54 | exactly position `i` of the fluids is removed |
| FichaContext.SetEquipamentos | src/context/FichaContext.jsx:56 | only the equipment object changes, by spread |
| FichaContext.AddRpaDroga | src/context/FichaContext.jsx:58 | the RPA drug is appended; the rest of `rpa` is unchanged |
| FichaContext.RemoveRpaDroga | src/context/FichaContext.jsx:59 | exactly position `i` of the RPA drugs is removed |
| FichaContext.SpreadRpa | src/context/FichaContext.jsx:60 | each RPA field takes the patch's value when the patch names it, else keeps its own |
| FichaContext.SetRpa | src/context/FichaContext.jsx:60 | only the RPA section changes, by spread |
| FichaContext.ResetPaciente | src/context/FichaContext.jsx:62 | the patient section returns to the default and nothing else changes |
| FichaContext.ResetCirurgia | src/context/FichaContext.jsx:63 | the surgery section returns to the default and nothing else changes |
| FichaContext.ResetIntercorrencias | src/context/FichaContext.jsx:64 | the adverse events return to the default and the techniques are emptied as well; nothing else changes |
| FichaContext.ResetMonitorizacao | src/context/FichaContext.jsx:65 | the monitors return to the default and nothing else changes |
| FichaContext.ResetVitais | src/context/FichaContext.jsx:66 | the vital rows are emptied and nothing else changes |
| FichaContext.ResetMeds | src/context/FichaContext.jsx:67 | `meds` returns to the default and nothing else changes |
| FichaContext.ResetRpa | src/context/FichaContext.jsx:68 | `rpa` returns to the default and nothing else changes |
| FichaContext.ResetAll | src/context/FichaContext.jsx:69 | the state becomes the defaults and the removed key loads as the defaults |
| FichaContext.ResetUndoesEdits | src/context/FichaContext.jsx:38-68 | a section reset discards every earlier edit of that section |
| FichaContext.RemoveUndoesAdd | src/context/FichaContext.jsx:44-59 | removing the entry just added restores the state, in every list |
| FichaContext.TwoVitalsThenRemoveFirst | src/context/FichaContext.jsx:44-45 | two additions and a removal of the first leave only the second row |
| Js.TrimEmptyIff | src/pages/MedicacoesEquipamentos.jsx:181-182 | a name trims to nothing exactly when every character is ECMAScript white space |
| Js.DigitsOnly | src/pages/RelatorioRPA.jsx:197 | the result holds only digits, no more characters than the input, is the input itself when that was all digits, and a one-character input is kept exactly when it is a digit |
| Js.DigitsOnlyConcat | src/pages/RelatorioRPA.jsx:197 | filtering a concatenation concatenates the filtered parts, so the digits come out in input order with their multiplicity |
| Js.ExceptIndex | src/pages/SinaisVitais.jsx:92 | `filter((_, idx) => idx !== i)` is `s[..i] + s[i+1..]` for an index in range and `s` otherwise |
| Js.RemoveAll | src/store/fichaStorage.js:53 | `filter(t => t !== x)` keeps exactly the elements other than `x`, and a one-element list is kept exactly when its element is not `x` |
| Js.RemoveAllConcat | src/store/fichaStorage.js:53 | filtering a concatenation concatenates the filtered parts, so the order of the kept elements is the input's |
| Js.RemoveAllCounts | src/store/fichaStorage.js:53 | every element other than `x` keeps its multiplicity and `x` occurs no more |
| Js.RemoveAllKeepsNoDuplicates | src/store/fichaStorage.js:53 | filtering a duplicate-free list keeps it duplicate-free |
| JsObject.Set | src/pages/DadosPaciente.jsx:38 | `{ ...o, [k]: v }` maps `k` to `v` and every other key as before; a new key goes last |
| JsObject.SpreadLookup | src/store/fichaStorage.js:42 | after `{ ...o, ...p }` a key the patch holds has the patch's value, any other key its old one |
| JsObject.SpreadUnique | src/store/fichaStorage.js:42 | a spread never holds a key twice |
| JsObject.SpreadIsSpreadOf | src/store/fichaStorage.js:42 | a spread keeps the old keys in place, then appends the patch's new keys in the patch's order, with the patch's values winning |
| JsObject.NewKeysFresh | src/store/fichaStorage.js:42 | the keys a patch adds are absent from the old object and present in the patch |
| JsObject.SpreadKeys | src/store/fichaStorage.js:42 | the spread's key order is the old keys followed by the patch's new keys in the patch's order |
| SinaisVitais.JsRem | src/pages/SinaisVitais.jsx:56 | JavaScript's `%` takes the sign of the dividend |
| SinaisVitais.DayRemIsMod | src/pages/SinaisVitais.jsx:56-59 | `((x % 1440) + 1440) % 1440` is the mathematical remainder modulo one day |
| SinaisVitais.ParseHM | src/pages/SinaisVitais.jsx:53-57 | the result is in `[0, 1440)`; it is 0 for any text not of the form two digits, colon, two digits, and `(60h + m) mod 1440` otherwise |
| SinaisVitais.TwoDigits | src/pages/SinaisVitais.jsx:60-61 | `String(n).padStart(2, "0")` for `n < 100` is two digits whose value is `n` |
| SinaisVitais.FmtHM | src/pages/SinaisVitais.jsx:58-63 | for every integer, negative ones included, the result is "HH:MM" with hours below 24 and minutes below 60, denoting `mins mod 1440` |
| SinaisVitais.FmtHMPeriodic | src/pages/SinaisVitais.jsx:59 | counts a whole number of days apart print alike |
| SinaisVitais.FormatParsed | src/pages/SinaisVitais.jsx:53-63 | a valid time of day survives parsing and printing |
| SinaisVitais.FmtHMOf | src/pages/SinaisVitais.jsx:58-63 | hours below 24 and minutes below 60 print as their two-digit forms around a colon |
| SinaisVitais.FmtDigits | src/pages/SinaisVitais.jsx:58-63 | the minute count of a valid "ab:cd" prints as "ab:cd" |
| SinaisVitais.ParseFormatted | src/pages/SinaisVitais.jsx:53-63 | printing then parsing gives the count modulo one day |
| SinaisVitais.NextSlot | src/pages/SinaisVitais.jsx:64 | the result is a valid time whose minute count is the start's (empty read as 06:00) plus the step, modulo one day |
| SinaisVitais.NextSlotBack | src/pages/SinaisVitais.jsx:64 | `nextSlot(nextSlot(h, k), -k)` is the normalised start `fmtHM(parseHM(h))` |
| SinaisVitais.StepBack | src/pages/SinaisVitais.jsx:64 | from a valid time `k` minutes past `p`, `nextSlot(t, -k)` prints `p` |
| SinaisVitais.BumpedTime | src/pages/SinaisVitais.jsx:78-81 | the bumped time is the form time, else the surgery start, else 06:00, moved by `dir * step` minutes |
| SinaisVitais.BumpUpThenDown | src/pages/SinaisVitais.jsx:78-81 | bumping up and then down returns to the normalised start |
| SinaisVitais.MapNum | src/pages/SinaisVitais.jsx:361-365 | the row keeps the time and rhythm and converts every reading with `toNum` |
| SinaisVitais.VitalsPage.constructor | src/pages/SinaisVitais.jsx:67-72 | the page mounts with the stored rows, an empty time, the default readings and a 10-minute step |
| SinaisVitais.VitalsPage.BumpTime | src/pages/SinaisVitais.jsx:78-81 | only the form time changes, to the bumped time |
| SinaisVitais.VitalsPage.Add | src/pages/SinaisVitais.jsx:83-89 | nothing happens without a time; otherwise exactly one converted row is appended locally and in the store, and the time advances by one step |
| SinaisVitais.VitalsPage.Del | src/pages/SinaisVitais.jsx:91-94 | exactly index `i` leaves the local list; the store has no `removeVital`, so the stored rows stay and the handler fails |
| SinaisVitais.DeletedRowReturns | src/pages/SinaisVitais.jsx:66-94 | a row deleted on the page comes back when the page mounts again |
| MedicacoesEquipamentos.KeepNumeric | src/pages/MedicacoesEquipamentos.jsx:46 | only digits, commas and dots remain, text made only of them is kept, and a one-character input is kept exactly when it is one of them |
| MedicacoesEquipamentos.KeepNumericConcat | src/pages/MedicacoesEquipamentos.jsx:46 | filtering a concatenation concatenates the filtered parts, so the kept characters keep their order and multiplicity |
| MedicacoesEquipamentos.DotsToCommas | src/pages/MedicacoesEquipamentos.jsx:48 | every dot becomes a comma and every other character stays |
| MedicacoesEquipamentos.BeforeComma | src/pages/MedicacoesEquipamentos.jsx:51-52 | `parts[0]` is the comma-free prefix before the first comma |
| MedicacoesEquipamentos.AfterComma | src/pages/MedicacoesEquipamentos.jsx:60 | the rest is a suffix of the text |
| MedicacoesEquipamentos.SplitAtComma | src/pages/MedicacoesEquipamentos.jsx:51-60 | text with a comma is its first part, the comma, and the rest |
| MedicacoesEquipamentos.NoCommaSplit | src/pages/MedicacoesEquipamentos.jsx:51-60 | text without a comma is all first part and has no rest |
| MedicacoesEquipamentos.RemoveCommas | src/pages/MedicacoesEquipamentos.jsx:61 | no comma is left, and comma-free text is kept |
| MedicacoesEquipamentos.StripLeadingZeros | src/pages/MedicacoesEquipamentos.jsx:52 | the result is a non-empty suffix (for non-empty input) that starts with no zero followed by a digit |
| MedicacoesEquipamentos.Take | src/pages/MedicacoesEquipamentos.jsx:53 | `slice(0, n)` is a prefix of at most `n` characters, the whole text when it is short enough |
| MedicacoesEquipamentos.Normalized | src/pages/MedicacoesEquipamentos.jsx:43-48 | after the first two steps only digits and commas are left |
| MedicacoesEquipamentos.IntPart | src/pages/MedicacoesEquipamentos.jsx:51-53 | the integer part is digits, at most `maxInt` of them, with no leading zero |
| MedicacoesEquipamentos.DecPart | src/pages/MedicacoesEquipamentos.jsx:60-62 | the decimal part is digits, at most `maxDec` of them |
| MedicacoesEquipamentos.MaskDecimalBR | src/pages/MedicacoesEquipamentos.jsx:41-71 | `null`/`undefined` give ""; with `maxDec == 0` the output is digits only |
| MedicacoesEquipamentos.MaskCases | src/pages/MedicacoesEquipamentos.jsx:55-70 | the output is the integer part alone, the integer part (or "0") and a bare comma, or the integer part (or "0"), a comma and the decimals, each under its own condition |
| MedicacoesEquipamentos.MaskShape | src/pages/MedicacoesEquipamentos.jsx:46-70 | the output holds digits and at most one comma; its integer part has at most `maxInt` digits and no leading zero unless it is "0"; its decimal part has at most `maxDec` digits |
| MedicacoesEquipamentos.MaskOfInt | src/pages/MedicacoesEquipamentos.jsx:41-71 | a masked integer part masks to itself |
| MedicacoesEquipamentos.MaskOfPair | src/pages/MedicacoesEquipamentos.jsx:41-71 | a masked integer part, a comma and masked decimals mask to themselves |
| MedicacoesEquipamentos.MaskIdempotent | src/pages/MedicacoesEquipamentos.jsx:41-71 | masking an already masked value leaves it unchanged |
| MedicacoesEquipamentos.TrailingSeparator | src/pages/MedicacoesEquipamentos.jsx:65-67 | a separator typed without decimals shows as the integer part (or "0") and a comma |
| MedicacoesEquipamentos.MaskDose | src/pages/MedicacoesEquipamentos.jsx:170-186 | the entry keeps every field but the dose, which is masked with 4 integer and 2 decimal digits |
| MedicacoesEquipamentos.MaskDoseKeepsMasked | src/pages/MedicacoesEquipamentos.jsx:170-186 | re-masking a dose on add keeps a dose the input already masked |
| MedicacoesEquipamentos.OutEntry | src/pages/MedicacoesEquipamentos.jsx:180-186 | the entry appended by `addOut` has the trimmed name through `titleCase`, the masked dose, and the form's unit, route and time |
| MedicacoesEquipamentos.Seed | src/pages/MedicacoesEquipamentos.jsx:113-153 | a `!!` field holds the stored value's truthiness; a `\|\| d` field holds the stored value when truthy and the default text otherwise |
| MedicacoesEquipamentos.EquipLocal | src/pages/MedicacoesEquipamentos.jsx:113-153 | each of the 28 local equipment fields is seeded by its rule, in order |
| MedicacoesEquipamentos.MarksLocal | src/pages/MedicacoesEquipamentos.jsx:155-163 | each of the seven marks is the stored value's truthiness |
| MedicacoesEquipamentos.MountUi | src/pages/MedicacoesEquipamentos.jsx:103-110 | the page mounts with the stored lists and empty forms |
| MedicacoesEquipamentos.MedsPage.constructor | src/pages/MedicacoesEquipamentos.jsx:101-163 | the page's lists start equal to the stored ones |
| MedicacoesEquipamentos.MedsPage.AddAdm | src/pages/MedicacoesEquipamentos.jsx:168-174 | an empty name changes nothing; otherwise the entry with its dose masked is appended locally and in the store and the form is cleared; lists stay in step |
| MedicacoesEquipamentos.MedsPage.DelAdm | src/pages/MedicacoesEquipamentos.jsx:175-178 | exactly index `i` leaves the local list and the store |
| MedicacoesEquipamentos.MedsPage.AddOut | src/pages/MedicacoesEquipamentos.jsx:180-192 | a name that trims to nothing changes nothing; otherwise the trimmed, title-cased name and masked dose are appended |
| MedicacoesEquipamentos.MedsPage.DelOut | src/pages/MedicacoesEquipamentos.jsx:193-196 | exactly index `i` leaves the local list and the store |
| MedicacoesEquipamentos.MedsPage.AddFlu | src/pages/MedicacoesEquipamentos.jsx:198-204 | no fluid chosen changes nothing; otherwise the form is appended as it stands and cleared |
| MedicacoesEquipamentos.MedsPage.DelFlu | src/pages/MedicacoesEquipamentos.jsx:205-208 | exactly index `i` leaves the local list and the store |
| MedicacoesEquipamentos.MedsPage.SelectFluidType | src/pages/MedicacoesEquipamentos.jsx:405 | choosing a type clears the chosen fluid |
| MedicacoesEquipamentos.MedsPage.SetEquipField | src/pages/MedicacoesEquipamentos.jsx:217-220 | key `k` takes `v` locally and in the stored equipment; every other stored key is unchanged |
| MedicacoesEquipamentos.MedsPage.ToggleMark | src/pages/MedicacoesEquipamentos.jsx:485-489 | the mark flips locally and its new flag is stored |
| PdfReport.Score | src/utils/pdf.js:513 | the score is 0..2: the index itself for 0, 1 or 2, and 0 for any other or a missing index |
| PdfReport.ReportAldreteTotal | src/utils/pdf.js:408-409 | the total of five scores lies in 0..10 |
| PdfReport.Safe | src/utils/pdf.js:534 | the dash exactly for `null`, `undefined` and "", the value itself otherwise |
| PdfReport.Val | src/utils/pdf.js:535 | the dash exactly for `null`, `undefined` and "", `String(v)` otherwise |
| PdfReport.SafeValAgree | src/utils/pdf.js:534-535 | `safe` and `val` print the same text |
| PdfReport.U | src/utils/pdf.js:19 | `u` prints `null`/`undefined` as "" and, without the Unicode font, passes the text through `deunicode` |
| PdfReport.MapEquip | src/utils/pdf.js:523-532 | a known key gets its non-empty label, an unknown key maps to itself |
| PdfReport.MarkedKeys | src/utils/pdf.js:246-247 | the selection is no longer than the object |
| PdfReport.MarkedKeysExactly | src/utils/pdf.js:239-247 | the selected keys are exactly those outside `excl` with a truthy value; none is selected when none is marked |
| PdfReport.MarkedKeysConcat | src/utils/pdf.js:246-247 | the selection keeps the object's order |
| PdfReport.MapSeq | src/utils/pdf.js:248 | `.map` keeps the length and sends each key, in order, through the function (`mapEquip` here) |
| PdfReport.Join | src/utils/pdf.js:249 | joining nothing gives "", and a non-empty first part gives a non-empty text |
| PdfReport.Marcados | src/utils/pdf.js:246-254 | the dash when nothing is marked, else the joined labels |
| PdfReport.DefaultMarksNone | src/utils/pdf.js:238-254 | the default equipment lists no marked equipment and prints the dash |
| PdfReport.VentilationRows | src/utils/pdf.js:280-291 | no rows for spontaneous or missing ventilation; otherwise six rows, the last one Vt for a VCV or SIMV mode and inspiratory pressure otherwise |
| PdfReport.TciConc | src/utils/pdf.js:306 | "" without a value; otherwise the value, a space and the unit, "ng" when none |
| PdfReport.TciRows | src/utils/pdf.js:304-312 | no rows without the pump; the mode first; target and concentration only for Schneider and Marsh; the rate only for the volumetric mode |
| PdfReport.TofRows | src/utils/pdf.js:330-341 | no rows without the monitor; three base rows plus the PTC row or the tetanic row for those patterns |
| PdfReport.InterRows | src/utils/pdf.js:74-79 | "Sim"/"Não" from the flag; the description only when there were adverse events, the dash otherwise |
| PdfReport.InterTextHiddenWhenUnchecked | src/utils/pdf.js:74-79 | with the box unchecked, the stored text never reaches the report |
| PdfReport.ReplaceAll | src/utils/pdf.js:606 | `replaceAll` of one character replaces exactly its occurrences and keeps the length |
| PdfReport.ReplaceChain | src/utils/pdf.js:605-616 | the chain of replacements keeps the length |
| PdfReport.ReplaceChainAt | src/utils/pdf.js:605-616 | the chain acts on each character on its own |
| PdfReport.Substitute | src/utils/pdf.js:606-616 | a character no step replaces is its own substitute |
| PdfReport.SubstitutionsSeparated | src/utils/pdf.js:606-616 | every substitute is a plain character and no plain character is replaced |
| PdfReport.ChainCharIsSubstitute | src/utils/pdf.js:605-616 | running the steps in order replaces a character by its single substitute |
| PdfReport.Deunicode | src/utils/pdf.js:603-617 | the length is kept and empty text is returned unchanged |
| PdfReport.DeunicodeAt | src/utils/pdf.js:603-617 | every character is replaced by its substitute |
| PdfReport.SubstituteIsNotSource | src/utils/pdf.js:606-616 | no substitute is itself a replaced character |
| PdfReport.DeunicodeLeavesNoSource | src/utils/pdf.js:603-617 | no replaced character is left afterwards |
| PdfReport.DeunicodeIdempotent | src/utils/pdf.js:603-617 | `deunicode` is idempotent |
| PdfReport.DeunicodeKeepsPlainText | src/utils/pdf.js:603-617 | text without replaced characters is printed as is |
| RelatorioRpa.TableKeysAreReportKeys | src/pages/RelatorioRPA.jsx:14-20 | the page's five categories are the five the report adds, in order |
| RelatorioRpa.OptionScore | src/pages/RelatorioRPA.jsx:114 | the option's score for an index in range, 0 otherwise |
| RelatorioRpa.OptionScoreIsReportScore | src/pages/RelatorioRPA.jsx:14-20 | every option's score equals its index, so the page's score and the report's `score` agree on every index |
| RelatorioRpa.Seed | src/pages/RelatorioRPA.jsx:105-111 | each local choice is the stored score, 0 when missing |
| RelatorioRpa.Choose | src/pages/RelatorioRPA.jsx:224 | only the chosen category's index changes |
| RelatorioRpa.PageTotal | src/pages/RelatorioRPA.jsx:113-116 | the page's total lies in 0..10 |
| RelatorioRpa.ChooseKeepsSync | src/pages/RelatorioRPA.jsx:224 | choosing the same option locally and in the store keeps the choices in step |
| RelatorioRpa.SyncedTotalIsReportTotal | src/pages/RelatorioRPA.jsx:113-116 | while in step, the page's total is the report's total |
| RelatorioRpa.Classify | src/pages/RelatorioRPA.jsx:21-26 | the four bands, each an if-and-only-if: up to 3, 4 to 6, 7 to 8, 9 and above |
| RelatorioRpa.ClassifyMonotone | src/pages/RelatorioRPA.jsx:21-26 | a higher total never lands in a more severe band |
| RelatorioRpa.DefaultChoicesAreZero | src/pages/RelatorioRPA.jsx:105-111 | a fresh chart seeds every choice with 0 |
| RelatorioRpa.OptionScoreIsIndex | src/pages/RelatorioRPA.jsx:14-20 | every criterion scores its option's index 0 to 2, and 0 for any other index |
| RelatorioRpa.ZeroTotal | src/pages/RelatorioRPA.jsx:114 | the total is 0 exactly when no criterion has option 1 or 2 chosen |
| RelatorioRpa.DefaultIsVeryHigh | src/pages/RelatorioRPA.jsx:21-22 | a fresh chart totals 0, which is the very-high band |
| RelatorioRpa.PickDrug | src/pages/RelatorioRPA.jsx:52-58 | the name is taken and the free text cleared; the concentration is the preset, or "" for "Outro" or an unlisted drug; the quantity is kept |
| RelatorioRpa.PickDrugReadsPresets | src/pages/RelatorioRPA.jsx:52-58 | both branches amount to reading the preset table with "" as the fallback |
| RelatorioRpa.OutroHasNoPreset | src/pages/RelatorioRPA.jsx:5-10 | "Outro" is not in the preset table |
| RelatorioRpa.ChangeDrug | src/pages/RelatorioRPA.jsx:59-62 | the named input alone takes the value |
| RelatorioRpa.DrugName | src/pages/RelatorioRPA.jsx:64-66 | the trimmed free text for "Outro", the chosen name otherwise |
| RelatorioRpa.FindKind | src/pages/RelatorioRPA.jsx:82-87 | `find` yields an entry of that name from the list, or nothing when no entry has it |
| RelatorioRpa.Variantes | src/pages/RelatorioRPA.jsx:81-84 | the chosen material's variants, none for an unknown or plain material |
| RelatorioRpa.PickMaterial | src/pages/RelatorioRPA.jsx:167 | choosing a material clears the variant and the free text and keeps the quantity |
| RelatorioRpa.ChangeMaterial | src/pages/RelatorioRPA.jsx:175-197 | the named input alone changes; the quantity keeps only its digits |
| RelatorioRpa.MaterialNameIsOutroOrItem | src/pages/RelatorioRPA.jsx:87-88 | the recorded name is the trimmed free text for "Outro" and the item otherwise |
| RelatorioRpa.MaterialRow | src/pages/RelatorioRPA.jsx:90 | the row holds the name and quantity, and the variant only when the material has variants |
| RelatorioRpa.OrDash | src/pages/RelatorioRPA.jsx:159-207 | an empty cell shows the dash, any other its text |
| RelatorioRpa.MountInSync | src/pages/RelatorioRPA.jsx:47-116 | the mounted page is in step with the chart and shows the report's Aldrete total |
| RelatorioRpa.RpaPage.constructor | src/pages/RelatorioRPA.jsx:47-111 | the page mounts from the stored chart, in step with it |
| RelatorioRpa.RpaPage.Total | src/pages/RelatorioRPA.jsx:113-117 | the page's total lies in 0..10 |
| RelatorioRpa.RpaPage.TotalIsReportTotal | src/pages/RelatorioRPA.jsx:113-116 | while in step with the store, the page shows the total the report prints |
| RelatorioRpa.RpaPage.OnPickDrug | src/pages/RelatorioRPA.jsx:52-58 | only the drug form changes, as a pick |
| RelatorioRpa.RpaPage.OnChangeDrug | src/pages/RelatorioRPA.jsx:59-62 | only the named drug input changes |
| RelatorioRpa.RpaPage.AddDrug | src/pages/RelatorioRPA.jsx:63-73 | an empty name changes nothing; otherwise `{nome, conc, qtd}` is appended locally and in the store and the form is cleared; the page stays in step |
| RelatorioRpa.RpaPage.RemoveDrug | src/pages/RelatorioRPA.jsx:74-77 | exactly index `idx` leaves the local list and the store |
| RelatorioRpa.RpaPage.OnPickMaterial | src/pages/RelatorioRPA.jsx:167 | only the material form changes, as a pick |
| RelatorioRpa.RpaPage.OnChangeMaterial | src/pages/RelatorioRPA.jsx:175-197 | only the named material input changes |
| RelatorioRpa.RpaPage.AddMaterial | src/pages/RelatorioRPA.jsx:86-95 | a missing name or quantity changes nothing; otherwise the row is appended and the whole list is stored as `materiais` |
| RelatorioRpa.RpaPage.DelMaterial | src/pages/RelatorioRPA.jsx:96-100 | exactly index `i` leaves the list and the shortened list is stored |
| RelatorioRpa.RpaPage.SetResumo | src/pages/RelatorioRPA.jsx:217 | the summary changes locally and in the store, nothing else in `rpa` |
| RelatorioRpa.RpaPage.SetObservacoes | src/pages/RelatorioRPA.jsx:239 | the notes change locally and in the store |
| RelatorioRpa.RpaPage.SetDestino | src/pages/RelatorioRPA.jsx:243 | the destination changes locally and in the store |
| RelatorioRpa.RpaPage.SelectAldrete | src/pages/RelatorioRPA.jsx:223-224 | the local choice and the stored score change together, the stored chart differs only in that score, and the page's total stays the report's |
| DadosPaciente.SeedFields | src/pages/DadosPaciente.jsx:7-25 | each listed field is the stored value or "" when missing, in the listed order |
| DadosPaciente.SetFieldKeepsSync | src/pages/DadosPaciente.jsx:37-44 | the same single-key edit locally and in the store keeps the fields in step |
| DadosPaciente.MountInSync | src/pages/DadosPaciente.jsx:6-27 | the mounted fields and adverse-event state agree with the chart, and each checkbox (lines 273 and 299) starts ticked exactly when the chart says so |
| DadosPaciente.ReportShowsPage | src/pages/DadosPaciente.jsx:213-220 | while in step, the report prints the adverse events as the page shows them |
| DadosPaciente.HouvePatch | src/pages/DadosPaciente.jsx:216-219 | the box sends its state, with the current text when ticked and "" when unticked |
| DadosPaciente.FlipKeepsChecks | src/pages/DadosPaciente.jsx:299-300 | flipping one monitor on the page and in the store keeps the checkboxes in step |
| DadosPaciente.DadosPage.constructor | src/pages/DadosPaciente.jsx:6-27 | the page mounts from the stored chart, in step with it |
| DadosPaciente.DadosPage.SetPacField | src/pages/DadosPaciente.jsx:37-40 | only key `k` of the local record changes, a one-key patch goes to the store, and the page stays in step |
| DadosPaciente.DadosPage.SetCirField | src/pages/DadosPaciente.jsx:41-44 | the same for the surgery record |
| DadosPaciente.DadosPage.OnHouveChange | src/pages/DadosPaciente.jsx:213-220 | unticking stores `{houve: false, texto: ""}`; ticking stores `{houve: true, texto: current text}` |
| DadosPaciente.DadosPage.OnTextoChange | src/pages/DadosPaciente.jsx:239-243 | typing stores only the text and leaves the stored box as it is |
| DadosPaciente.DadosPage.OnTechniqueChange | src/pages/DadosPaciente.jsx:273-274 | the checkbox flips and `toggleTecnica` runs once; the page stays in step |
| DadosPaciente.DadosPage.OnMonitorChange | src/pages/DadosPaciente.jsx:299-300 | the checkbox flips and its new state is stored under the monitor's name |
| DadosPaciente.UncheckThenCheck | src/pages/DadosPaciente.jsx:213-220 | unticking and ticking again stores the text the page kept |

## Left out

- Storage is an abstract cell. JSON text, `localStorage` and its quota errors are not modelled. The key is the fixed `ficha-anestesica:v1` in both files, and no session ids or migration exist in the code.
- Numbers are integers: `JsValue.Num` carries an `int`. Floating point, NaN and `toLocaleString` are outside Dafny's integers. This covers the BMI (`imc`), `clampRangeBR`/`clampCamBR`, the `Stepper` bump and `toFixed`.
- SinaisVitais.MapNum: `toNum` (`parseFloat` after replacing the comma) is a parameter, because it is floating-point parsing.
- MedicacoesEquipamentos.MedsPage.AddOut: `toTitleCase` is a parameter, because it relies on Unicode case mapping and regular-expression classes.
- The TCI blur handlers (`onBlurTciConcVal`, `onBlurTciTaxa`) are left out, because they only call `clampRangeBR`. The mask on the TCI concentration is `MaskDecimalBR` with 4 and 2.
- The report's oxygen, compressed-air, nitrous-oxide and BIS rows are left out. They are single `if (eq.x)` rows of the same shape as the rows modelled.
- The report's layout is left out: jsPDF, autoTable, fonts, images, footers, the date and the `y` cursor. Chart.js and `captureChart` are left out too. All of these are foreign libraries, the canvas and asynchronous I/O.
- SinaisVitais.VitalsPage.Del: the store has no `removeVital`, so the call throws a `TypeError`. The model states the effect (local list edited, store unchanged) and returns `failed`; it does not model exceptions.
- PdfReport.Marcados: the contract gives the joined labels only when the first marked key is non-empty. An object key "" that is marked is covered by the body, not by the contract.
- `DRUG_PRESETS[name]` with a name inherited from `Object.prototype` (for example `"toString"`) is left out: prototype lookup is outside the object model. Only the page's options and free text reach it.
- A non-string `vent_modo` whose `startsWith` call would throw is left out. `IsVolumeMode` reads only strings, as the page always stores.
- React rendering, effects and re-renders are left out. The technique and monitor checkboxes are uncontrolled inputs, modelled as sets of ticked names.
- Cross-tab races on the one storage key are concurrency and are out of scope.
- `FichaContext`'s provider is never mounted by the application. Its updaters are modelled as the pure transitions they are.
