# GridCal file handler: format routing, modelled in Dafny

This project models the file-format routing layer of GridCal
(`src/GridCal/Engine/IO/file_handler.py`):

- `FileOpen.open` checks that the file exists, lower-cases its extension, and
  picks one decoder. For spreadsheets it then picks an interpreter by the
  `version` entry of the decoded tables. For JSON it tests the decoded
  value's type, but as written that test never succeeds (see Findings). It merges the decoded circuit into the handler's
  `MultiCircuit` and keeps a log.
- `FileSave.save` picks one encoder with case-sensitive `endswith` tests on
  the destination name. If no test matches, it returns a fixed "not
  understood" log.
- `FileOpenThread.run` and `FileSaveThread.run` announce the file, drive one
  handler, record its log and a `valid` flag, and emit `done_signal`. The
  save thread catches exceptions; the open thread does not. `cancel` only
  sets a flag.

Every backend is opaque: the Excel/zip/DGS/Matpower/DPX/iPA/JSON/PSSE/CIM
readers and writers, and `MultiCircuit` itself. A call to a backend is
recorded in the run's list of `calls`. What the backend hands back is read
from an environment record (`FileOpen.World`, `FileSave.SaveWorld`). That
record also says which call, if any, raises an exception. A `MultiCircuit`
is modelled as the list of writes this layer made to it since it was
created: `SetBuses`, `SetBranches`, `AssignCircuit`, or `Interpreted` by an
`interpret_*` routine. A fresh circuit is `FileOpen.Empty`, the empty list.

Modules, one per file:

- `PyStr` (`py_str.dfy`): Python's `str.lower` and `str.endswith`.
- `Outcomes` (`outcomes.dfy`): `Option`, the `Returned`/`Raised` outcome of a
  call, and the `Fault` that picks the raising call.
- `Signals` (`signals.dfy`): the Qt signals as events. `Progress` is every
  event except `done_signal`; it is all a backend's callbacks can emit.
- `FileOpen` (`file_open.dfy`): `open`, the extension registry, and the
  merge strategies.
- `FileSave` (`file_save.dfy`): `save`, its `save_*` helpers, and the
  suffix table.
- `FileThreads` (`file_threads.dfy`): both threads' `run` and `cancel`.

Each operation is proved to agree with a reference definition, or, for the
threads, stated exactly in terms of the handler it drives:

- `open`'s nested `if`/`elif` chain agrees with a map-based registry
  (`Classify`) and tables of merge strategy, decoder and log source.
- `save`'s `endswith` chain agrees with an ordered suffix table
  searched by `FirstMatch`.
- The threads' contracts give the exact event list and final fields in terms
  of the handler's run, with `done_signal` counted by `DoneCount`.

Behaviour worth knowing before reading the contracts:

- Opening an existing file whose extension is unrecognised logs nothing,
  unlike save's "not understood" line.
- `.json` files never reach a decoder (see Findings).
- Save does not accept `.xls`, and its suffix tests are case-sensitive.
- Cancellation is inert: `run` never reads the flag `cancel` sets.

## Model

| member | source | states |
|---|---|---|
| PyStr.Lower | src/GridCal/Engine/IO/file_handler.py:64 | `file_extension.lower()`: same length, and every character is the lower-case form of the one at the same place, so no upper-case ASCII letter is left |
| PyStr.EndsWithIffConcat | src/GridCal/Engine/IO/file_handler.py:178-187 | `s.endswith(suffix)` holds exactly when `s` is some string followed by `suffix` |
| FileOpen.OpenWith | src/GridCal/Engine/IO/file_handler.py:52-152 | A missing file calls no backend, warns, leaves the circuit unchanged and sets the handler's logger to exactly `[file_name + ' does not exist.']`. An existing file whose extension is not in the registry calls no backend, warns nothing and logs nothing. Every run calls each backend at most once. It raises exactly when a call it made is the faulting one, and that call is then its last. Only the zip reader reports progress. A returned circuit only gains writes. That a backend raising on the chosen route makes open raise is stated per route by the `*RouteRaises` lemmas and `JsonLoadRaises` |
| FileOpen.ClassifyIgnoresCase | src/GridCal/Engine/IO/file_handler.py:62-90 | `.XLSX` and `.xlsx` both name the spreadsheet format, `.GridCal` names the zip format, and `.XLSM` names none |
| FileOpen.OpenIgnoresExtensionCase | src/GridCal/Engine/IO/file_handler.py:61-144 | Two extensions with the same lower-case form give identical runs: the same calls, warnings, progress and outcome |
| FileOpen.OpenMissingFile | src/GridCal/Engine/IO/file_handler.py:146-152 | On a fresh handler (`NewFileOpen`, lines 41-50: the file name, a new circuit, an empty log), a missing file calls no backend, returns the empty circuit, and logs `[file_name + ' does not exist.']` |
| FileOpen.OpenSpreadsheet | src/GridCal/Engine/IO/file_handler.py:64-81 | `.xls`/`.xlsx` calls `load_from_xls`. No version key selects `interpret_data_v1`, 2.0 selects `interprete_excel_v2`, 3.0 selects `interpret_excel_v3`; that interpreter is the one write. Exactly the other version values call no interpreter, leave the circuit untouched and only warn. The log is empty in every case |
| FileOpen.OpenJsonNeverDecodes | src/GridCal/Engine/IO/file_handler.py:110-130 | As written, once `json.load` returns, every `.json` open calls nothing else, leaves the circuit untouched and logs exactly `['Unknown json format']`, whatever the top-level type |
| FileOpen.OpenMergeByFormat | src/GridCal/Engine/IO/file_handler.py:92-144 | For `.dgs`, `.m`, `.dpx`, `.raw` and `.xml`, the calls are exactly the format's decoder, preceded by `CIMImport()` for `.xml` alone. `.dgs`, `.m`, `.dpx` and `.raw` copy buses and branches from the decoded circuit and then call `assign_circuit`; `.xml` only calls `assign_circuit`. The log is the backend's logger for `.dpx`, `.raw` and `.xml` and the empty local list otherwise |
| FileOpen.OpenGridCal | src/GridCal/Engine/IO/file_handler.py:83-90 | `.gridcal` calls `open_data_frames_from_zip` and then `interpret_excel_v3`, whatever the version entry. The run reports the zip reader's progress, warns nothing, and its one write is that interpretation. The log is empty |
| FileOpen.ClassifyRegistryKey | src/GridCal/Engine/IO/file_handler.py:64-140 | Every extension open tests for is already lower-case, so each one, spelled as in the code, reaches its own branch |
| FileOpen.ClassifyLowered | src/GridCal/Engine/IO/file_handler.py:64 | Lower-casing an extension before classifying it changes nothing, because lower-casing twice is lower-casing once |
| FileOpen.OpenInPlace | src/GridCal/Engine/IO/file_handler.py:64-90 | A corollary of `OpenSpreadsheet` and `OpenGridCal`: `.xls`, `.xlsx` and `.gridcal` add at most one write to the target, an in-place interpretation, and keep the empty local log |
| FileOpen.SheetRouteRaises | src/GridCal/Engine/IO/file_handler.py:64-78 | When `load_from_xls`, or the interpreter the version entry selects, raises, open raises with that exception |
| FileOpen.GridCalRouteRaises | src/GridCal/Engine/IO/file_handler.py:83-90 | When `open_data_frames_from_zip` or `interpret_excel_v3` raises on a `.gridcal` file, open raises with that exception |
| FileOpen.MergeRouteRaises | src/GridCal/Engine/IO/file_handler.py:92-144 | For `.dgs`, `.m`, `.dpx`, `.raw` and `.xml`, when any of the format's calls raises (`CIMImport()` included), open raises with that exception |
| FileOpen.JsonLoadRaises | src/GridCal/Engine/IO/file_handler.py:110-113 | When `json.load(open(...))` raises, open raises with it and calls nothing else, under either type test |
| FileOpen.JsonListNeverParsed | src/GridCal/Engine/IO/file_handler.py:113-128 | For a JSON list, the code as written never calls `parse_json`; the repaired test does, and the two outcomes differ |
| FileOpen.IntendedJsonRouting | src/GridCal/Engine/IO/file_handler.py:113-130 | With the type test repaired, a dict with `'Red'` goes to `load_iPA` and a list to `parse_json`, both merged by field copy with an empty log. Anything else logs `'Unknown json format'` and leaves the circuit alone |
| FileOpen.IntendedIpaRaises | src/GridCal/Engine/IO/file_handler.py:116-120 | With the type test repaired, when `load_iPA` raises on a `'Red'` dictionary, open calls `json.load` then `load_iPA` and raises with that exception |
| FileOpen.IntendedParseJsonRaises | src/GridCal/Engine/IO/file_handler.py:124-128 | With the type test repaired, when `parse_json` raises on a list, open calls `json.load` then `parse_json` and raises with that exception |
| FileOpen.PoliciesAgreeOffJson | src/GridCal/Engine/IO/file_handler.py:61-152 | The JSON repair changes no run except an existing `.json` file's |
| FileSave.Save | src/GridCal/Engine/IO/file_handler.py:173-194 | Every save run calls each encoder at most once. It raises exactly when a call it made is the faulting one, and that call is then its last. Nothing is caught: when the faulting call is one of the chosen helper's encoder calls, save raises with its text. Only a `.gridcal` destination reports progress |
| FileSave.Encode | src/GridCal/Engine/IO/file_handler.py:196-241 | Each `save_*` helper makes a prefix of its format's encoder calls. When none raises it makes all of them and returns the encoder's log; `save_zip` returns an empty log. When one of them raises, the helper raises with that exception's text |
| FileSave.FirstMatch | src/GridCal/Engine/IO/file_handler.py:178-190 | The chosen entry is the first one whose suffix the name ends with. None is chosen exactly when no entry matches |
| FileSave.SaveFormatOfChain | src/GridCal/Engine/IO/file_handler.py:178-192 | The `if`/`elif` chain of `endswith` tests picks the same format as a first-match search of the suffix table `.xlsx`, `.gridcal`, `.json`, `.xml` |
| FileSave.SuffixesExclusive | src/GridCal/Engine/IO/file_handler.py:178-188 | No name ends with two of the four suffixes, so the order of the tests never changes the choice |
| FileSave.SaveFormatIffSuffix | src/GridCal/Engine/IO/file_handler.py:178-192 | A name selects a format exactly when it ends with that format's suffix |
| FileSave.SaveFollowsTable | src/GridCal/Engine/IO/file_handler.py:173-194 | A name no suffix matches calls no encoder and returns `['File path extension not understood\n' + file_name]`. Otherwise save makes a prefix of the format's encoder calls, and all of them, returning the encoder's log, when none raises. When one of them raises, save raises with that exception's text |
| FileSave.SaveIsCaseSensitive | src/GridCal/Engine/IO/file_handler.py:178-192 | `grid.XLSX` and `grid.xls` call no encoder and return the "not understood" log |
| FileSave.SaveZipLogIsEmpty | src/GridCal/Engine/IO/file_handler.py:206-221 | A `.gridcal` save with no fault calls `create_data_frames` and then `save_data_frames_to_zip`, reports that writer's progress, and returns an empty log |
| Signals.ProgressHasNoDone | src/GridCal/Engine/IO/file_handler.py:280-281 | The callbacks handed to a backend (`progress_text.emit`, `progress_signal.emit`) never emit `done_signal` |
| FileThreads.RunOpen | src/GridCal/Engine/IO/file_handler.py:266-289 | `'Loading ' + fname + '...'` is the first event, followed by the zip reader's progress, if any. If the handler returns, `'Done!'` and then `done_signal` end the events, with nothing else in between, `done_signal` fires once, `valid` is true, and the thread holds the handler's circuit and log. If the handler raises, the exception escapes, `done_signal` never fires, and the thread holds a fresh circuit and an empty log |
| FileThreads.RunSave | src/GridCal/Engine/IO/file_handler.py:320-350 | Nothing escapes, and `done_signal` fires exactly once, as the last event. `valid` is true exactly when save returned. On success the log is save's result and `'Done!'` precedes `done_signal`. On an exception the log is the one failure message, and `done_signal` directly follows the encoder's progress |
| FileThreads.CancelOpenIsInert | src/GridCal/Engine/IO/file_handler.py:291-292 | A cancelled open thread (`CancelOpen` sets only the flag) runs exactly as an uncancelled one; only the flag differs afterwards |
| FileThreads.CancelSaveIsInert | src/GridCal/Engine/IO/file_handler.py:352-353 | A cancelled save thread (`CancelSave` sets only the flag) runs exactly as an uncancelled one; only the flag differs afterwards |
| FileThreads.RunOpenMissingFile | src/GridCal/Engine/IO/file_handler.py:249-289 | A fresh open thread (`NewOpenThread`: not valid, empty log, no circuit, not cancelled) on a missing file emits announcement, `'Done!'`, `done_signal`. It ends valid, with the empty circuit, and its log is the one "does not exist" line |
| FileThreads.EncoderFaultFailsSave | src/GridCal/Engine/IO/file_handler.py:326-350 | When one of the chosen `save_*` helper's encoder calls raises, the save thread ends not valid, its log is exactly `str(exc_traceback) + '\n' + str(exc_value)` for that exception, and `done_signal` is still last |
| FileThreads.FreshSaveNotUnderstood | src/GridCal/Engine/IO/file_handler.py:300-350 | A fresh save thread (`NewSaveThread`: the circuit and name, not valid, empty log, empty error, not cancelled) whose destination matches no suffix ends valid with the "not understood" log, and emits the announcement, `'Done!'` and `done_signal` |
| FileThreads.FailedSaveLogsException | src/GridCal/Engine/IO/file_handler.py:345-348 | A failed save leaves the thread not valid, with one log line that ends with the exception's text |

## Left out

- The backends (`load_from_xls`, the `interpret_*` routines, `open_data_frames_from_zip`, `dgs_to_circuit`, `parse_matpower_file`, `load_dpx`, `load_iPA`, `parse_json`, `PSSeParser`, `CIMImport`, `save_excel`, `create_data_frames`, `save_data_frames_to_zip`, `save_json_file`, `CIMExport`): they are foreign code. Each is a recorded call whose results come from the environment record, and any one of them may raise.
- `MultiCircuit` and `assign_circuit`: their semantics are foreign. A circuit is the list of writes made to it, and a decoded circuit is known only by the call that produced it.
- `os.path.exists`, `os.path.splitext` and `os.path.split`: taken as inputs (`PathFacts.present`, `PathFacts.extension`, `baseName`), so Python's path rules are not re-derived.
- `json.load(open(file_name))`: the decoded value is reduced to its top-level type (`JsonShape`). A failure of `open()` or of the JSON parser is the `JsonLoad` call raising.
- The float `version` value: reduced to a tag (no key, equal to 2.0, equal to 3.0, other). Python's `2 == 2.0` therefore counts as version 2.
- PyStr.Lower: lowers ASCII letters only. For the nine ASCII extensions this changes no routing decision. The only non-ASCII characters whose `lower()` contains an ASCII character are U+212A (to `k`, which no extension contains) and U+0130 (to `i` plus U+0307, which cannot match).
- `warn()`: only the warning's text is recorded (`OpenRun.warnings`). Python's warning filters, including turning warnings into errors, are not modelled.
- FileOpen.OpenWith: when open raises, the handler's fields afterwards are not modelled. An interpreter that raises may already have written part of the circuit through foreign code. The thread discards that handler anyway.
- Exceptions raised outside backend calls, such as reading `circ.buses` or `assign_circuit` itself, are not modelled.
- Qt threading and signal delivery: each `run` is a sequential function from the thread's fields to its emitted events. `progress_signal` values are reals with no range check.
- Cancellation checkpoints, exception catching on the open path, and round-trip or idempotence of saved files: the code implements none of them.

## Findings

| source | as written | input that shows it | evidently intended | confidence | as-written member | corrected member |
|---|---|---|---|---|---|---|
| src/GridCal/Engine/IO/file_handler.py:115-124 | `type(data) == dict()` and `type(data) == list()` compare a type object with a fresh empty instance. Both tests are always false, so every JSON document logs `'Unknown json format'` | an existing `grid.json` whose top level is a list, with `json.load` succeeding: `parse_json` is never called | a type test (`isinstance(data, dict)` / `isinstance(data, list)`): a dict with a `'Red'` key goes to `load_iPA`, a list to `parse_json` | high (not executed) | FileOpen.JsonListNeverParsed | FileOpen.IntendedJsonRouting |

`FileOpen.Open` is the code as written and `FileOpen.OpenIntended` the repair.
`FileThreads.RunOpen` takes the JSON type test as a parameter, so its
properties hold for both.
