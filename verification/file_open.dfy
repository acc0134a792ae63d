/**
 `FileOpen.open`: routes an input file to one decoder by its lower-cased
 extension (and, for spreadsheets and JSON, by the shape of the decoded
 content), merges the decoded circuit into the handler's own circuit, and
 leaves a log behind.

 Every backend is opaque. A call to one is recorded in the run's `calls`;
 what the backend hands back is read from a `World` the caller supplies.
 */
module FileOpen {
  import opened PyStr
  import opened Outcomes
  import opened Signals

  /** The foreign entry points `open` can call, one constructor each. */
  datatype Reader =
    | LoadFromXls            // excel_interface.load_from_xls
    | InterpretDataV1        // matpower_parser.interpret_data_v1
    | InterpreteExcelV2      // excel_interface.interprete_excel_v2
    | InterpretExcelV3       // excel_interface.interpret_excel_v3
    | OpenDataFramesFromZip  // zip_interface.open_data_frames_from_zip
    | DgsToCircuit           // dgs_parser.dgs_to_circuit
    | ParseMatpowerFile      // matpower_parser.parse_matpower_file
    | LoadDpx                // dpx_parser.load_dpx
    | JsonLoad               // json.load
    | LoadIpa                // ipa_parser.load_iPA
    | ParseJson              // json_parser.parse_json
    | PsseParser             // psse_parser.PSSeParser(file_name)
    | CimImport              // cim_parser.CIMImport()
    | LoadCimFile            // CIMImport.load_cim_file

  /** The circuit a decoder returned, known only by the call that built it. */
  datatype Decoded = Decoded(source: Reader)

  /** One write this layer makes to its target circuit. */
  datatype Mutation =
    | SetBuses(from: Decoded)       // target.buses = circ.buses
    | SetBranches(from: Decoded)    // target.branches = circ.branches
    | AssignCircuit(from: Decoded)  // target.assign_circuit(circ)
    | Interpreted(routine: Reader)  // an interpret_* routine filled the target in place

  /** A MultiCircuit: opaque, except for the writes made to it since it was built. */
  datatype Circuit = Circuit(history: seq<Mutation>)

  /** A freshly constructed, empty MultiCircuit. */
  const Empty: Circuit := Circuit([])

  /** The `version` entry of the table dictionary a spreadsheet decodes to. */
  datatype Version =
    | NoVersionKey  // 'version' not in the dictionary
    | Version2      // compares equal to 2.0
    | Version3      // compares equal to 3.0
    | OtherVersion  // any other value

  /** The Python type of the value `json.load` returns. */
  datatype JsonShape = JsonDict(hasRed: bool) | JsonList | JsonOther

  /** What the outside world answers while a file is being opened. */
  datatype World = World(
    version: Version,            // the spreadsheet's version entry
    json: JsonShape,             // the JSON document's top-level type
    backendLog: seq<string>,     // the logger load_dpx, PSSeParser or CIMImport leaves
    progress: seq<Progress>,     // what open_data_frames_from_zip reports through its callbacks
    fault: Option<Fault<Reader>>)  // the backend call that raises, if any

  /** The file system's answers about the path: does it exist, and its `os.path.splitext` extension. */
  datatype PathFacts = PathFacts(present: bool, extension: string)

  /** The fields of a FileOpen object. */
  datatype FileOpenHandler = FileOpenHandler(fileName: string, circuit: Circuit, logger: seq<string>)

  /** `FileOpen(file_name)`: an empty circuit and an empty log. */
  function NewFileOpen(fileName: string): FileOpenHandler
  {
    FileOpenHandler(fileName, Empty, [])
  }

  /**
   Everything one `open` call does: the backends it calls in order, the
   warnings it issues, the progress its backend reports, and either the
   handler's state on return (its `circuit` is the returned value) or the
   exception that escapes.
   */
  datatype OpenRun = OpenRun(
    calls: seq<Reader>,
    warnings: seq<string>,
    emitted: seq<Progress>,
    outcome: Outcome<FileOpenHandler>)

  const MissingFileWarning := "The file does not exist."
  const UnprocessedWarning := "The file could not be processed"
  const UnknownJsonMessage := "Unknown json format"

  /**
   The facts every open run keeps, whatever its route: each backend is
   called at most once, the run raises exactly when one of the calls it made
   is the faulting one (and then that call is the last and its text is the
   exception's), and only the zip reader reports progress.
   */
  predicate Coherent(run: OpenRun, w: World)
  {
    && (run.outcome.Raised? <==> w.fault.Some? && w.fault.value.at in run.calls)
    && (run.outcome.Raised? ==>
          && |run.calls| > 0
          && run.calls[|run.calls| - 1] == w.fault.value.at
          && run.outcome.text == w.fault.value.text)
    && (forall i, j :: 0 <= i < j < |run.calls| ==> run.calls[i] != run.calls[j])
    && (run.emitted != [] ==> OpenDataFramesFromZip in run.calls)
  }

  /** A returned run still belongs to the same file and only added writes to the circuit. */
  predicate Extends(run: OpenRun, h: FileOpenHandler)
  {
    run.outcome.Returned? ==>
      && run.outcome.value.fileName == h.fileName
      && h.circuit.history <= run.outcome.value.circuit.history
  }

  /** Calls backend `c`; the run stops there if `c` raises and goes on with `rest` otherwise. */
  function Invoke(c: Reader, w: World, rest: OpenRun): (run: OpenRun)
    requires Coherent(rest, w) && c !in rest.calls
    ensures Coherent(run, w)
    ensures |run.calls| >= 1 && run.calls[0] == c
    ensures run.outcome.Returned? ==> run.outcome == rest.outcome && run.calls == [c] + rest.calls
    ensures !Hits(w.fault, c) ==> run.outcome == rest.outcome
  {
    var shown: seq<Progress> := if c == OpenDataFramesFromZip then w.progress else [];
    if Hits(w.fault, c) then OpenRun([c], [], shown, Raised(w.fault.value.text))
    else OpenRun([c] + rest.calls, rest.warnings, shown + rest.emitted, rest.outcome)
  }

  /** Returns normally after making `writes` to the circuit, with `log` as the handler's log. */
  function Finish(h: FileOpenHandler, writes: seq<Mutation>, log: seq<string>): (run: OpenRun)
    ensures run.calls == [] && run.warnings == [] && run.emitted == []
    ensures run.outcome.Returned? && run.outcome.value.logger == log
    ensures run.outcome.value.circuit.history == h.circuit.history + writes
    ensures writes == [] ==> run.outcome == Returned(h.(logger := log))
    ensures forall w :: Coherent(run, w)
    ensures Extends(run, h)
  {
    assert h.circuit.history + [] == h.circuit.history;
    OpenRun([], [], [], Returned(h.(circuit := Circuit(h.circuit.history + writes), logger := log)))
  }

  /** The three writes of a field-copy merge of the decoded circuit `d`. */
  function CopyFields(d: Decoded): seq<Mutation>
  {
    [SetBuses(d), SetBranches(d), AssignCircuit(d)]
  }

  /**
   The Python values the JSON branch compares: `type(data)` is a type
   object, while `dict()` and `list()` are fresh empty instances.
   */
  datatype PyValue = TypeObject(name: string) | EmptyDictInstance | EmptyListInstance

  function TypeOf(shape: JsonShape): PyValue
  {
    match shape
    case JsonDict(_) => TypeObject("dict")
    case JsonList => TypeObject("list")
    case JsonOther => TypeObject("other")
  }

  /**
   Which JSON type test runs: the one the source contains (`type(data) == dict()`)
   or the one it evidently means (`isinstance(data, dict)`).
   */
  datatype JsonPolicy = AsWritten | Intended

  predicate LooksLikeDict(policy: JsonPolicy, shape: JsonShape)
  {
    match policy
    case AsWritten => TypeOf(shape) == EmptyDictInstance
    case Intended => shape.JsonDict?
  }

  predicate LooksLikeList(policy: JsonPolicy, shape: JsonShape)
  {
    match policy
    case AsWritten => TypeOf(shape) == EmptyListInstance
    case Intended => shape.JsonList?
  }

  /** The `.json` branch once `json.load` has returned. */
  function OpenJsonContent(policy: JsonPolicy, h: FileOpenHandler, w: World): (run: OpenRun)
    ensures Coherent(run, w) && Extends(run, h) && JsonLoad !in run.calls
  {
    if LooksLikeDict(policy, w.json) then
      if w.json.JsonDict? && w.json.hasRed then
        Invoke(LoadIpa, w, Finish(h, CopyFields(Decoded(LoadIpa)), []))
      else
        Finish(h, [], [UnknownJsonMessage])
    else if LooksLikeList(policy, w.json) then
      Invoke(ParseJson, w, Finish(h, CopyFields(Decoded(ParseJson)), []))
    else
      Finish(h, [], [UnknownJsonMessage])
  }

  /** The spreadsheet branch once `load_from_xls` has returned its table dictionary. */
  function OpenSheetContent(h: FileOpenHandler, w: World): (run: OpenRun)
    ensures Coherent(run, w) && Extends(run, h) && LoadFromXls !in run.calls
  {
    match w.version
    case NoVersionKey => Invoke(InterpretDataV1, w, Finish(h, [Interpreted(InterpretDataV1)], []))
    case Version2 => Invoke(InterpreteExcelV2, w, Finish(h, [Interpreted(InterpreteExcelV2)], []))
    case Version3 => Invoke(InterpretExcelV3, w, Finish(h, [Interpreted(InterpretExcelV3)], []))
    case OtherVersion => Finish(h, [], []).(warnings := [UnprocessedWarning])
  }

  /**
   `FileOpen.open` with the given JSON type test. A missing file calls no
   backend and logs one message naming it; an existing file with an
   extension outside the registry calls no backend and logs nothing; every
   run is coherent and a returned one extends the handler's circuit.
   */
  function OpenWith(policy: JsonPolicy, h: FileOpenHandler, path: PathFacts, w: World): (run: OpenRun)
    ensures !path.present ==>
      && run.calls == [] && run.emitted == []
      && run.warnings == [MissingFileWarning]
      && run.outcome == Returned(h.(logger := [h.fileName + " does not exist."]))
    ensures path.present && Classify(path.extension).None? ==>
      && run.calls == [] && run.emitted == [] && run.warnings == []
      && run.outcome == Returned(h.(logger := []))
    ensures Coherent(run, w)
    ensures Extends(run, h)
  {
    if !path.present then
      OpenRun([], [MissingFileWarning], [], Returned(h.(logger := [h.fileName + " does not exist."])))
    else
      var ext := Lower(path.extension);
      if ext in [".xls", ".xlsx"] then
        Invoke(LoadFromXls, w, OpenSheetContent(h, w))
      else if ext == ".gridcal" then
        Invoke(OpenDataFramesFromZip, w,
          Invoke(InterpretExcelV3, w, Finish(h, [Interpreted(InterpretExcelV3)], [])))
      else if ext == ".dgs" then
        Invoke(DgsToCircuit, w, Finish(h, CopyFields(Decoded(DgsToCircuit)), []))
      else if ext == ".m" then
        Invoke(ParseMatpowerFile, w, Finish(h, CopyFields(Decoded(ParseMatpowerFile)), []))
      else if ext == ".dpx" then
        Invoke(LoadDpx, w, Finish(h, CopyFields(Decoded(LoadDpx)), w.backendLog))
      else if ext == ".json" then
        Invoke(JsonLoad, w, OpenJsonContent(policy, h, w))
      else if ext == ".raw" then
        Invoke(PsseParser, w, Finish(h, CopyFields(Decoded(PsseParser)), w.backendLog))
      else if ext == ".xml" then
        Invoke(CimImport, w,
          Invoke(LoadCimFile, w, Finish(h, [AssignCircuit(Decoded(LoadCimFile))], w.backendLog)))
      else
        Finish(h, [], [])
  }

  /** `FileOpen.open` exactly as the source has it. */
  function Open(h: FileOpenHandler, path: PathFacts, w: World): OpenRun
  {
    OpenWith(AsWritten, h, path, w)
  }

  /** `FileOpen.open` with the JSON type test repaired. */
  function OpenIntended(h: FileOpenHandler, path: PathFacts, w: World): OpenRun
  {
    OpenWith(Intended, h, path, w)
  }

  // ---------------------------------------------------------------------
  // The format registry: a reference statement of the routing table.
  // ---------------------------------------------------------------------

  datatype Format = Spreadsheet | GridCalZip | Dgs | Matpower | Dpx | Json | PsseRaw | Cim

  /** The recognised lower-case extensions and the format each one names. */
  const Registry: map<string, Format> := map[
    ".xls" := Spreadsheet, ".xlsx" := Spreadsheet, ".gridcal" := GridCalZip,
    ".dgs" := Dgs, ".m" := Matpower, ".dpx" := Dpx, ".json" := Json,
    ".raw" := PsseRaw, ".xml" := Cim]

  /** The format an extension names, compared without regard to ASCII case. */
  function Classify(extension: string): Option<Format>
  {
    var ext := Lower(extension);
    if ext in Registry then Some(Registry[ext]) else None
  }

  /** How a format's decoded content reaches the target circuit. */
  datatype Merge =
    | InPlace     // the interpreter writes into the target itself
    | FieldCopy   // buses and branches are copied, then assign_circuit
    | AssignOnly  // assign_circuit alone

  function MergeOf(f: Format): Merge
  {
    match f
    case Spreadsheet | GridCalZip => InPlace
    case Cim => AssignOnly
    case Dgs | Matpower | Dpx | Json | PsseRaw => FieldCopy
  }

  /** The writes a merge of the decoded circuit `d` makes. */
  function MergeWrites(m: Merge, d: Decoded): seq<Mutation>
  {
    match m
    case InPlace => []
    case FieldCopy => CopyFields(d)
    case AssignOnly => [AssignCircuit(d)]
  }

  /** The call that returns the decoded circuit, for formats with a single decoder. */
  function DecoderOf(f: Format): Reader
    requires MergeOf(f) != InPlace && f != Json
  {
    match f
    case Dgs => DgsToCircuit
    case Matpower => ParseMatpowerFile
    case Dpx => LoadDpx
    case PsseRaw => PsseParser
    case Cim => LoadCimFile
  }

  /** Every call open makes for a format with a single decoder, in order; the decoder comes last. */
  function DecoderCalls(f: Format): seq<Reader>
    requires MergeOf(f) != InPlace && f != Json
  {
    if f == Cim then [CimImport, DecoderOf(f)] else [DecoderOf(f)]
  }

  /** The formats whose final log is the backend's own logger rather than the local list. */
  predicate LoggedByBackend(f: Format)
  {
    f == Dpx || f == PsseRaw || f == Cim
  }

  /** The interpreter a spreadsheet's version entry selects, if any. */
  function InterpreterFor(v: Version): Option<Reader>
  {
    match v
    case NoVersionKey => Some(InterpretDataV1)
    case Version2 => Some(InterpreteExcelV2)
    case Version3 => Some(InterpretExcelV3)
    case OtherVersion => None
  }

  // ---------------------------------------------------------------------
  // Which branch of open an extension reaches.
  // ---------------------------------------------------------------------

  lemma OpenSheetBranch(policy: JsonPolicy, h: FileOpenHandler, path: PathFacts, w: World)
    requires path.present && Classify(path.extension) == Some(Spreadsheet)
    ensures OpenWith(policy, h, path, w) == Invoke(LoadFromXls, w, OpenSheetContent(h, w))
  {
    assert Lower(path.extension) in [".xls", ".xlsx"];
  }

  lemma OpenZipBranch(policy: JsonPolicy, h: FileOpenHandler, path: PathFacts, w: World)
    requires path.present && Classify(path.extension) == Some(GridCalZip)
    ensures OpenWith(policy, h, path, w)
      == Invoke(OpenDataFramesFromZip, w, Invoke(InterpretExcelV3, w, Finish(h, [Interpreted(InterpretExcelV3)], [])))
  {
    assert Lower(path.extension) == ".gridcal";
  }

  lemma OpenDgsBranch(policy: JsonPolicy, h: FileOpenHandler, path: PathFacts, w: World)
    requires path.present && Classify(path.extension) == Some(Dgs)
    ensures OpenWith(policy, h, path, w)
      == Invoke(DgsToCircuit, w, Finish(h, CopyFields(Decoded(DgsToCircuit)), []))
  {
    assert Lower(path.extension) == ".dgs";
  }

  lemma OpenMatpowerBranch(policy: JsonPolicy, h: FileOpenHandler, path: PathFacts, w: World)
    requires path.present && Classify(path.extension) == Some(Matpower)
    ensures OpenWith(policy, h, path, w)
      == Invoke(ParseMatpowerFile, w, Finish(h, CopyFields(Decoded(ParseMatpowerFile)), []))
  {
    assert Lower(path.extension) == ".m";
  }

  lemma OpenDpxBranch(policy: JsonPolicy, h: FileOpenHandler, path: PathFacts, w: World)
    requires path.present && Classify(path.extension) == Some(Dpx)
    ensures OpenWith(policy, h, path, w)
      == Invoke(LoadDpx, w, Finish(h, CopyFields(Decoded(LoadDpx)), w.backendLog))
  {
    assert Lower(path.extension) == ".dpx";
  }

  lemma OpenRawBranch(policy: JsonPolicy, h: FileOpenHandler, path: PathFacts, w: World)
    requires path.present && Classify(path.extension) == Some(PsseRaw)
    ensures OpenWith(policy, h, path, w)
      == Invoke(PsseParser, w, Finish(h, CopyFields(Decoded(PsseParser)), w.backendLog))
  {
    assert Lower(path.extension) == ".raw";
  }

  lemma OpenXmlBranch(policy: JsonPolicy, h: FileOpenHandler, path: PathFacts, w: World)
    requires path.present && Classify(path.extension) == Some(Cim)
    ensures var inner := Invoke(LoadCimFile, w, Finish(h, [AssignCircuit(Decoded(LoadCimFile))], w.backendLog));
      OpenWith(policy, h, path, w) == Invoke(CimImport, w, inner)
  {
    assert Lower(path.extension) == ".xml";
    OpenXmlChain(policy, h, path, w);
  }

  lemma OpenXmlChain(policy: JsonPolicy, h: FileOpenHandler, path: PathFacts, w: World)
    requires path.present && Lower(path.extension) == ".xml"
    ensures var inner := Invoke(LoadCimFile, w, Finish(h, [AssignCircuit(Decoded(LoadCimFile))], w.backendLog));
      OpenWith(policy, h, path, w) == Invoke(CimImport, w, inner)
  {
  }

  lemma OpenJsonBranch(policy: JsonPolicy, h: FileOpenHandler, path: PathFacts, w: World)
    requires path.present && Classify(path.extension) == Some(Json)
    ensures OpenWith(policy, h, path, w) == Invoke(JsonLoad, w, OpenJsonContent(policy, h, w))
  {
    assert Lower(path.extension) == ".json";
  }

  // ---------------------------------------------------------------------
  // Properties of open.
  // ---------------------------------------------------------------------

  /** `.XLSX` and `.xlsx` both lower-case to `.xlsx`. */
  lemma LowerXlsx()
    ensures Lower(".XLSX") == ".xlsx" && Lower(".xlsx") == ".xlsx"
  {
    var upper := Lower(".XLSX");
    assert upper[0] == '.' && upper[1] == 'x' && upper[2] == 'l' && upper[3] == 's' && upper[4] == 'x';
    var lower := Lower(".xlsx");
    assert lower[0] == '.' && lower[1] == 'x' && lower[2] == 'l' && lower[3] == 's' && lower[4] == 'x';
  }

  /** `.GridCal` lower-cases to `.gridcal`. */
  lemma LowerGridCal()
    ensures Lower(".GridCal") == ".gridcal"
  {
    var gridcal := Lower(".GridCal");
    assert gridcal[0] == '.' && gridcal[1] == 'g' && gridcal[2] == 'r' && gridcal[3] == 'i';
    assert gridcal[4] == 'd' && gridcal[5] == 'c' && gridcal[6] == 'a' && gridcal[7] == 'l';
  }

  /** `.XLSM` lower-cases to `.xlsm`. */
  lemma LowerXlsm()
    ensures Lower(".XLSM") == ".xlsm"
  {
    var xlsm := Lower(".XLSM");
    assert xlsm[0] == '.' && xlsm[1] == 'x' && xlsm[2] == 'l' && xlsm[3] == 's' && xlsm[4] == 'm';
  }

  lemma ClassifyXlsx()
    ensures Classify(".XLSX") == Classify(".xlsx") == Some(Spreadsheet)
  {
    LowerXlsx();
  }

  lemma ClassifyGridCal()
    ensures Classify(".GridCal") == Some(GridCalZip)
  {
    LowerGridCal();
  }

  lemma ClassifyXlsm()
    ensures Classify(".XLSM").None?
  {
    LowerXlsm();
  }

  /** Upper- and lower-case spellings of an extension name the same format. */
  lemma ClassifyIgnoresCase()
    ensures Classify(".XLSX") == Classify(".xlsx") == Some(Spreadsheet)
    ensures Classify(".GridCal") == Some(GridCalZip)
    ensures Classify(".XLSM").None?
  {
    ClassifyXlsx();
    ClassifyGridCal();
    ClassifyXlsm();
  }

  /** The registry lists exactly the extensions open recognises. */
  lemma RegistryKeys()
    ensures Registry.Keys == {".xls", ".xlsx", ".gridcal", ".dgs", ".m", ".dpx", ".json", ".raw", ".xml"}
  {
  }

  /** Every registry key is already lower-case, so it classifies as its own entry. */
  lemma ClassifyRegistryKey(k: string)
    requires k in Registry
    ensures Classify(k) == Some(Registry[k])
  {
    RegistryKeys();
    assert forall i :: 0 <= i < |k| ==> k[i] in ".xlsgridcalmpjonwx";
    LowerOfLowerCase(k);
  }

  /** Classifying an extension that was already lower-cased changes nothing. */
  lemma ClassifyLowered(extension: string)
    ensures Classify(Lower(extension)) == Classify(extension)
  {
    LowerIdempotent(extension);
  }

  /** Open reads the extension only through its lower-case form. */
  lemma OpenIgnoresExtensionCase(policy: JsonPolicy, h: FileOpenHandler, p: PathFacts, q: PathFacts, w: World)
    requires p.present == q.present && Lower(p.extension) == Lower(q.extension)
    ensures OpenWith(policy, h, p, w) == OpenWith(policy, h, q, w)
  {
  }

  /** A missing file: no backend, the fresh empty circuit, and one message naming the file. */
  lemma OpenMissingFile(fileName: string, path: PathFacts, w: World)
    requires !path.present
    ensures var run := Open(NewFileOpen(fileName), path, w);
      && run.calls == []
      && run.outcome.Returned?
      && run.outcome.value.circuit == Empty
      && run.outcome.value.logger == [fileName + " does not exist."]
  {
  }

  /**
   A spreadsheet: load_from_xls, then the interpreter its version selects;
   an unknown version calls no interpreter, leaves the circuit alone, and
   only warns.
   */
  lemma OpenSpreadsheet(policy: JsonPolicy, h: FileOpenHandler, path: PathFacts, w: World)
    requires path.present && Classify(path.extension) == Some(Spreadsheet) && w.fault.None?
    ensures var run := OpenWith(policy, h, path, w);
      && run.outcome.Returned?
      && run.outcome.value.logger == []
      && (InterpreterFor(w.version).None? <==> run.calls == [LoadFromXls])
      && (InterpreterFor(w.version).None? ==>
            run.outcome.value.circuit == h.circuit && run.warnings == [UnprocessedWarning])
      && (InterpreterFor(w.version).Some? ==>
            var interpreter := InterpreterFor(w.version).value;
            && run.calls == [LoadFromXls, interpreter]
            && run.outcome.value.circuit.history == h.circuit.history + [Interpreted(interpreter)]
            && run.warnings == [])
  {
    OpenSheetBranch(policy, h, path, w);
  }

  /**
   As written, a `.json` file never reaches a decoder: once json.load
   returns, whatever its top-level type, the log is exactly one
   "Unknown json format" and the circuit is untouched.
   */
  lemma OpenJsonNeverDecodes(h: FileOpenHandler, path: PathFacts, w: World)
    requires path.present && Classify(path.extension) == Some(Json) && !Hits(w.fault, JsonLoad)
    ensures var run := Open(h, path, w);
      && run.calls == [JsonLoad]
      && run.outcome == Returned(h.(logger := [UnknownJsonMessage]))
  {
    OpenJsonBranch(AsWritten, h, path, w);
  }

  /**
   A format with a single decoder: it is the last call, its circuit is
   merged by the format's strategy, and the log is the backend's logger
   for .dpx, .raw and .xml and the empty local list otherwise.
   */
  lemma OpenMergeByFormat(policy: JsonPolicy, h: FileOpenHandler, path: PathFacts, w: World, f: Format)
    requires path.present && Classify(path.extension) == Some(f) && w.fault.None?
    requires MergeOf(f) != InPlace && f != Json
    ensures var run := OpenWith(policy, h, path, w);
      && run.outcome.Returned?
      && run.calls == DecoderCalls(f)
      && run.calls[|run.calls| - 1] == DecoderOf(f)
      && run.outcome.value.circuit.history
           == h.circuit.history + MergeWrites(MergeOf(f), Decoded(DecoderOf(f)))
      && run.outcome.value.logger == (if LoggedByBackend(f) then w.backendLog else [])
  {
    match f
    case Dgs => OpenDgsBranch(policy, h, path, w);
    case Matpower => OpenMatpowerBranch(policy, h, path, w);
    case Dpx => OpenDpxBranch(policy, h, path, w);
    case PsseRaw => OpenRawBranch(policy, h, path, w);
    case Cim => OpenXmlBranch(policy, h, path, w);
  }

  /**
   In-place formats write nothing but interpretations and keep the empty
   local log: a corollary of `OpenSpreadsheet` and `OpenGridCal`, stated
   once for the merge strategy all three extensions share.
   */
  lemma OpenInPlace(policy: JsonPolicy, h: FileOpenHandler, path: PathFacts, w: World, f: Format)
    requires path.present && Classify(path.extension) == Some(f) && w.fault.None?
    requires MergeOf(f) == InPlace
    ensures var run := OpenWith(policy, h, path, w);
      && run.outcome.Returned?
      && run.outcome.value.logger == []
      && var added := run.outcome.value.circuit.history[|h.circuit.history|..];
         |added| <= 1 && forall i :: 0 <= i < |added| ==> added[i].Interpreted?
  {
    match f
    case Spreadsheet => OpenSheetBranch(policy, h, path, w);
    case GridCalZip => OpenGridCal(policy, h, path, w);
  }

  /**
   A `.gridcal` file: open_data_frames_from_zip reports its progress, then
   interpret_excel_v3 writes into the target, the one write, whatever the
   version entry says; the log stays empty.
   */
  lemma OpenGridCal(policy: JsonPolicy, h: FileOpenHandler, path: PathFacts, w: World)
    requires path.present && Classify(path.extension) == Some(GridCalZip) && w.fault.None?
    ensures var run := OpenWith(policy, h, path, w);
      && run.calls == [OpenDataFramesFromZip, InterpretExcelV3]
      && run.emitted == w.progress
      && run.warnings == []
      && run.outcome.Returned?
      && run.outcome.value.circuit.history == h.circuit.history + [Interpreted(InterpretExcelV3)]
      && run.outcome.value.logger == []
  {
    OpenZipBranch(policy, h, path, w);
  }

  // ---------------------------------------------------------------------
  // Nothing in open catches: a backend that raises on the route makes open raise.
  // ---------------------------------------------------------------------

  /** A spreadsheet whose reader, or whose version-selected interpreter, raises. */
  lemma SheetRouteRaises(policy: JsonPolicy, h: FileOpenHandler, path: PathFacts, w: World)
    requires path.present && Classify(path.extension) == Some(Spreadsheet) && w.fault.Some?
    requires w.fault.value.at == LoadFromXls || InterpreterFor(w.version) == Some(w.fault.value.at)
    ensures OpenWith(policy, h, path, w).outcome == Raised(w.fault.value.text)
  {
    OpenSheetBranch(policy, h, path, w);
  }

  /** A `.gridcal` file whose zip reader or interpreter raises. */
  lemma GridCalRouteRaises(policy: JsonPolicy, h: FileOpenHandler, path: PathFacts, w: World)
    requires path.present && Classify(path.extension) == Some(GridCalZip) && w.fault.Some?
    requires w.fault.value.at in [OpenDataFramesFromZip, InterpretExcelV3]
    ensures OpenWith(policy, h, path, w).outcome == Raised(w.fault.value.text)
  {
    OpenZipBranch(policy, h, path, w);
  }

  /** A single-decoder format one of whose calls raises. */
  lemma MergeRouteRaises(policy: JsonPolicy, h: FileOpenHandler, path: PathFacts, w: World, f: Format)
    requires path.present && Classify(path.extension) == Some(f)
    requires MergeOf(f) != InPlace && f != Json
    requires w.fault.Some? && w.fault.value.at in DecoderCalls(f)
    ensures OpenWith(policy, h, path, w).outcome == Raised(w.fault.value.text)
  {
    match f
    case Dgs => OpenDgsBranch(policy, h, path, w);
    case Matpower => OpenMatpowerBranch(policy, h, path, w);
    case Dpx => OpenDpxBranch(policy, h, path, w);
    case PsseRaw => OpenRawBranch(policy, h, path, w);
    case Cim => OpenXmlBranch(policy, h, path, w);
  }

  /** A `.json` file that cannot be opened or parsed, under either type test. */
  lemma JsonLoadRaises(policy: JsonPolicy, h: FileOpenHandler, path: PathFacts, w: World)
    requires path.present && Classify(path.extension) == Some(Json)
    requires w.fault.Some? && w.fault.value.at == JsonLoad
    ensures OpenWith(policy, h, path, w).outcome == Raised(w.fault.value.text)
    ensures OpenWith(policy, h, path, w).calls == [JsonLoad]
  {
    OpenJsonBranch(policy, h, path, w);
  }

  // ---------------------------------------------------------------------
  // The JSON type test: as written against as intended.
  // ---------------------------------------------------------------------

  /** A JSON list: the source logs "Unknown json format" where parse_json was meant to run. */
  lemma JsonListNeverParsed(h: FileOpenHandler, path: PathFacts, w: World)
    requires path.present && Classify(path.extension) == Some(Json)
    requires w.json == JsonList && w.fault.None?
    ensures ParseJson !in Open(h, path, w).calls
    ensures ParseJson in OpenIntended(h, path, w).calls
    ensures Open(h, path, w).outcome != OpenIntended(h, path, w).outcome
  {
    OpenJsonBranch(AsWritten, h, path, w);
    OpenJsonBranch(Intended, h, path, w);
  }

  /**
   With the type test repaired: a dictionary with a 'Red' key goes to
   load_iPA, a list to parse_json, both merged by field copy; anything else
   logs "Unknown json format" and leaves the circuit alone.
   */
  lemma IntendedJsonRouting(h: FileOpenHandler, path: PathFacts, w: World)
    requires path.present && Classify(path.extension) == Some(Json) && w.fault.None?
    ensures var run := OpenIntended(h, path, w);
      && run.outcome.Returned?
      && (w.json == JsonDict(true) ==>
            && run.calls == [JsonLoad, LoadIpa]
            && run.outcome.value.circuit.history
                 == h.circuit.history + MergeWrites(MergeOf(Json), Decoded(LoadIpa))
            && run.outcome.value.logger == [])
      && (w.json == JsonList ==>
            && run.calls == [JsonLoad, ParseJson]
            && run.outcome.value.circuit.history
                 == h.circuit.history + MergeWrites(MergeOf(Json), Decoded(ParseJson))
            && run.outcome.value.logger == [])
      && (w.json != JsonDict(true) && w.json != JsonList ==>
            && run.calls == [JsonLoad]
            && run.outcome == Returned(h.(logger := [UnknownJsonMessage])))
  {
    OpenJsonBranch(Intended, h, path, w);
  }

  /** With the type test repaired, a 'Red' dictionary whose load_iPA raises makes open raise with it. */
  lemma IntendedIpaRaises(h: FileOpenHandler, path: PathFacts, w: World)
    requires path.present && Classify(path.extension) == Some(Json) && w.json == JsonDict(true)
    requires w.fault.Some? && w.fault.value.at == LoadIpa
    ensures OpenIntended(h, path, w).calls == [JsonLoad, LoadIpa]
    ensures OpenIntended(h, path, w).outcome == Raised(w.fault.value.text)
  {
    OpenJsonBranch(Intended, h, path, w);
  }

  /** With the type test repaired, a list whose parse_json raises makes open raise with it. */
  lemma IntendedParseJsonRaises(h: FileOpenHandler, path: PathFacts, w: World)
    requires path.present && Classify(path.extension) == Some(Json) && w.json == JsonList
    requires w.fault.Some? && w.fault.value.at == ParseJson
    ensures OpenIntended(h, path, w).calls == [JsonLoad, ParseJson]
    ensures OpenIntended(h, path, w).outcome == Raised(w.fault.value.text)
  {
    OpenJsonBranch(Intended, h, path, w);
  }

  /** The repair changes nothing but the routing of `.json` files. */
  lemma PoliciesAgreeOffJson(h: FileOpenHandler, path: PathFacts, w: World)
    requires !path.present || Classify(path.extension) != Some(Json)
    ensures Open(h, path, w) == OpenIntended(h, path, w)
  {
  }
}
