/**
 `FileSave.save`: picks one encoder by a case-sensitive suffix test on the
 destination name and returns the encoder's log, or a fixed "not
 understood" log when no suffix matches. The encoders are opaque calls.
 */
module FileSave {
  import opened PyStr
  import opened Outcomes
  import opened Signals
  import FileOpen

  /** The foreign entry points `save` and its `save_*` helpers can call. */
  datatype Writer =
    | SaveExcel            // excel_interface.save_excel
    | CreateDataFrames     // excel_interface.create_data_frames
    | SaveDataFramesToZip  // zip_interface.save_data_frames_to_zip
    | SaveJsonFile         // json_parser.save_json_file
    | CimExport            // cim_parser.CIMExport(circuit)
    | CimSave              // CIMExport.save

  /** What the outside world answers while a file is being saved. */
  datatype SaveWorld = SaveWorld(
    encoderLog: seq<string>,       // the logger save_excel, save_json_file or CIMExport leaves
    progress: seq<Progress>,       // what save_data_frames_to_zip reports through its callbacks
    fault: Option<Fault<Writer>>)  // the encoder call that raises, if any

  /** The fields of a FileSave object that `save` reads. */
  datatype FileSaveHandler = FileSaveHandler(circuit: FileOpen.Circuit, fileName: string)

  /** Everything one `save` call does: encoder calls in order, reported progress, and its result. */
  datatype SaveRun = SaveRun(calls: seq<Writer>, emitted: seq<Progress>, outcome: Outcome<seq<string>>)

  /** The log of a destination whose name matches no known suffix. */
  function NotUnderstood(fileName: string): seq<string>
  {
    ["File path extension not understood\n" + fileName]
  }

  /** The facts every save run keeps; the counterpart of `FileOpen.Coherent`. */
  predicate Coherent(run: SaveRun, w: SaveWorld)
  {
    && (run.outcome.Raised? <==> w.fault.Some? && w.fault.value.at in run.calls)
    && (run.outcome.Raised? ==>
          && |run.calls| > 0
          && run.calls[|run.calls| - 1] == w.fault.value.at
          && run.outcome.text == w.fault.value.text)
    && (forall i, j :: 0 <= i < j < |run.calls| ==> run.calls[i] != run.calls[j])
    && (run.emitted != [] ==> SaveDataFramesToZip in run.calls)
  }

  /** Calls encoder `c`; the run stops there if `c` raises and goes on with `rest` otherwise. */
  function Invoke(c: Writer, w: SaveWorld, rest: SaveRun): (run: SaveRun)
    requires Coherent(rest, w) && c !in rest.calls
    ensures Coherent(run, w)
    ensures |run.calls| >= 1 && run.calls[0] == c
    ensures run.outcome.Returned? ==> run.outcome == rest.outcome && run.calls == [c] + rest.calls
    ensures !Hits(w.fault, c) ==> run.outcome == rest.outcome && run.calls == [c] + rest.calls
    ensures Hits(w.fault, c) ==> run.calls == [c]
  {
    var shown: seq<Progress> := if c == SaveDataFramesToZip then w.progress else [];
    if Hits(w.fault, c) then SaveRun([c], shown, Raised(w.fault.value.text))
    else SaveRun([c] + rest.calls, shown + rest.emitted, rest.outcome)
  }

  /** Returns `log` without calling anything. */
  function Return(log: seq<string>): (run: SaveRun)
    ensures run.calls == [] && run.emitted == [] && run.outcome == Returned(log)
    ensures forall w :: Coherent(run, w)
  {
    SaveRun([], [], Returned(log))
  }

  datatype SaveFormat = Excel | Zip | JsonFile | CimFile

  /** The chain of `endswith` tests in `save`: the first suffix that matches picks the helper. */
  function SuffixRoute(name: string): Option<SaveFormat>
  {
    if EndsWith(name, ".xlsx") then Some(Excel)
    else if EndsWith(name, ".gridcal") then Some(Zip)
    else if EndsWith(name, ".json") then Some(JsonFile)
    else if EndsWith(name, ".xml") then Some(CimFile)
    else None
  }

  /** The call that raises is one of the encoder calls of the helper `name` selects. */
  predicate RouteFaults(name: string, w: SaveWorld)
  {
    && SuffixRoute(name).Some?
    && w.fault.Some?
    && w.fault.value.at in EncoderCalls(SuffixRoute(name).value)
  }

  /** The `save_excel`, `save_zip`, `save_json` and `save_cim` helpers. */
  function Encode(f: SaveFormat, w: SaveWorld): (run: SaveRun)
    ensures Coherent(run, w)
    ensures run.emitted != [] ==> f == Zip
    ensures run.calls <= EncoderCalls(f)
    ensures (forall c :: c in EncoderCalls(f) ==> !Hits(w.fault, c)) ==>
      run.calls == EncoderCalls(f) && run.outcome == Returned(EncoderLog(f, w))
    ensures w.fault.Some? && w.fault.value.at in EncoderCalls(f) ==>
      run.outcome == Raised(w.fault.value.text)
  {
    match f
    case Excel => Invoke(SaveExcel, w, Return(w.encoderLog))
    case Zip => Invoke(CreateDataFrames, w, Invoke(SaveDataFramesToZip, w, Return([])))
    case JsonFile => Invoke(SaveJsonFile, w, Return(w.encoderLog))
    case CimFile => Invoke(CimExport, w, Invoke(CimSave, w, Return(w.encoderLog)))
  }

  /**
   `FileSave.save`: every run is coherent, only a `.gridcal` destination
   reports progress, and nothing is caught, so an encoder on the chosen
   route that raises makes save raise.
   */
  function Save(h: FileSaveHandler, w: SaveWorld): (run: SaveRun)
    ensures Coherent(run, w)
    ensures run.emitted != [] ==> SuffixRoute(h.fileName) == Some(Zip)
    ensures RouteFaults(h.fileName, w) ==> run.outcome == Raised(w.fault.value.text)
  {
    match SuffixRoute(h.fileName)
    case Some(f) => Encode(f, w)
    case None => Return(NotUnderstood(h.fileName))
  }

  // ---------------------------------------------------------------------
  // The suffix table: a reference statement of the routing.
  // ---------------------------------------------------------------------

  /** The suffixes save understands, in the order it tests them. */
  const SuffixTable: seq<(string, SaveFormat)> :=
    [(".xlsx", Excel), (".gridcal", Zip), (".json", JsonFile), (".xml", CimFile)]

  /** The index of the first entry of `table` whose suffix `name` ends with. */
  function FirstMatch(name: string, table: seq<(string, SaveFormat)>): (r: Option<nat>)
    ensures r.Some? ==>
      && r.value < |table|
      && EndsWith(name, table[r.value].0)
      && forall j :: 0 <= j < r.value ==> !EndsWith(name, table[j].0)
    ensures r.None? <==> forall j :: 0 <= j < |table| ==> !EndsWith(name, table[j].0)
  {
    if table == [] then None
    else if EndsWith(name, table[0].0) then Some(0)
    else match FirstMatch(name, table[1..])
      case None => None
      case Some(k) => Some(k + 1)
  }

  /** The format the first matching suffix names, if any. */
  function SaveFormatOf(name: string): Option<SaveFormat>
  {
    match FirstMatch(name, SuffixTable)
    case None => None
    case Some(k) => Some(SuffixTable[k].1)
  }

  /** The encoder calls a format's `save_*` helper makes, in order. */
  function EncoderCalls(f: SaveFormat): seq<Writer>
  {
    match f
    case Excel => [SaveExcel]
    case Zip => [CreateDataFrames, SaveDataFramesToZip]
    case JsonFile => [SaveJsonFile]
    case CimFile => [CimExport, CimSave]
  }

  /** The log a format's helper returns: the zip writer always returns an empty one. */
  function EncoderLog(f: SaveFormat, w: SaveWorld): seq<string>
  {
    if f == Zip then [] else w.encoderLog
  }

  /** The table, searched in order, is the chain of suffix tests `save` makes. */
  lemma SaveFormatOfChain(name: string)
    ensures SaveFormatOf(name) == SuffixRoute(name)
  {
    var t := SuffixTable;
    assert t[0].0 == ".xlsx" && t[1].0 == ".gridcal" && t[2].0 == ".json" && t[3].0 == ".xml";
    var r := FirstMatch(name, t);
    if EndsWith(name, ".xlsx") {
      assert r.Some? && r.value == 0;
    } else if EndsWith(name, ".gridcal") {
      assert r.Some? && r.value == 1;
    } else if EndsWith(name, ".json") {
      assert r.Some? && r.value == 2;
    } else if EndsWith(name, ".xml") {
      assert r.Some? && r.value == 3;
    } else {
      assert r.None?;
    }
  }

  // ---------------------------------------------------------------------
  // Properties of save.
  // ---------------------------------------------------------------------

  /** No name ends with two different suffixes of the table, so the test order never matters. */
  lemma SuffixesExclusive(name: string, i: nat, j: nat)
    requires i < j < |SuffixTable|
    ensures !(EndsWith(name, SuffixTable[i].0) && EndsWith(name, SuffixTable[j].0))
  {
    var a, b := SuffixTable[i].0, SuffixTable[j].0;
    if EndsWith(name, a) && EndsWith(name, b) {
      EndsWithAgree(name, a, b, 1);
      EndsWithAgree(name, a, b, 2);
      assert false;
    }
  }

  /** A name selects a format exactly when it ends with that format's suffix. */
  lemma SaveFormatIffSuffix(name: string, f: SaveFormat)
    ensures SaveFormatOf(name) == Some(f) <==>
      exists k :: 0 <= k < |SuffixTable| && SuffixTable[k].1 == f && EndsWith(name, SuffixTable[k].0)
  {
    if k :| 0 <= k < |SuffixTable| && SuffixTable[k].1 == f && EndsWith(name, SuffixTable[k].0) {
      var r := FirstMatch(name, SuffixTable);
      assert r.Some?;
      if r.value < k {
        SuffixesExclusive(name, r.value, k);
      }
      assert r.value == k;
    }
  }

  /**
   The table decides the run: a name no suffix matches calls nothing and
   returns the fixed "not understood" log; otherwise save makes a prefix of
   the format's encoder calls, and all of them, returning the encoder's
   log, when none raises; when one of them raises, save raises with it.
   */
  lemma SaveFollowsTable(h: FileSaveHandler, w: SaveWorld)
    ensures var run := Save(h, w);
      && (SaveFormatOf(h.fileName).None? ==>
            run.calls == [] && run.emitted == [] && run.outcome == Returned(NotUnderstood(h.fileName)))
      && (SaveFormatOf(h.fileName).Some? ==>
            var f := SaveFormatOf(h.fileName).value;
            && run.calls <= EncoderCalls(f)
            && ((forall c :: c in EncoderCalls(f) ==> !Hits(w.fault, c)) ==>
                  run.calls == EncoderCalls(f) && run.outcome == Returned(EncoderLog(f, w)))
            && (w.fault.Some? && w.fault.value.at in EncoderCalls(f) ==>
                  run.outcome == Raised(w.fault.value.text)))
  {
    SaveFormatOfChain(h.fileName);
  }

  /** A name whose last character ends none of the suffixes picks no helper. */
  lemma NoSuffixMatches(name: string)
    requires |name| > 0 && name[|name| - 1] !in {'x', 'l', 'n'}
    ensures SuffixRoute(name).None?
  {
    LastCharRulesOut(name, ".xlsx");
    LastCharRulesOut(name, ".gridcal");
    LastCharRulesOut(name, ".json");
    LastCharRulesOut(name, ".xml");
  }

  /** Suffix tests are case-sensitive and `.xls` is not a save format. */
  lemma SaveIsCaseSensitive(c: FileOpen.Circuit, w: SaveWorld)
    ensures Save(FileSaveHandler(c, "grid.XLSX"), w)
      == SaveRun([], [], Returned(NotUnderstood("grid.XLSX")))
    ensures Save(FileSaveHandler(c, "grid.xls"), w)
      == SaveRun([], [], Returned(NotUnderstood("grid.xls")))
  {
    NoSuffixMatches("grid.XLSX");
    NoSuffixMatches("grid.xls");
  }

  /** A `.gridcal` destination that saves without fault returns an empty log. */
  lemma SaveZipLogIsEmpty(h: FileSaveHandler, w: SaveWorld)
    requires EndsWith(h.fileName, ".gridcal") && w.fault.None?
    ensures Save(h, w).calls == [CreateDataFrames, SaveDataFramesToZip]
    ensures Save(h, w).emitted == w.progress
    ensures Save(h, w).outcome == Returned([])
  {
    SaveFormatOfChain(h.fileName);
    SuffixesExclusive(h.fileName, 0, 1);
  }
}
