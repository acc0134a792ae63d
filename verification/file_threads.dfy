/**
 `FileOpenThread` and `FileSaveThread`: each `run` is a short sequential
 procedure that announces the file, drives one handler, records its log and
 a `valid` flag, and fires `done_signal`. The Qt thread is left out: `run`
 is a function from the thread's fields to the signals it emits and the
 fields it leaves behind.
 */
module FileThreads {
  import PyStr
  import opened Outcomes
  import opened Signals
  import FileOpen
  import FileSave

  /** The fields of a FileOpenThread (`__cancel__` is `cancelRequested`). */
  datatype OpenThread = OpenThread(
    fileName: string,
    valid: bool,
    logger: seq<string>,
    circuit: Option<FileOpen.Circuit>,
    cancelRequested: bool)

  /** `FileOpenThread(file_name)`. */
  function NewOpenThread(fileName: string): OpenThread
  {
    OpenThread(fileName, false, [], None, false)
  }

  /** The fields of a FileSaveThread (`__cancel__` is `cancelRequested`). */
  datatype SaveThread = SaveThread(
    circuit: FileOpen.Circuit,
    fileName: string,
    valid: bool,
    logger: seq<string>,
    errorMsg: string,
    cancelRequested: bool)

  /** `FileSaveThread(circuit, file_name)`. */
  function NewSaveThread(circuit: FileOpen.Circuit, fileName: string): SaveThread
  {
    SaveThread(circuit, fileName, false, [], "", false)
  }

  /**
   One `run` call: the signals it emits in order, the thread's fields
   afterwards, and the exception that escapes it, if any.
   */
  datatype ThreadRun<S> = ThreadRun(events: seq<Event>, state: S, escaped: Option<string>)

  function LoadingText(baseName: string): string
  {
    "Loading " + baseName + "..."
  }

  function FlushingText(baseName: string): string
  {
    "Flushing " + baseName + " into " + baseName + "..."
  }

  const DoneText := "Done!"

  /** The line FileSaveThread logs for an exception: the traceback's text, a newline, the exception's text. */
  function FailureMessage(traceback: string, text: string): string
  {
    traceback + "\n" + text
  }

  /**
   `FileOpenThread.run`, where `baseName` is the tail `os.path.split` gives
   and `policy` the JSON type test of the handler. The run announces the
   file first. If the handler returns, the thread takes over its circuit
   and log, turns valid, and ends with "Done!" and then `done_signal`, which
   fires exactly once. If the handler raises, nothing is caught: the
   exception escapes, `done_signal` never fires, and the thread is left
   with a fresh circuit and an empty log.
   */
  function RunOpen(policy: FileOpen.JsonPolicy, t: OpenThread, baseName: string,
                   path: FileOpen.PathFacts, w: FileOpen.World): (r: ThreadRun<OpenThread>)
    ensures |r.events| >= 1 && r.events[0] == ProgressText(LoadingText(baseName))
    ensures r.state.fileName == t.fileName && r.state.cancelRequested == t.cancelRequested
    ensures var h := FileOpen.OpenWith(policy, FileOpen.NewFileOpen(t.fileName), path, w);
      && (r.escaped.None? <==> h.outcome.Returned?)
      && (h.outcome.Returned? ==>
            && DoneCount(r.events) == 1
            && r.events == [ProgressText(LoadingText(baseName))] + h.emitted + [ProgressText(DoneText), DoneSignal]
            && |r.events| >= 3
            && r.events[|r.events| - 2] == ProgressText(DoneText)
            && r.events[|r.events| - 1] == DoneSignal
            && r.state.valid
            && r.state.logger == h.outcome.value.logger
            && r.state.circuit == Some(h.outcome.value.circuit))
      && (h.outcome.Raised? ==>
            && DoneCount(r.events) == 0
            && r.events == [ProgressText(LoadingText(baseName))] + h.emitted
            && r.escaped == Some(h.outcome.text)
            && r.state == t.(circuit := Some(FileOpen.Empty), logger := []))
  {
    var h := FileOpen.OpenWith(policy, FileOpen.NewFileOpen(t.fileName), path, w);
    var started := t.(circuit := Some(FileOpen.Empty), logger := []);
    var announced: seq<Event> := [ProgressText(LoadingText(baseName))] + h.emitted;
    ProgressHasNoDone(h.emitted);
    match h.outcome
    case Raised(text) =>
      ThreadRun(announced, started, Some(text))
    case Returned(handler) =>
      ThreadRun(announced + [ProgressText(DoneText), DoneSignal],
                started.(circuit := Some(handler.circuit), logger := started.logger + handler.logger, valid := true),
                None)
  }

  /**
   `FileSaveThread.run`, where `traceback` stands for `str(exc_traceback)`.
   Nothing escapes: `done_signal` fires exactly once, as the last event. On
   success the thread is valid, its log is the handler's, and "Done!" comes
   just before `done_signal`; if the handler raises, the thread is not
   valid, its log is the one failure message, and the encoder's own
   progress is followed directly by `done_signal`.
   */
  function RunSave(t: SaveThread, baseName: string, w: FileSave.SaveWorld, traceback: string): (r: ThreadRun<SaveThread>)
    ensures r.escaped.None?
    ensures |r.events| >= 2 && r.events[0] == ProgressText(FlushingText(baseName))
    ensures DoneCount(r.events) == 1 && r.events[|r.events| - 1] == DoneSignal
    ensures r.state.circuit == t.circuit && r.state.fileName == t.fileName
    ensures r.state.errorMsg == t.errorMsg && r.state.cancelRequested == t.cancelRequested
    ensures var h := FileSave.Save(FileSave.FileSaveHandler(t.circuit, t.fileName), w);
      && (r.state.valid <==> h.outcome.Returned?)
      && (h.outcome.Returned? ==>
            && r.state.logger == h.outcome.value
            && r.events == [ProgressText(FlushingText(baseName))] + h.emitted + [ProgressText(DoneText), DoneSignal])
      && (h.outcome.Raised? ==>
            && r.state.logger == [FailureMessage(traceback, h.outcome.text)]
            && r.events == [ProgressText(FlushingText(baseName))] + h.emitted + [DoneSignal])
  {
    var h := FileSave.Save(FileSave.FileSaveHandler(t.circuit, t.fileName), w);
    var announced: seq<Event> := [ProgressText(FlushingText(baseName))] + h.emitted;
    var started := t.(logger := []);
    ProgressHasNoDone(h.emitted);
    match h.outcome
    case Returned(log) =>
      ThreadRun(announced + [ProgressText(DoneText), DoneSignal], started.(logger := log, valid := true), None)
    case Raised(text) =>
      ThreadRun(announced + [DoneSignal],
                started.(valid := false, logger := started.logger + [FailureMessage(traceback, text)]),
                None)
  }

  /** `FileOpenThread.cancel`. */
  function CancelOpen(t: OpenThread): OpenThread
  {
    t.(cancelRequested := true)
  }

  /** `FileSaveThread.cancel`. */
  function CancelSave(t: SaveThread): SaveThread
  {
    t.(cancelRequested := true)
  }

  // ---------------------------------------------------------------------
  // Properties of the threads.
  // ---------------------------------------------------------------------

  /** A cancellation request changes nothing an open run does: it only survives in the flag. */
  lemma CancelOpenIsInert(policy: FileOpen.JsonPolicy, t: OpenThread, baseName: string,
                          path: FileOpen.PathFacts, w: FileOpen.World)
    ensures var plain := RunOpen(policy, t, baseName, path, w);
      var cancelled := RunOpen(policy, CancelOpen(t), baseName, path, w);
      && cancelled.events == plain.events
      && cancelled.escaped == plain.escaped
      && cancelled.state == CancelOpen(plain.state)
  {
  }

  /** A cancellation request changes nothing a save run does: it only survives in the flag. */
  lemma CancelSaveIsInert(t: SaveThread, baseName: string, w: FileSave.SaveWorld, traceback: string)
    ensures var plain := RunSave(t, baseName, w, traceback);
      var cancelled := RunSave(CancelSave(t), baseName, w, traceback);
      && cancelled.events == plain.events
      && cancelled.escaped == plain.escaped
      && cancelled.state == CancelSave(plain.state)
  {
  }

  /**
   A fresh open thread on a missing file: it turns valid, its log is the
   one message naming the file, its circuit is empty, and the events are
   the announcement, "Done!" and `done_signal`.
   */
  lemma RunOpenMissingFile(policy: FileOpen.JsonPolicy, fileName: string, baseName: string,
                           path: FileOpen.PathFacts, w: FileOpen.World)
    requires !path.present
    ensures var r := RunOpen(policy, NewOpenThread(fileName), baseName, path, w);
      && r.escaped.None?
      && r.events == [ProgressText(LoadingText(baseName)), ProgressText(DoneText), DoneSignal]
      && r.state.valid
      && r.state.logger == [fileName + " does not exist."]
      && r.state.circuit == Some(FileOpen.Empty)
  {
  }

  /** A failed save leaves one log line, and the exception's text ends it. */
  lemma FailedSaveLogsException(t: SaveThread, baseName: string, w: FileSave.SaveWorld, traceback: string)
    requires FileSave.Save(FileSave.FileSaveHandler(t.circuit, t.fileName), w).outcome.Raised?
    ensures var r := RunSave(t, baseName, w, traceback);
      && !r.state.valid
      && |r.state.logger| == 1
      && PyStr.EndsWith(r.state.logger[0], w.fault.value.text)
  {
    var h := FileSave.Save(FileSave.FileSaveHandler(t.circuit, t.fileName), w);
    var line := FailureMessage(traceback, h.outcome.text);
    assert line[|line| - |h.outcome.text|..] == h.outcome.text;
  }

  /**
   A save thread whose chosen encoder raises: the thread ends not valid,
   its log is the one failure message carrying that encoder's exception,
   and `done_signal` still fires last.
   */
  lemma EncoderFaultFailsSave(t: SaveThread, baseName: string, w: FileSave.SaveWorld, traceback: string)
    requires FileSave.RouteFaults(t.fileName, w)
    ensures var r := RunSave(t, baseName, w, traceback);
      && !r.state.valid
      && r.state.logger == [FailureMessage(traceback, w.fault.value.text)]
      && r.events[|r.events| - 1] == DoneSignal
  {
  }

  /**
   A fresh save thread whose destination matches no suffix: it ends valid,
   its log is the "not understood" line, and it emits the announcement,
   "Done!" and `done_signal`.
   */
  lemma FreshSaveNotUnderstood(c: FileOpen.Circuit, fileName: string, baseName: string,
                               w: FileSave.SaveWorld, traceback: string)
    requires FileSave.SaveFormatOf(fileName).None?
    ensures var r := RunSave(NewSaveThread(c, fileName), baseName, w, traceback);
      && r.state.valid
      && r.state.logger == FileSave.NotUnderstood(fileName)
      && r.events == [ProgressText(FlushingText(baseName)), ProgressText(DoneText), DoneSignal]
  {
    FileSave.SaveFormatOfChain(fileName);
  }
}
