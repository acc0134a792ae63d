/**
 The three Qt signals of FileOpenThread and FileSaveThread, as events in the
 order they are emitted.
 */
module Signals {

  datatype Event =
    | ProgressText(text: string)     // progress_text.emit(text)
    | ProgressSignal(percent: real)  // progress_signal.emit(value)
    | DoneSignal                     // done_signal.emit()

  /**
   What a backend can emit through the `text_func` / `progress_func`
   callbacks it is handed: anything but `done_signal`, which only the thread owns.
   */
  type Progress = e: Event | !e.DoneSignal? witness ProgressText("")

  /** How many times `done_signal` fires in `events`. */
  function DoneCount(events: seq<Event>): nat
  {
    multiset(events)[DoneSignal]
  }

  /** Progress callbacks never fire `done_signal`. */
  lemma ProgressHasNoDone(ps: seq<Progress>)
    ensures DoneCount(ps) == 0
  {
    assert DoneSignal !in ps;
  }
}
