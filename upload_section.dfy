/** components/upload-section.tsx: the CSV upload box. `uploadFile` gates on the file name,
    then posts the file and reports the outcome; the drag handlers track whether a drag is
    over the box. The upload reply is a parameter; `delivered` is the value passed to
    `onUploadSuccess`, which is called once exactly when it is present. */
module UploadSection {
  import opened Wrappers

  const CsvSuffix: string := ".csv"
  const NotCsv: string := "Please upload a CSV file"
  const UploadFailed: string := "Upload failed"
  const UploadThrew: string := "Failed to upload file"

  /** `s.endsWith(suffix)`: a case-sensitive suffix test. */
  predicate EndsWith(s: string, suffix: string) {
    |suffix| <= |s| && s[|s| - |suffix|..] == suffix
  }

  /** Any name made by appending the suffix passes, whatever comes before it. */
  lemma EndsWithAppended(prefix: string, suffix: string)
    ensures EndsWith(prefix + suffix, suffix)
  {
    assert (prefix + suffix)[|prefix|..] == suffix;
  }

  /** A name that passes is some prefix followed by the suffix. */
  lemma EndsWithSplits(s: string, suffix: string)
    requires EndsWith(s, suffix)
    ensures s == s[..|s| - |suffix|] + suffix
  {
  }

  /** The gate is case-sensitive and rejects other extensions. */
  lemma CsvGateExamples()
    ensures EndsWith("data.csv", CsvSuffix)
    ensures !EndsWith("data.CSV", CsvSuffix)
    ensures !EndsWith("data.txt", CsvSuffix)
    ensures !EndsWith("csv", CsvSuffix)
  {
    assert "data.CSV"[4..] != CsvSuffix by { assert "data.CSV"[4..][1] == 'C'; }
    assert "data.txt"[4..] != CsvSuffix by { assert "data.txt"[4..][1] == 't'; }
  }

  datatype UploadState = UploadState(loading: bool, error: string, dragActive: bool)

  /** What one upload attempt leaves: the new state, whether the request was made, and what
      was delivered to `onUploadSuccess`. */
  datatype Attempt<T> = Attempt(state: UploadState, requested: bool, delivered: Option<T>)

  /** The state while an accepted upload is in flight: loading, with the error cleared. */
  function Pending(s: UploadState): (p: UploadState)
    ensures p.loading && p.error == "" && p.dragActive == s.dragActive
  {
    s.(loading := true, error := "")
  }

  /** `uploadFile` for a file with the given name, answered by `reply` when it is sent. */
  function UploadStep<T>(s: UploadState, fileName: string, reply: Reply<T>): (r: Attempt<T>)
    ensures !EndsWith(fileName, CsvSuffix) ==> r == Attempt(s.(error := NotCsv), false, None)
    ensures EndsWith(fileName, CsvSuffix) ==>
              && r.requested && !r.state.loading && r.state.dragActive == s.dragActive
              && (r.delivered.Some? <==> reply.Ok?)
              && (reply.Ok? ==> r.delivered == Some(reply.data) && r.state.error == "")
              && (reply.NotOk? ==> r.state.error == UploadFailed)
              && (reply.Thrown? ==> r.state.error == OrElse(reply.message, UploadThrew))
  {
    if !EndsWith(fileName, CsvSuffix) then Attempt(s.(error := NotCsv), false, None)
    else
      var p := Pending(s);
      match reply
      case Ok(data) => Attempt(p.(loading := false), true, Some(data))
      // the thrown "Upload failed" is shown through `err.message || "Failed to upload file"`
      case NotOk(_) => Attempt(p.(error := OrElse(UploadFailed, UploadThrew), loading := false), true, None)
      case Thrown(m) => Attempt(p.(error := OrElse(m, UploadThrew), loading := false), true, None)
  }

  /** `handleDrag` for an event type. */
  function DragStep(s: UploadState, eventType: string): (r: UploadState)
    ensures eventType == "dragenter" || eventType == "dragover" ==> r == s.(dragActive := true)
    ensures eventType == "dragleave" ==> r == s.(dragActive := false)
    ensures eventType !in {"dragenter", "dragover", "dragleave"} ==> r == s
  {
    if eventType == "dragenter" || eventType == "dragover" then s.(dragActive := true)
    else if eventType == "dragleave" then s.(dragActive := false)
    else s
  }

  /** `handleDrop`: the drag ends and only the first dropped file, if any, is uploaded. */
  function DropStep<T>(s: UploadState, files: seq<string>, reply: Reply<T>): (r: Attempt<T>)
    ensures |files| == 0 ==> r == Attempt(s.(dragActive := false), false, None)
    ensures |files| > 0 ==> r == UploadStep(s.(dragActive := false), files[0], reply)
    ensures !r.state.dragActive
  {
    var s1 := s.(dragActive := false);
    if |files| > 0 then UploadStep(s1, files[0], reply) else Attempt(s1, false, None)
  }

  /** The hidden input's change handler: it uploads the first selected file. With no file
      selected `uploadFile(undefined)` throws before any state change. */
  function InputChangeStep<T>(s: UploadState, files: seq<string>, reply: Reply<T>): (r: Attempt<T>)
    ensures |files| == 0 ==> r == Attempt(s, false, None)
    ensures |files| > 0 ==> r == UploadStep(s, files[0], reply)
  {
    if |files| > 0 then UploadStep(s, files[0], reply) else Attempt(s, false, None)
  }

  /** A rejected name never reaches the network and leaves loading as it was; an accepted
      attempt always ends with loading released. */
  lemma GateBeforeLoading<T>(s: UploadState, fileName: string, reply: Reply<T>)
    ensures var r := UploadStep(s, fileName, reply);
            (!r.requested ==> r.state.loading == s.loading && r.delivered.None?)
            && (r.requested ==> !r.state.loading)
  {
  }

  /** The drag flag goes up on enter/over and down on leave and drop, whatever came before. */
  lemma DragSequence<T>(s: UploadState, files: seq<string>, reply: Reply<T>)
    ensures DragStep(DragStep(s, "dragenter"), "dragover").dragActive
    ensures !DragStep(DragStep(s, "dragenter"), "dragleave").dragActive
    ensures !DropStep(DragStep(s, "dragover"), files, reply).state.dragActive
  {
  }

  /** The upload box component. */
  class Uploader {
    var loading: bool
    var error: string
    var dragActive: bool

    function View(): UploadState
      reads this
    {
      UploadState(loading, error, dragActive)
    }

    constructor ()
      ensures View() == UploadState(false, "", false)
    {
      loading, error, dragActive := false, "", false;
    }

    method UploadFile<T>(fileName: string, reply: Reply<T>) returns (requested: bool, delivered: Option<T>)
      modifies this
      ensures Attempt(View(), requested, delivered) == UploadStep(old(View()), fileName, reply)
    {
      if !EndsWith(fileName, CsvSuffix) {
        error := NotCsv;
        return false, None;
      }
      loading := true;
      error := "";
      requested := true;
      match reply {
        case Ok(data) =>
          delivered := Some(data);
        case NotOk(_) =>
          error := OrElse(UploadFailed, UploadThrew);
          delivered := None;
        case Thrown(m) =>
          error := OrElse(m, UploadThrew);
          delivered := None;
      }
      loading := false;
    }

    method HandleDrag(eventType: string)
      modifies this
      ensures View() == DragStep(old(View()), eventType)
    {
      if eventType == "dragenter" || eventType == "dragover" {
        dragActive := true;
      } else if eventType == "dragleave" {
        dragActive := false;
      }
    }

    method HandleDrop<T>(files: seq<string>, reply: Reply<T>) returns (requested: bool, delivered: Option<T>)
      modifies this
      ensures Attempt(View(), requested, delivered) == DropStep(old(View()), files, reply)
    {
      dragActive := false;
      if |files| > 0 {
        requested, delivered := UploadFile(files[0], reply);
      } else {
        requested, delivered := false, None;
      }
    }

    method HandleInputChange<T>(files: seq<string>, reply: Reply<T>) returns (requested: bool, delivered: Option<T>)
      modifies this
      ensures Attempt(View(), requested, delivered) == InputChangeStep(old(View()), files, reply)
    {
      if |files| > 0 {
        requested, delivered := UploadFile(files[0], reply);
      } else {
        requested, delivered := false, None;
      }
    }
  }
}
