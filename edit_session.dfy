/** The edit session of the browser client: the original upload and its
    object URL, the linear history of result blobs with a cursor, the URL
    currently shown as the result, and the browser's object-URL registry
    (URLs are abstract tokens handed out by a counter; revoking one records
    it). The handlers are transitions on a `Session` value; the class
    `PageSession` holds the same state in fields and its methods are proved
    to perform those transitions. */
module EditSession {
  import opened Wrappers
  import opened RestoreClient
  import Compare

  /** An object URL. */
  type Handle = nat

  /** One produced result: its object URL, its blob and its caption. */
  datatype Entry = Entry(url: Handle, blob: Bytes, caption: string)

  datatype Session = Session(
    originalFile: Option<File>,
    originalURL: Option<Handle>,
    history: seq<Entry>,
    currentIndex: int,
    currentResultURL: Option<Handle>,
    issued: nat,             // object URLs created so far: 0 .. issued - 1
    revoked: set<Handle>)    // object URLs revoked so far

  /** The page as loaded: no file, empty history, cursor at -1. */
  const Initial := Session(None, None, [], -1, None, 0, {})

  /** The invariants every handler keeps. The cursor is -1 exactly when the
      history is empty and otherwise names an entry; every URL in use was
      created, none of them has been revoked, and no two of them are the
      same; the result URL shown is that of the cursor's entry, or, with an
      empty history, nothing or the original's URL. */
  ghost predicate WellFormed(s: Session) {
    && -1 <= s.currentIndex < |s.history|
    && (s.currentIndex == -1 <==> s.history == [])
    && (forall i :: 0 <= i < |s.history| ==> s.history[i].url < s.issued && s.history[i].url !in s.revoked)
    && (forall i, j :: 0 <= i < j < |s.history| ==> s.history[i].url != s.history[j].url)
    && (s.originalURL.Some? ==>
          && s.originalURL.value < s.issued
          && s.originalURL.value !in s.revoked
          && forall i :: 0 <= i < |s.history| ==> s.history[i].url != s.originalURL.value)
    && (forall r :: r in s.revoked ==> r < s.issued)
    && (if s.history == [] then s.currentResultURL == None || s.currentResultURL == s.originalURL
        else s.currentResultURL == Some(s.history[s.currentIndex].url))
  }

  /** The URLs the session can still reach. */
  ghost function InUse(s: Session): set<Handle> {
    (set i | 0 <= i < |s.history| :: s.history[i].url)
    + (if s.originalURL.Some? then {s.originalURL.value} else {})
  }

  /** The result URL on display is never a revoked one. */
  lemma ShownURLIsLive(s: Session)
    requires WellFormed(s)
    ensures s.currentResultURL.Some? ==> s.currentResultURL.value in InUse(s) && s.currentResultURL.value !in s.revoked
  {
  }

  /** `pushHistory`: a fresh URL for the blob, the entry appended at the end,
      the cursor and the shown URL moved to it; nothing earlier changes. */
  function Push(s: Session, blob: Bytes, caption: string): (r: Session)
    requires WellFormed(s)
    ensures WellFormed(r)
    ensures |r.history| == |s.history| + 1
    ensures r.history[..|s.history|] == s.history
    ensures r.currentIndex == |r.history| - 1
    ensures r.history[r.currentIndex] == Entry(s.issued, blob, caption)
    ensures r.currentResultURL == Some(s.issued) && s.issued !in InUse(s)
    ensures r.originalFile == s.originalFile && r.originalURL == s.originalURL && r.revoked == s.revoked
  {
    var url := s.issued;
    var r := s.(history := s.history + [Entry(url, blob, caption)], currentIndex := |s.history|,
                currentResultURL := Some(url), issued := s.issued + 1);
    assert r.history[..|s.history|] == s.history;
    r
  }

  /** The undo handler: nothing happens when the cursor is at 0 or -1;
      otherwise the cursor steps back by one onto an existing entry, whose
      URL is shown, and the history is untouched. */
  function Undo(s: Session): (r: Session)
    requires WellFormed(s)
    ensures WellFormed(r)
    ensures s.currentIndex <= 0 ==> r == s
    ensures s.currentIndex > 0 ==>
              && r.currentIndex == s.currentIndex - 1
              && r.currentResultURL == Some(s.history[r.currentIndex].url)
              && r == s.(currentIndex := r.currentIndex, currentResultURL := r.currentResultURL)
  {
    if s.currentIndex <= 0 then s
    else
      var i := s.currentIndex - 1;
      s.(currentIndex := i, currentResultURL := Some(s.history[i].url))
  }

  /** The reset handler: with an empty history the original's URL is shown
      when there is one; otherwise the cursor goes to the first result and
      the history is kept whole. */
  function Reset(s: Session): (r: Session)
    requires WellFormed(s)
    ensures WellFormed(r)
    ensures s.history == [] ==> r.currentIndex == -1
    ensures s.history == [] && s.originalURL.Some? ==> r == s.(currentResultURL := s.originalURL)
    ensures s.history == [] && s.originalURL.None? ==> r == s
    ensures s.history != [] ==>
              r == s.(currentIndex := 0, currentResultURL := Some(s.history[0].url))
  {
    if s.history == [] then
      if s.originalURL.Some? then s.(currentResultURL := s.originalURL) else s
    else
      s.(currentIndex := 0, currentResultURL := Some(s.history[0].url))
  }

  /** A click on the thumbnail of entry `index`. Thumbnails exist only for
      entries of the current history, so an index outside it is no click. */
  function Jump(s: Session, index: int): (r: Session)
    requires WellFormed(s)
    ensures WellFormed(r)
    ensures 0 <= index < |s.history| ==>
              r == s.(currentIndex := index, currentResultURL := Some(s.history[index].url))
    ensures !(0 <= index < |s.history|) ==> r == s
  {
    if 0 <= index < |s.history| then s.(currentIndex := index, currentResultURL := Some(s.history[index].url))
    else s
  }

  /** `handleFileSelected`: no file changes nothing. A file replaces the
      original, its predecessor's URL is revoked and a fresh one created,
      and the history, cursor and shown URL are cleared. The history's own
      URLs are not revoked. */
  function SelectFile(s: Session, file: Option<File>): (r: Session)
    requires WellFormed(s)
    ensures WellFormed(r)
    ensures file.None? ==> r == s
    ensures file.Some? ==>
              && r.originalFile == file
              && r.history == [] && r.currentIndex == -1 && r.currentResultURL == None
              && r.originalURL == Some(s.issued) && s.issued !in InUse(s) && s.issued !in s.revoked
              && r.revoked == s.revoked + (if s.originalURL.Some? then {s.originalURL.value} else {})
  {
    if file.None? then s
    else
      var revoked := if s.originalURL.Some? then s.revoked + {s.originalURL.value} else s.revoked;
      Session(file, Some(s.issued), [], -1, None, s.issued + 1, revoked)
  }

  /** What the user or the network can do to the session. A response
      arrives for a request sent earlier, with the caption of the handler that
      sent it; nothing ties it to the session it was sent from. */
  datatype Intent =
    | FileChosen(file: Option<File>)
    | ResponseArrived(response: Response, caption: string)
    | UndoClicked
    | ResetClicked
    | ThumbnailClicked(index: int)

  /** The completion of the restore and apply handlers: a successful call
      pushes its blob; a failed one changes nothing. */
  function Completed(s: Session, response: Response, caption: string): (r: Session)
    requires WellFormed(s)
    ensures WellFormed(r)
    ensures CallOutcome(response).Ok? ==> r == Push(s, CallOutcome(response).value, caption)
    ensures CallOutcome(response).Err? ==> r == s
  {
    match CallOutcome(response)
    case Ok(blob) => Push(s, blob, caption)
    case Err(_) => s
  }

  function Step(s: Session, a: Intent): (r: Session)
    requires WellFormed(s)
    ensures WellFormed(r)
  {
    match a
    case FileChosen(file) => SelectFile(s, file)
    case ResponseArrived(response, caption) => Completed(s, response, caption)
    case UndoClicked => Undo(s)
    case ResetClicked => Reset(s)
    case ThumbnailClicked(index) => Jump(s, index)
  }

  function Run(s: Session, xs: seq<Intent>): (r: Session)
    requires WellFormed(s)
    ensures WellFormed(r)
    decreases |xs|
  {
    if xs == [] then s else Run(Step(s, xs[0]), xs[1..])
  }

  /** Whether an intent is a selection of a new file. */
  predicate ReplacesFile(a: Intent) {
    a.FileChosen? && a.file.Some?
  }

  /** The number of responses in a trace that succeed. */
  function Successes(xs: seq<Intent>): nat
    decreases |xs|
  {
    if xs == [] then 0
    else (if xs[0].ResponseArrived? && xs[0].response.HttpOk? then 1 else 0) + Successes(xs[1..])
  }

  /** Until a new file is selected, no handler removes or rewrites an entry:
      the history only grows, by exactly one entry per successful response,
      whatever undo, reset and jumps happen in between. */
  lemma {:induction false} HistoryOnlyGrows(s: Session, xs: seq<Intent>)
    requires WellFormed(s)
    requires forall j :: 0 <= j < |xs| ==> !ReplacesFile(xs[j])
    ensures |Run(s, xs).history| == |s.history| + Successes(xs)
    ensures Run(s, xs).history[..|s.history|] == s.history
    decreases |xs|
  {
    if xs != [] {
      var t := Step(s, xs[0]);
      assert t.history[..|s.history|] == s.history && |t.history| == |s.history| + Successes(xs[..1]) by {
        match xs[0]
        case FileChosen(_) =>
        case ResponseArrived(response, caption) =>
        case UndoClicked =>
        case ResetClicked =>
        case ThumbnailClicked(_) =>
      }
      HistoryOnlyGrows(t, xs[1..]);
      var r := Run(s, xs);
      assert r == Run(t, xs[1..]);
      assert r.history[..|s.history|] == r.history[..|t.history|][..|s.history|];
    }
  }

  /** Appending after a rewind keeps the forward entries: after a reset the
      next result lands at index `length`, not at 1. */
  lemma ResetThenPushExtends(s: Session, blob: Bytes, caption: string)
    requires WellFormed(s) && s.history != []
    ensures var r := Completed(Reset(s), HttpOk(blob), caption);
      && r.history == s.history + [Entry(s.issued, blob, caption)]
      && r.currentIndex == |s.history|
  {
  }

  /** The enabled state of the undo and reset buttons. */
  datatype Buttons = Buttons(undoDisabled: bool, resetDisabled: bool)

  /** `updateUndoResetButtons`: undo is disabled exactly when the undo
      handler would do nothing, and reset when at most one result exists;
      then reset would leave a non-empty session as it is. Whenever undo is
      enabled, so is reset. */
  function ButtonsFor(s: Session): (b: Buttons)
    requires WellFormed(s)
    ensures b.undoDisabled <==> s.currentIndex <= 0
    ensures b.undoDisabled <==> Undo(s) == s
    ensures b.resetDisabled <==> |s.history| <= 1
    ensures b.resetDisabled && s.history != [] ==> Reset(s) == s
    ensures !b.undoDisabled ==> !b.resetDisabled
  {
    Buttons(s.currentIndex <= 0, |s.history| <= 1)
  }

  /** The base image of the apply handler: the cursor's blob when there is
      a history, else the original upload; none when there is neither. */
  function ApplyBase(s: Session): (p: Option<Payload>)
    requires WellFormed(s)
    ensures p.None? <==> s.originalFile.None? && s.history == []
    ensures s.history != [] ==> p == Some(ResultBlob(s.history[s.currentIndex].blob))
    ensures s.history == [] && s.originalFile.Some? ==> p == Some(UploadedFile(s.originalFile.value))
  {
    if s.originalFile.None? && |s.history| == 0 then None
    else if |s.history| > 0 && s.currentIndex >= 0 then Some(ResultBlob(s.history[s.currentIndex].blob))
    else Some(UploadedFile(s.originalFile.value))
  }

  /** The request of the restore button: none without an original file;
      otherwise exactly the original file and the preset's three values,
      with no operation. */
  function RestoreRequest(s: Session, preset: PresetData): (r: Option<seq<Field>>)
    ensures r.None? <==> s.originalFile.None?
    ensures r.Some? ==>
      var pv := ActivePresetValues(preset);
      r.value == [ Field("file", FileValue(s.originalFile.value)), Field("h", TextValue(pv.h)),
                   Field("clahe", TextValue(pv.clahe)), Field("sharp", TextValue(pv.sharp)) ]
  {
    if s.originalFile.None? then None
    else Some(FormFields(UploadedFile(s.originalFile.value), preset, NoOptions))
  }

  /** The options of the apply button. */
  function ApplyOptions(op: string, controls: Controls): Options {
    Options(None, None, None, Some(op), Some(ParamsFor(op, controls)))
  }

  /** The request of the apply button: none without an original file or a
      history; otherwise the base image, the preset's values, the operation
      and the operation's own parameters. */
  function ApplyRequest(s: Session, op: string, controls: Controls, preset: PresetData): (r: Option<seq<Field>>)
    requires WellFormed(s)
    ensures r.None? <==> s.originalFile.None? && s.history == []
    ensures r.Some? ==> r.value == FormFields(ApplyBase(s).value, preset, ApplyOptions(op, controls))
  {
    match ApplyBase(s)
    case None => None
    case Some(base) => Some(FormFields(base, preset, ApplyOptions(op, controls)))
  }

  /** A typical session: load A, restore it to B, apply an operation that
      gives C, then undo. */
  lemma RestoreApplyUndoScenario(a: File, b: Bytes, c: Bytes)
    ensures var s1 := Step(Initial, FileChosen(Some(a)));
      var s2 := Step(s1, ResponseArrived(HttpOk(b), "Restored"));
      var s3 := Step(s2, ResponseArrived(HttpOk(c), "Op: denoise"));
      var s4 := Step(s3, UndoClicked);
      && s2.history == [Entry(1, b, "Restored")] && s2.currentIndex == 0
      && ButtonsFor(s2) == Buttons(true, true)
      && s3.history == [Entry(1, b, "Restored"), Entry(2, c, "Op: denoise")] && s3.currentIndex == 1
      && ButtonsFor(s3) == Buttons(false, false)
      && s4.history == s3.history && s4.currentIndex == 0 && s4.currentResultURL == Some(1)
  {
  }

  /** The module-level state of the client, mutated in place by the
      handlers. */
  class PageSession {
    var originalFile: Option<File>
    var originalURL: Option<Handle>
    var history: seq<Entry>
    var currentIndex: int
    var currentResultURL: Option<Handle>
    var issued: nat
    var revoked: set<Handle>

    function Snapshot(): Session
      reads this
    {
      Session(originalFile, originalURL, history, currentIndex, currentResultURL, issued, revoked)
    }

    ghost predicate Valid()
      reads this
    {
      WellFormed(Snapshot())
    }

    constructor ()
      ensures Valid() && Snapshot() == Initial
    {
      originalFile := None;
      originalURL := None;
      history := [];
      currentIndex := -1;
      currentResultURL := None;
      issued := 0;
      revoked := {};
    }

    /** `URL.createObjectURL`: a handle never handed out before. */
    method CreateObjectURL() returns (url: Handle)
      modifies this`issued
      ensures url == old(issued) && issued == old(issued) + 1
    {
      url := issued;
      issued := issued + 1;
    }

    /** `URL.revokeObjectURL`. */
    method RevokeObjectURL(url: Handle)
      modifies this`revoked
      ensures revoked == old(revoked) + {url}
    {
      revoked := revoked + {url};
    }

    method PushHistory(blob: Bytes, caption: string) returns (url: Handle)
      requires Valid()
      modifies this
      ensures Valid()
      ensures Snapshot() == Push(old(Snapshot()), blob, caption)
      ensures url == old(issued) && currentResultURL == Some(url)
    {
      url := CreateObjectURL();
      history := history + [Entry(url, blob, caption)];
      currentIndex := |history| - 1;
      currentResultURL := Some(url);
    }

    method UpdateUndoResetButtons() returns (undoDisabled: bool, resetDisabled: bool)
      requires Valid()
      ensures Buttons(undoDisabled, resetDisabled) == ButtonsFor(Snapshot())
    {
      undoDisabled := currentIndex <= 0;
      resetDisabled := |history| <= 1;
    }

    /** Also resets the comparison slider's styles when a file is given. */
    method HandleFileSelected(file: Option<File>, slider: Compare.CompareSlider)
      requires Valid() && slider.Valid()
      modifies this, slider
      ensures Valid() && slider.Valid()
      ensures Snapshot() == SelectFile(old(Snapshot()), file)
      ensures file.None? ==> slider.State() == old(slider.State())
      ensures file.Some? ==> slider.State() == Compare.OnEvent(old(slider.State()), Compare.StylesReset)
    {
      if file.None? {
        return;
      }
      originalFile := file;
      if originalURL.Some? {
        RevokeObjectURL(originalURL.value);
      }
      var url := CreateObjectURL();
      originalURL := Some(url);
      slider.ResetStyles();
      history := [];
      currentIndex := -1;
      currentResultURL := None;
    }

    /** The restore button up to the request: the form to send, or none
      when no image is loaded. */
    method PrepareRestore(preset: PresetData) returns (request: Option<seq<Field>>)
      requires Valid()
      ensures request == RestoreRequest(Snapshot(), preset)
    {
      if originalFile.None? {
        return None;
      }
      var form := ComposeForm(UploadedFile(originalFile.value), preset, NoOptions);
      request := Some(form);
    }

    /** The apply button up to the request. */
    method PrepareApply(op: string, controls: Controls, preset: PresetData) returns (request: Option<seq<Field>>)
      requires Valid()
      ensures request == ApplyRequest(Snapshot(), op, controls, preset)
    {
      if originalFile.None? && |history| == 0 {
        return None;
      }
      var base := if originalFile.Some? then Some(UploadedFile(originalFile.value)) else None;
      if |history| > 0 && currentIndex >= 0 {
        base := Some(ResultBlob(history[currentIndex].blob));
      }
      var params := BuildParams(op, controls);
      var form := ComposeForm(base.value, preset, Options(None, None, None, Some(op), Some(params)));
      request := Some(form);
    }

    /** The restore and apply buttons after the request: the blob of a
      successful response is pushed; a failure is reported by its message
      and leaves the session as it was. */
    method ReceiveResponse(response: Response, caption: string) returns (error: Option<string>)
      requires Valid()
      modifies this
      ensures Valid()
      ensures Snapshot() == Step(old(Snapshot()), ResponseArrived(response, caption))
      ensures error.None? <==> response.HttpOk?
      ensures error.Some? ==> error.value == CallOutcome(response).error
    {
      match CallOutcome(response)
      case Ok(blob) =>
        var url := PushHistory(blob, caption);
        currentResultURL := Some(url);
        error := None;
      case Err(message) =>
        error := Some(message);
    }

    method UndoClick()
      requires Valid()
      modifies this
      ensures Valid()
      ensures Snapshot() == Undo(old(Snapshot()))
    {
      if currentIndex <= 0 {
        return;
      }
      currentIndex := currentIndex - 1;
      var entry := history[currentIndex];
      currentResultURL := Some(entry.url);
    }

    method ResetClick()
      requires Valid()
      modifies this
      ensures Valid()
      ensures Snapshot() == Reset(old(Snapshot()))
    {
      if |history| == 0 {
        if originalURL.Some? {
          currentResultURL := originalURL;
        }
        return;
      }
      currentIndex := 0;
      var entry := history[0];
      currentResultURL := Some(entry.url);
    }

    /** The click listener of the thumbnail of entry `index`. */
    method ThumbnailClick(index: int)
      requires Valid() && 0 <= index < |history|
      modifies this
      ensures Valid()
      ensures Snapshot() == Jump(old(Snapshot()), index)
    {
      var entry := history[index];
      currentIndex := index;
      currentResultURL := Some(entry.url);
    }
  }
}
