/** The data-upload page: choosing a report or video file starts a simulated
    upload whose progress a repeating timer advances by 10 per tick until
    the upload succeeds. */
module DataUpload {
  import opened Common

  /** `uploadStatus`. `Error` is declared by the page but never assigned. */
  datatype Status = Idle | Uploading | Success | Error

  /** The two file inputs: the NSV data report and the camera video. */
  datatype FileKind = DataReport | Video

  /** A chosen file; only its name is used. */
  datatype UploadFile = UploadFile(name: string)

  /** `selectedFiles`: the last file chosen in each input. */
  datatype SelectedFiles = SelectedFiles(data: Option<UploadFile>, video: Option<UploadFile>)

  /** The page's upload state. `timer` is the live interval: `Some(f)` while
      one runs, holding the file `f` its callback captured, `None` once it
      is cleared or before any upload. */
  datatype UploadState = UploadState(
    status: Status,
    progress: int,
    timer: Option<UploadFile>,
    files: SelectedFiles)

  /** The state when the page opens. */
  const Initial := UploadState(Idle, 0, None, SelectedFiles(None, None))

  /** The toast the timer emits when the upload completes. */
  function SuccessToast(f: UploadFile): Toast
  {
    Toast("Upload Successful", f.name + " has been uploaded successfully.", Default)
  }

  /** What every reachable state satisfies: progress is a multiple of 10 in
      [0, 100], an interval is live exactly while uploading, a finished
      upload is at 100, and the error status never occurs. */
  predicate Inv(s: UploadState)
  {
    && 0 <= s.progress <= 100
    && s.progress % 10 == 0
    && s.status != Error
    && (s.timer.Some? <==> s.status == Uploading)
    && (s.status == Idle ==> s.progress == 0)
    && (s.status == Success ==> s.progress == 100)
  }

  lemma InitialSatisfiesInv()
    ensures Inv(Initial)
  {
  }

  /** The slot of `selectedFiles` for one input. */
  function Slot(f: SelectedFiles, kind: FileKind): Option<UploadFile>
  {
    match kind
    case DataReport => f.data
    case Video => f.video
  }

  function Other(kind: FileKind): FileKind
  {
    match kind
    case DataReport => Video
    case Video => DataReport
  }

  /** `setSelectedFiles(prev => ({...prev, [type]: file}))`: the file goes
      into its input's slot and the other slot keeps its file. */
  function Select(f: SelectedFiles, kind: FileKind, file: UploadFile): (r: SelectedFiles)
    ensures Slot(r, kind) == Some(file)
    ensures Slot(r, Other(kind)) == Slot(f, Other(kind))
  {
    match kind
    case DataReport => f.(data := Some(file))
    case Video => f.(video := Some(file))
  }

  /** `handleFileUpload(type, file)`: records the file, restarts progress at
      0 in the uploading status and starts the interval for this file.
      From any state the result satisfies the invariant. */
  function StartUpload(s: UploadState, kind: FileKind, file: UploadFile): (r: UploadState)
    ensures r.status == Uploading && r.progress == 0 && r.timer == Some(file)
    ensures Slot(r.files, kind) == Some(file)
    ensures Slot(r.files, Other(kind)) == Slot(s.files, Other(kind))
    ensures Inv(r)
  {
    UploadState(Uploading, 0, Some(file), Select(s.files, kind, file))
  }

  /** A file input's `onChange`: only when a file was chosen, and then with
      the first chosen file. */
  function OnFileInput(s: UploadState, kind: FileKind, chosen: seq<UploadFile>): (r: UploadState)
    ensures chosen == [] ==> r == s
    ensures chosen != [] ==> r == StartUpload(s, kind, chosen[0])
    ensures Inv(s) ==> Inv(r)
  {
    if chosen == [] then s else StartUpload(s, kind, chosen[0])
  }

  /** The new state after one firing of the interval, and the toasts it
      emitted. */
  datatype TickResult = TickResult(state: UploadState, emitted: seq<Toast>)

  /** One firing of the interval callback. Below 100 it adds 10 and changes
      nothing else; at 100 or more it clamps progress to 100, enters
      success, clears the interval and emits one toast naming the file. */
  function Tick(s: UploadState): (r: TickResult)
    requires s.timer.Some?
    ensures s.progress < 100 ==> r.state == s.(progress := s.progress + 10) && r.emitted == []
    ensures s.progress >= 100 ==>
              r.state == s.(status := Success, progress := 100, timer := None) &&
              r.emitted == [SuccessToast(s.timer.value)]
    ensures Inv(s) ==> Inv(r.state)
  {
    if s.progress >= 100 then
      TickResult(s.(status := Success, progress := 100, timer := None), [SuccessToast(s.timer.value)])
    else
      TickResult(s.(progress := s.progress + 10), [])
  }

  /** `n` periods of the interval: the callback fires in each period while
      the interval is live, and not once it has been cleared. At most one
      toast is emitted over any number of periods. */
  function Run(s: UploadState, n: nat): (r: TickResult)
    ensures s.timer.None? ==> r == TickResult(s, [])
    ensures Inv(s) ==> Inv(r.state)
    ensures |r.emitted| <= 1
    decreases n
  {
    if n == 0 || s.timer.None? then TickResult(s, [])
    else
      var t := Tick(s);
      var rest := Run(t.state, n - 1);
      TickResult(rest.state, t.emitted + rest.emitted)
  }

  /** An upload at progress `p` (a multiple of 10, at most 100) needs
      `(100 - p) / 10` ticks to reach 100 and one more to succeed; it never
      passes 100, and after success nothing changes any more. */
  lemma {:induction false} RunFromProgress(s: UploadState, n: nat)
    requires s.status == Uploading && s.timer.Some?
    requires 0 <= s.progress <= 100 && s.progress % 10 == 0
    ensures n <= (100 - s.progress) / 10 ==>
              Run(s, n) == TickResult(s.(progress := s.progress + 10 * n), [])
    ensures n > (100 - s.progress) / 10 ==>
              Run(s, n) == TickResult(s.(status := Success, progress := 100, timer := None),
                                      [SuccessToast(s.timer.value)])
    decreases n
  {
    if n > 0 {
      var t := Tick(s);
      if s.progress < 100 {
        RunFromProgress(t.state, n - 1);
      }
    }
  }

  /** The whole simulated upload: for ten ticks progress climbs 10, 20, ...,
      100 while uploading, with the progress card shown and View on Map
      disabled; the eleventh tick enters success, clears the interval and
      emits exactly one toast; no later tick changes anything. */
  lemma UploadTimeline(s: UploadState, kind: FileKind, file: UploadFile, n: nat)
    ensures var r := Run(StartUpload(s, kind, file), n);
            n <= 10 ==>
              r.emitted == [] && r.state.status == Uploading && r.state.progress == 10 * n &&
              ProgressCardShown(r.state.status) && ViewOnMapDisabled(r.state.status)
    ensures var r := Run(StartUpload(s, kind, file), n);
            n >= 11 ==>
              r.emitted == [SuccessToast(file)] && r.state.status == Success &&
              r.state.progress == 100 && r.state.timer.None? &&
              !ProgressCardShown(r.state.status) && !ViewOnMapDisabled(r.state.status) &&
              FileCheckShown(Slot(r.state.files, kind), r.state.status)
  {
    RunFromProgress(StartUpload(s, kind, file), n);
  }

  /** What can happen on the page: a file input changes, or one period of
      the interval elapses. */
  datatype Event = FileChosen(kind: FileKind, chosen: seq<UploadFile>) | IntervalPeriod

  /** A file input change that starts an upload. */
  predicate StartsUpload(e: Event)
  {
    e.FileChosen? && e.chosen != []
  }

  /** One event; a period fires the callback only while an interval is live.
      An event keeps the invariant, a period after the interval was cleared
      changes nothing, and the page stays idle exactly until an upload
      starts. */
  function Apply(s: UploadState, e: Event): (r: UploadState)
    ensures Inv(s) ==> Inv(r)
    ensures e.IntervalPeriod? && s.timer.None? ==> r == s
    ensures StartsUpload(e) ==> r.status == Uploading && r.progress == 0
    ensures Inv(s) ==> (r.status == Idle <==> s.status == Idle && !StartsUpload(e))
  {
    match e
    case FileChosen(kind, chosen) => OnFileInput(s, kind, chosen)
    case IntervalPeriod => if s.timer.Some? then Tick(s).state else s
  }

  /** The state after a sequence of events, from the opening state. The page
      is idle (at progress 0) exactly when no event has started an upload:
      no later event returns it to idle. */
  function Replay(events: seq<Event>): (r: UploadState)
    ensures r.status == Idle <==> forall i :: 0 <= i < |events| ==> !StartsUpload(events[i])
    ensures r.status == Idle ==> r == Initial
  {
    if events == [] then Initial else Apply(Replay(events[..|events| - 1]), events[|events| - 1])
  }

  /** Every state the page can reach satisfies the invariant; in particular
      progress never leaves [0, 100] and the error status is never entered. */
  lemma {:induction false} ReachableStatesSatisfyInv(events: seq<Event>)
    ensures Inv(Replay(events))
    ensures Replay(events).status != Error
    ensures 0 <= Replay(events).progress <= 100
  {
    if events != [] {
      ReachableStatesSatisfyInv(events[..|events| - 1]);
    }
  }

  /** The "View on Map" button is disabled unless the upload succeeded. */
  predicate ViewOnMapDisabled(status: Status)
  {
    status != Success
  }

  /** The progress card is shown only while uploading. */
  predicate ProgressCardShown(status: Status)
  {
    status == Uploading
  }

  /** The check mark beside a chosen file name: the input's slot holds a
      file and the upload succeeded. */
  predicate FileCheckShown(slot: Option<UploadFile>, status: Status)
  {
    slot.Some? && status == Success
  }

  /** In every reachable state the progress card is shown exactly while the
      interval is live, and never together with an enabled View on Map. */
  lemma ProgressCardWhileTimerLive(s: UploadState)
    requires Inv(s)
    ensures ProgressCardShown(s.status) <==> s.timer.Some?
    ensures ProgressCardShown(s.status) ==> ViewOnMapDisabled(s.status)
  {
  }

  /** In every reachable state View on Map is enabled only once the
      upload has reached 100 and the interval has been cleared. */
  lemma ViewOnMapOnlyAfterUpload(s: UploadState)
    requires Inv(s)
    ensures !ViewOnMapDisabled(s.status) ==> s.progress == 100 && s.timer.None?
    ensures s.status == Idle ==> ViewOnMapDisabled(s.status)
  {
  }

  /** A file's check mark shows only for a file that was chosen, once the
      upload reached 100; choosing a file hides every check mark until the
      new upload succeeds. */
  lemma FileCheckOnlyAfterUpload(s: UploadState, kind: FileKind, file: UploadFile)
    requires Inv(s)
    ensures FileCheckShown(Slot(s.files, kind), s.status) ==> s.progress == 100 && Slot(s.files, kind).Some?
    ensures !FileCheckShown(Slot(StartUpload(s, kind, file).files, kind), StartUpload(s, kind, file).status)
    ensures !FileCheckShown(Slot(StartUpload(s, kind, file).files, Other(kind)), StartUpload(s, kind, file).status)
  {
  }

  /** The page's state, updated in place by the handlers and the interval
      callback. `toasts` is every notification emitted so far. */
  class Page {
    var status: Status
    var progress: int
    var timer: Option<UploadFile>
    var selectedFiles: SelectedFiles
    var toasts: seq<Toast>

    /** The state as a value. */
    function State(): UploadState
      reads this
    {
      UploadState(status, progress, timer, selectedFiles)
    }

    ghost predicate Valid()
      reads this
    {
      Inv(State())
    }

    /** Whether the interval is live. */
    function TimerActive(): bool
      reads this
    {
      timer.Some?
    }

    constructor ()
      ensures State() == Initial && toasts == [] && Valid()
    {
      status, progress, timer := Idle, 0, None;
      selectedFiles := SelectedFiles(None, None);
      toasts := [];
    }

    /** `handleFileUpload(kind, file)`. A live interval is replaced by the
        new one. */
    method HandleFileUpload(kind: FileKind, file: UploadFile)
      modifies this
      ensures State() == StartUpload(old(State()), kind, file)
      ensures status == Uploading && progress == 0 && TimerActive()
      ensures toasts == old(toasts)
      ensures Valid()
    {
      selectedFiles := Select(selectedFiles, kind, file);
      status := Uploading;
      progress := 0;
      timer := Some(file);
    }

    /** A file input's `onChange` with the files chosen in it. */
    method OnFileInputChange(kind: FileKind, chosen: seq<UploadFile>)
      modifies this
      ensures State() == OnFileInput(old(State()), kind, chosen)
      ensures toasts == old(toasts)
      ensures old(Valid()) ==> Valid()
    {
      if chosen != [] {
        HandleFileUpload(kind, chosen[0]);
      }
    }

    /** One firing of the interval callback. */
    method IntervalTick()
      requires TimerActive()
      modifies this
      ensures State() == Tick(old(State())).state
      ensures toasts == old(toasts) + Tick(old(State())).emitted
      ensures old(progress) < 100 ==>
                progress == old(progress) + 10 && status == old(status) && timer == old(timer)
      ensures old(progress) >= 100 ==>
                progress == 100 && status == Success && !TimerActive() &&
                toasts == old(toasts) + [SuccessToast(old(timer).value)]
      ensures selectedFiles == old(selectedFiles)
      ensures old(Valid()) ==> Valid()
    {
      if progress >= 100 {
        var file := timer.value;
        timer := None;
        status := Success;
        toasts := toasts + [SuccessToast(file)];
        progress := 100;
      } else {
        progress := progress + 10;
      }
    }
  }
}
