/**
 * The Electron main process: the same watch, scan and upload pipeline as the
 * command-line version, with an HTTPS upload URL, results sent to the window as
 * `app-event` messages, and IPC handlers for start, stop and status.
 */
module DesktopMain {
  import opened Optional
  import opened UploadRequest
  import opened Scanner
  import opened Events

  const FolderPath := "c:/Users/naaman/AppData/Roaming/.minecraft/screenshots"
  const UploadUrlText := "https://flowflowxyz.niva.monster/upload"

  /** What the `get-status` handler returns. */
  datatype Status = Status(isMonitoring: bool, folderPath: string, uploadUrl: string)

  /** The event `uploadFile` sends as soon as it is called. */
  function StartEvent(file: string): AppEvent {
    AppEvent(UploadStart, Text("Uploading: " + file))
  }

  /** The events `uploadFile` sends once the file read and the HTTPS exchange have ended. */
  function CompletionEvents(file: string, read: ReadOutcome, exchange: Exchange): seq<AppEvent> {
    match read
    case ReadError(message) => [AppEvent(UploadError, Text("Error reading " + file + ": " + message))]
    case ReadOk(_) =>
      match exchange
      case Response(status, body) =>
        if IsSuccess(status) then
          [AppEvent(UploadSuccess, Text(file)), AppEvent(UploadResponse, Text("Response: " + body))]
        else
          [AppEvent(UploadError, Text("Failed to upload " + file + ": " + Decimal(status) + " - " + body))]
      case RequestError(message) => [AppEvent(UploadError, Text("Upload error for " + file + ": " + message))]
      case TimedOut => [AppEvent(UploadError, Text("Upload timeout for " + file))]
  }

  /** Everything one upload sends, in order. */
  function UploadEvents(file: string, read: ReadOutcome, exchange: Exchange): seq<AppEvent> {
    [StartEvent(file)] + CompletionEvents(file, read, exchange)
  }

  /** How many events of `kind` are in `events`. */
  function CountKind(events: seq<AppEvent>, kind: string): nat
    decreases |events|
  {
    if events == [] then 0
    else (if events[0].kind == kind then 1 else 0) + CountKind(events[1..], kind)
  }

  /**
   * One upload sends `upload-start` first and exactly once, then exactly one
   * outcome: `upload-success` precisely when the file was read and the
   * status is 2xx (followed by `upload-response`), `upload-error` otherwise.
   */
  lemma UploadEventsOutcome(file: string, read: ReadOutcome, exchange: Exchange)
    ensures var ev := UploadEvents(file, read, exchange);
      && ev[0] == StartEvent(file) && CountKind(ev, UploadStart) == 1
      && CountKind(ev, UploadSuccess) + CountKind(ev, UploadError) == 1
      && (CountKind(ev, UploadSuccess) == 1 <==> read.ReadOk? && exchange.Response? && IsSuccess(exchange.status))
      && (CountKind(ev, UploadSuccess) == 1 ==>
            ev[1..] == [AppEvent(UploadSuccess, Text(file)), AppEvent(UploadResponse, Text("Response: " + exchange.body))])
  {
    KindsDistinct();
    var ev := UploadEvents(file, read, exchange);
    var tail := CompletionEvents(file, read, exchange);
    assert ev[1..] == tail;
    if read.ReadOk? && exchange.Response? && IsSuccess(exchange.status) {
      var e1, e2 := tail[0], tail[1];
      assert tail == [e1] + [e2];
      CountKindCons(e2, [], UploadStart);
      CountKindCons(e2, [], UploadSuccess);
      CountKindCons(e2, [], UploadError);
      CountKindCons(e1, [e2], UploadStart);
      CountKindCons(e1, [e2], UploadSuccess);
      CountKindCons(e1, [e2], UploadError);
    } else {
      var e1 := tail[0];
      assert tail == [e1] + [];
      assert e1.kind == UploadError;
      CountKindCons(e1, [], UploadStart);
      CountKindCons(e1, [], UploadSuccess);
      CountKindCons(e1, [], UploadError);
    }
    assert ev == [StartEvent(file)] + tail;
    CountKindCons(StartEvent(file), tail, UploadStart);
    CountKindCons(StartEvent(file), tail, UploadSuccess);
    CountKindCons(StartEvent(file), tail, UploadError);
  }

  lemma CountKindCons(e: AppEvent, rest: seq<AppEvent>, kind: string)
    ensures CountKind([e] + rest, kind) == (if e.kind == kind then 1 else 0) + CountKind(rest, kind)
  {
    assert ([e] + rest)[1..] == rest;
  }

  /** A read error is reported once, and no request is made (see `CompleteUpload`). */
  lemma ReadErrorEvents(file: string, message: string, exchange: Exchange)
    ensures UploadEvents(file, ReadError(message), exchange)
      == [StartEvent(file), AppEvent(UploadError, Text("Error reading " + file + ": " + message))]
  {
  }

  /** A non-2xx response gives one `upload-error` naming the file, the status (in decimal) and the body. */
  lemma RejectedEvents(file: string, data: seq<Bytes.byte>, status: nat, body: string)
    requires !IsSuccess(status)
    ensures UploadEvents(file, ReadOk(data), Response(status, body))
      == [StartEvent(file), AppEvent(UploadError, Text("Failed to upload " + file + ": " + Decimal(status) + " - " + body))]
  {
  }

  /** On timeout the request is aborted and one `upload-error` names the file. */
  lemma TimeoutEvents(file: string, data: seq<Bytes.byte>)
    ensures UploadEvents(file, ReadOk(data), TimedOut)
      == [StartEvent(file), AppEvent(UploadError, Text("Upload timeout for " + file))]
  {
  }

  /** `upload-start` for each queued file, in queue order. */
  function StartEvents(queue: seq<string>): seq<AppEvent>
    decreases |queue|
  {
    if queue == [] then [] else StartEvents(queue[..|queue| - 1]) + [StartEvent(queue[|queue| - 1])]
  }

  lemma StartEventsSnoc(queue: seq<string>, i: nat)
    requires i < |queue|
    ensures StartEvents(queue[..i + 1]) == StartEvents(queue[..i]) + [StartEvent(queue[i])]
  {
    assert queue[..i + 1][..i] == queue[..i];
  }

  /** What the scan timer sends: nothing for an empty queue, else the count and then each upload's start. */
  function ScanEvents(queue: seq<string>): seq<AppEvent> {
    if queue == [] then [] else [AppEvent(NewFilesDetected, Count(|queue|))] + StartEvents(queue)
  }

  lemma {:induction false} StartEventsAt(queue: seq<string>)
    ensures |StartEvents(queue)| == |queue|
    ensures forall k :: 0 <= k < |queue| ==> StartEvents(queue)[k] == StartEvent(queue[k])
    decreases |queue|
  {
    if queue != [] {
      StartEventsAt(queue[..|queue| - 1]);
    }
  }

  /**
   * `new-files-detected` is sent only for a non-empty queue and carries its
   * length; then every queued file gets exactly one `upload-start`, in order.
   */
  lemma ScanEventsShape(queue: seq<string>)
    ensures ScanEvents(queue) == [] <==> queue == []
    ensures queue != [] ==>
      && |ScanEvents(queue)| == |queue| + 1
      && ScanEvents(queue)[0] == AppEvent(NewFilesDetected, Count(|queue|))
      && forall k :: 0 <= k < |queue| ==> ScanEvents(queue)[k + 1] == StartEvent(queue[k])
    ensures CountKind(ScanEvents(queue), UploadStart) == |queue|
  {
    StartEventsAt(queue);
    StartEventsCount(queue);
  }

  lemma {:induction false} CountKindAppend(a: seq<AppEvent>, b: seq<AppEvent>, kind: string)
    ensures CountKind(a + b, kind) == CountKind(a, kind) + CountKind(b, kind)
    decreases |a|
  {
    if a == [] {
      assert a + b == b;
    } else {
      assert (a + b)[1..] == a[1..] + b;
      CountKindAppend(a[1..], b, kind);
    }
  }

  lemma {:induction false} StartEventsCount(queue: seq<string>)
    ensures CountKind(StartEvents(queue), UploadStart) == |queue|
    ensures CountKind(ScanEvents(queue), UploadStart) == |queue|
    decreases |queue|
  {
    if queue != [] {
      var init := queue[..|queue| - 1];
      StartEventsCount(init);
      CountKindAppend(StartEvents(init), [StartEvent(queue[|queue| - 1])], UploadStart);
      CountKindAppend([AppEvent(NewFilesDetected, Count(|queue|))], StartEvents(queue), UploadStart);
    }
  }

  /** The main process's module-level state. */
  class DesktopMain {
    var previousFiles: set<string>
    var isMonitoring: bool
    var fileWatcher: Option<nat>
    /** Whether `mainWindow` exists; events are sent only to a window. */
    const hasWindow: bool
    /** Every event sent to the window so far, oldest first. */
    var sent: seq<AppEvent>

    ghost predicate Valid()
      reads this
    {
      !isMonitoring ==> fileWatcher == None
    }

    constructor(hasWindow: bool)
      ensures Valid()
      ensures this.hasWindow == hasWindow
      ensures previousFiles == {} && !isMonitoring && fileWatcher == None && sent == []
    {
      this.hasWindow := hasWindow;
      previousFiles := {};
      isMonitoring := false;
      fileWatcher := None;
      sent := [];
    }

    /** What of `events` reaches the window: all of them, or nothing when there is no window. */
    function Delivered(events: seq<AppEvent>): seq<AppEvent> {
      if hasWindow then events else []
    }

    /** `sendToRenderer`: one `{ type, data }` event to the window, if there is one. */
    method SendToRenderer(kind: string, data: Payload)
      modifies this`sent
      ensures sent == old(sent) + Delivered([AppEvent(kind, data)])
    {
      if hasWindow {
        sent := sent + [AppEvent(kind, data)];
      }
    }

    /**
     * `startMonitoring`: nothing when already monitoring.  Otherwise the flag is
     * set before `fs.watch` is tried, so it stays set when the watch throws.
     * `scanScheduled` says that the initial scan was started.
     */
    method StartMonitoring(watch: WatchOutcome) returns (scanScheduled: bool)
      requires Valid()
      modifies this`isMonitoring, this`fileWatcher, this`sent
      ensures Valid() && isMonitoring
      ensures scanScheduled == !old(isMonitoring)
      ensures old(isMonitoring) ==> fileWatcher == old(fileWatcher) && sent == old(sent)
      ensures !old(isMonitoring) ==>
        && fileWatcher == (if watch.Watching? then Some(watch.handle) else None)
        && sent == old(sent) + Delivered([AppEvent(MonitoringStarted, NoData)]
                                        + if watch.WatchThrew? then [AppEvent(FolderError, Text("Error watching folder: " + watch.message))] else [])
    {
      if isMonitoring {
        return false;
      }
      isMonitoring := true;
      SendToRenderer(MonitoringStarted, NoData);
      scanScheduled := true;
      match watch
      case Watching(handle) =>
        fileWatcher := Some(handle);
      case WatchThrew(message) =>
        SendToRenderer(FolderError, Text("Error watching folder: " + message));
    }

    /**
     * `stopMonitoring`: nothing when stopped; otherwise the flag is cleared and
     * the watcher, if any, is closed (returned as `closed`) and forgotten.
     */
    method StopMonitoring() returns (closed: Option<nat>)
      requires Valid()
      modifies this`isMonitoring, this`fileWatcher, this`sent
      ensures Valid() && !isMonitoring && fileWatcher == None
      ensures closed == (if old(isMonitoring) then old(fileWatcher) else None)
      ensures sent == old(sent) + if old(isMonitoring) then Delivered([AppEvent(MonitoringStopped, NoData)]) else []
    {
      closed := None;
      if !isMonitoring {
        return;
      }
      isMonitoring := false;
      if fileWatcher.Some? {
        closed := fileWatcher;
        fileWatcher := None;
      }
      SendToRenderer(MonitoringStopped, NoData);
    }

    /** The synchronous part of `uploadFile`: announce the upload. */
    method BeginUpload(file: string)
      modifies this`sent
      ensures sent == old(sent) + Delivered([StartEvent(file)])
    {
      SendToRenderer(UploadStart, Text("Uploading: " + file));
    }

    /**
     * The callbacks of `uploadFile`: a read error is reported and no request is
     * made; otherwise the request is built and the exchange's end reported.
     */
    method CompleteUpload(file: string, read: ReadOutcome, exchange: Exchange) returns (request: Option<HttpRequest>)
      modifies this`sent
      ensures request.None? <==> read.ReadError?
      ensures read.ReadOk? ==> request == Some(BuildRequest(DesktopUploadUrl, DesktopDefaultPort, file, read.data))
      ensures sent == old(sent) + Delivered(CompletionEvents(file, read, exchange))
    {
      if read.ReadOk? {
        request := Some(BuildRequest(DesktopUploadUrl, DesktopDefaultPort, file, read.data));
      } else {
        request := None;
      }
      ReportCompletion(file, read, exchange);
    }

    /** The reported end of an upload: the read error, or how the exchange ended. */
    method ReportCompletion(file: string, read: ReadOutcome, exchange: Exchange)
      modifies this`sent
      ensures sent == old(sent) + Delivered(CompletionEvents(file, read, exchange))
    {
      match read
      case ReadError(message) =>
        SendToRenderer(UploadError, Text("Error reading " + file + ": " + message));
      case ReadOk(_) =>
        match exchange
        case Response(status, body) =>
          if IsSuccess(status) {
            SendToRenderer(UploadSuccess, Text(file));
            SendToRenderer(UploadResponse, Text("Response: " + body));
          } else {
            SendToRenderer(UploadError, Text("Failed to upload " + file + ": " + Decimal(status) + " - " + body));
          }
        case RequestError(message) =>
          SendToRenderer(UploadError, Text("Upload error for " + file + ": " + message));
        case TimedOut =>
          SendToRenderer(UploadError, Text("Upload timeout for " + file));
    }

    /**
     * `checkForNewFiles`: a `readdir` error is reported and changes nothing.
     * Otherwise the queue is announced and each queued file's upload begun, and
     * `previousFiles` becomes the set of regular files just seen.
     */
    method CheckForNewFiles(listing: Listing) returns (uploads: seq<string>)
      modifies this`previousFiles, this`sent
      ensures listing.ReaddirError? ==>
        && uploads == [] && previousFiles == old(previousFiles)
        && sent == old(sent) + Delivered([AppEvent(FolderError, Text("Error reading folder: " + listing.message))])
      ensures listing.Entries? ==>
        && uploads == Queued(old(previousFiles), listing.entries)
        && previousFiles == Seen(listing.entries)
        && sent == old(sent) + Delivered(ScanEvents(uploads))
    {
      match listing
      case ReaddirError(message) =>
        SendToRenderer(FolderError, Text("Error reading folder: " + message));
        uploads := [];
      case Entries(entries) =>
        var newFiles, currentFiles := Scan(previousFiles, entries);
        if |newFiles| > 0 {
          AnnounceUploads(newFiles);
        }
        previousFiles := currentFiles;
        uploads := newFiles;
    }

    /** The queue's count to the window, then each queued file's upload begun in order. */
    method AnnounceUploads(queue: seq<string>)
      requires queue != []
      modifies this`sent
      ensures sent == old(sent) + Delivered(ScanEvents(queue))
    {
      SendToRenderer(NewFilesDetected, Count(|queue|));
      BeginUploads(queue);
      DeliveredAppend([AppEvent(NewFilesDetected, Count(|queue|))], StartEvents(queue));
    }

    /** Each queued file's upload begun, in queue order. */
    method BeginUploads(queue: seq<string>)
      modifies this`sent
      ensures sent == old(sent) + Delivered(StartEvents(queue))
    {
      var i := 0;
      while i < |queue|
        invariant 0 <= i <= |queue|
        invariant sent == old(sent) + Delivered(StartEvents(queue[..i]))
      {
        StartEventsSnoc(queue, i);
        DeliveredAppend(StartEvents(queue[..i]), [StartEvent(queue[i])]);
        BeginUpload(queue[i]);
        i := i + 1;
      }
      assert queue[..i] == queue;
    }

    lemma DeliveredAppend(a: seq<AppEvent>, b: seq<AppEvent>)
      ensures Delivered(a + b) == Delivered(a) + Delivered(b)
    {
    }

    /** The `start-monitoring` handler: start, then report the flag, which is then always set. */
    method HandleStartMonitoring(watch: WatchOutcome) returns (result: bool, scanScheduled: bool)
      requires Valid()
      modifies this`isMonitoring, this`fileWatcher, this`sent
      ensures Valid() && result && isMonitoring
      ensures scanScheduled == !old(isMonitoring)
      ensures old(isMonitoring) ==> fileWatcher == old(fileWatcher) && sent == old(sent)
      ensures !old(isMonitoring) ==>
        && fileWatcher == (if watch.Watching? then Some(watch.handle) else None)
        && sent == old(sent) + Delivered([AppEvent(MonitoringStarted, NoData)]
                                        + if watch.WatchThrew? then [AppEvent(FolderError, Text("Error watching folder: " + watch.message))] else [])
    {
      scanScheduled := StartMonitoring(watch);
      result := isMonitoring;
    }

    /** The `stop-monitoring` handler: stop, then report the flag, which is then always clear. */
    method HandleStopMonitoring() returns (result: bool)
      requires Valid()
      modifies this`isMonitoring, this`fileWatcher, this`sent
      ensures Valid() && !result && !isMonitoring && fileWatcher == None
      ensures sent == old(sent) + if old(isMonitoring) then Delivered([AppEvent(MonitoringStopped, NoData)]) else []
    {
      var _ := StopMonitoring();
      result := isMonitoring;
    }

    /** The `get-status` handler. */
    function GetStatus(): (s: Status)
      reads this
      ensures s.isMonitoring == isMonitoring
      ensures s.folderPath == FolderPath && s.uploadUrl == UploadUrlText
    {
      Status(isMonitoring, FolderPath, UploadUrlText)
    }
  }
}
