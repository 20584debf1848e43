/**
 * The command-line uploader: the watch, scan and upload pipeline with an HTTP
 * upload URL, reporting to the console.  Console lines are kept without their
 * `[time]` prefix.
 */
module CliMonitor {
  import opened Optional
  import opened UploadRequest
  import opened Scanner
  import opened Events

  const FolderPath := "c:/Users/naaman/AppData/Roaming/.minecraft/screenshots"
  const UploadUrlText := "http://flowflowxyz.niva.monster/upload"

  /** What `getStatus` returns. */
  datatype Status = Status(isMonitoring: bool, folderPath: string, uploadUrl: string)

  function StartLine(file: string): string {
    "Upload Start: Uploading: " + file
  }

  /**
   * The lines `uploadFile` logs once the read and the HTTP exchange have ended.
   * The timeout is set without a callback, so a timed-out request logs nothing.
   */
  function CompletionLines(file: string, read: ReadOutcome, exchange: Exchange): seq<string> {
    match read
    case ReadError(message) => [ErrorLine("Error reading " + file + ": " + message)]
    case ReadOk(_) =>
      match exchange
      case Response(status, _) =>
        if IsSuccess(status) then [SuccessLine(file)]
        else [ErrorLine("Failed to upload " + file + ": " + Decimal(status))]
      case RequestError(message) => [ErrorLine("Upload error for " + file + ": " + message)]
      case TimedOut => []
  }

  function SuccessLine(file: string): string {
    "Upload Success: " + file
  }

  function ErrorLine(detail: string): string {
    "Upload Error: " + detail
  }

  /**
   * Every upload logs its start line and at most one more line: a success line
   * exactly for a read file answered with 2xx, nothing only on timeout.
   */
  lemma CompletionLinesOutcome(file: string, read: ReadOutcome, exchange: Exchange)
    ensures var lines := CompletionLines(file, read, exchange);
      && |lines| <= 1
      && (lines == [] <==> read.ReadOk? && exchange.TimedOut?)
      && (lines == [SuccessLine(file)] <==> read.ReadOk? && exchange.Response? && IsSuccess(exchange.status))
  {
    match read
    case ReadError(message) => ErrorIsNotSuccess("Error reading " + file + ": " + message, file);
    case ReadOk(_) =>
      match exchange
      case Response(status, _) =>
        if !IsSuccess(status) {
          ErrorIsNotSuccess("Failed to upload " + file + ": " + Decimal(status), file);
        }
      case RequestError(message) => ErrorIsNotSuccess("Upload error for " + file + ": " + message, file);
      case TimedOut =>
  }

  lemma ErrorIsNotSuccess(detail: string, file: string)
    ensures [ErrorLine(detail)] != [SuccessLine(file)]
  {
    assert ErrorLine(detail)[7] == 'E';
    assert SuccessLine(file)[7] == 'S';
  }

  /** `New Files Detected` for a non-empty queue, then each file's start line in queue order. */
  function ScanLines(queue: seq<string>): seq<string> {
    if queue == [] then [] else [CountLine(|queue|)] + StartLines(queue)
  }

  function CountLine(n: nat): string {
    "New Files Detected: " + Decimal(n) + " new file(s)"
  }

  function StartLines(queue: seq<string>): seq<string>
    decreases |queue|
  {
    if queue == [] then [] else StartLines(queue[..|queue| - 1]) + [StartLine(queue[|queue| - 1])]
  }

  lemma StartLinesSnoc(queue: seq<string>, i: nat)
    requires i < |queue|
    ensures StartLines(queue[..i + 1]) == StartLines(queue[..i]) + [StartLine(queue[i])]
  {
    assert queue[..i + 1][..i] == queue[..i];
  }

  lemma {:induction false} StartLinesAt(queue: seq<string>)
    ensures |StartLines(queue)| == |queue|
    ensures forall k :: 0 <= k < |queue| ==> StartLines(queue)[k] == StartLine(queue[k])
    decreases |queue|
  {
    if queue != [] {
      StartLinesAt(queue[..|queue| - 1]);
    }
  }

  /** The scan logs nothing for an empty queue; otherwise the count, then one start line per queued file. */
  lemma ScanLinesShape(queue: seq<string>)
    ensures ScanLines(queue) == [] <==> queue == []
    ensures queue != [] ==>
      && |ScanLines(queue)| == |queue| + 1
      && ScanLines(queue)[0] == CountLine(|queue|)
      && forall k :: 0 <= k < |queue| ==> ScanLines(queue)[k + 1] == StartLine(queue[k])
  {
    StartLinesAt(queue);
  }

  /** The module-level state of the command-line uploader. */
  class CliMonitor {
    var previousFiles: set<string>
    var isMonitoring: bool
    var fileWatcher: Option<nat>
    /** Console output so far, oldest first. */
    var log: seq<string>

    ghost predicate Valid()
      reads this
    {
      !isMonitoring ==> fileWatcher == None
    }

    /** The state at load time: nothing seen yet, so nothing survives a restart. */
    constructor()
      ensures Valid()
      ensures previousFiles == {} && !isMonitoring && fileWatcher == None && log == []
    {
      previousFiles := {};
      isMonitoring := false;
      fileWatcher := None;
      log := [];
    }

    /**
     * `startMonitoring`: nothing when already monitoring.  Otherwise the flag is
     * set before `fs.watch` is tried, so it stays set when the watch throws.
     * `scanScheduled` says that the initial scan was started.
     */
    method StartMonitoring(watch: WatchOutcome) returns (scanScheduled: bool)
      requires Valid()
      modifies this`isMonitoring, this`fileWatcher, this`log
      ensures Valid() && isMonitoring
      ensures scanScheduled == !old(isMonitoring)
      ensures old(isMonitoring) ==> fileWatcher == old(fileWatcher) && log == old(log)
      ensures !old(isMonitoring) ==>
        && fileWatcher == (if watch.Watching? then Some(watch.handle) else None)
        && log == old(log) + ["Monitoring Started", "Watching folder: " + FolderPath, "Upload URL: " + UploadUrlText]
                           + if watch.WatchThrew? then ["Folder Error: Error watching folder: " + watch.message] else []
    {
      if isMonitoring {
        return false;
      }
      isMonitoring := true;
      log := log + ["Monitoring Started", "Watching folder: " + FolderPath, "Upload URL: " + UploadUrlText];
      scanScheduled := true;
      match watch
      case Watching(handle) =>
        fileWatcher := Some(handle);
      case WatchThrew(message) =>
        log := log + ["Folder Error: Error watching folder: " + message];
    }

    /**
     * `stopMonitoring`: nothing when stopped; otherwise the flag is cleared and
     * the watcher, if any, is closed (returned as `closed`) and forgotten.
     */
    method StopMonitoring() returns (closed: Option<nat>)
      requires Valid()
      modifies this`isMonitoring, this`fileWatcher, this`log
      ensures Valid() && !isMonitoring && fileWatcher == None
      ensures closed == (if old(isMonitoring) then old(fileWatcher) else None)
      ensures log == old(log) + if old(isMonitoring) then ["Monitoring Stopped"] else []
    {
      closed := None;
      if !isMonitoring {
        return;
      }
      isMonitoring := false;
      if fileWatcher.Some? {
        closed := fileWatcher;
        fileWatcher := None;
      }
      log := log + ["Monitoring Stopped"];
    }

    /** The synchronous part of `uploadFile`: log the start. */
    method BeginUpload(file: string)
      modifies this`log
      ensures log == old(log) + [StartLine(file)]
    {
      log := log + [StartLine(file)];
    }

    /**
     * The callbacks of `uploadFile`: a read error is logged and no request is
     * made; otherwise the request is built and the exchange's end logged.
     */
    method CompleteUpload(file: string, read: ReadOutcome, exchange: Exchange) returns (request: Option<HttpRequest>)
      modifies this`log
      ensures request.None? <==> read.ReadError?
      ensures read.ReadOk? ==> request == Some(BuildRequest(CliUploadUrl, CliDefaultPort, file, read.data))
      ensures log == old(log) + CompletionLines(file, read, exchange)
    {
      if read.ReadOk? {
        request := Some(BuildRequest(CliUploadUrl, CliDefaultPort, file, read.data));
      } else {
        request := None;
      }
      ReportCompletion(file, read, exchange);
    }

    /** The logged end of an upload: the read error, or how the exchange ended. */
    method ReportCompletion(file: string, read: ReadOutcome, exchange: Exchange)
      modifies this`log
      ensures log == old(log) + CompletionLines(file, read, exchange)
    {
      match read
      case ReadError(message) =>
        log := log + [ErrorLine("Error reading " + file + ": " + message)];
      case ReadOk(_) =>
        match exchange
        case Response(status, _) =>
          if IsSuccess(status) {
            log := log + [SuccessLine(file)];
          } else {
            log := log + [ErrorLine("Failed to upload " + file + ": " + Decimal(status))];
          }
        case RequestError(message) =>
          log := log + [ErrorLine("Upload error for " + file + ": " + message)];
        case TimedOut =>
    }

    /**
     * `checkForNewFiles`: a `readdir` error is logged and changes nothing.
     * Otherwise the queue is announced and each queued file's upload begun, and
     * `previousFiles` becomes the set of regular files just seen.
     */
    method CheckForNewFiles(listing: Listing) returns (uploads: seq<string>)
      modifies this`previousFiles, this`log
      ensures listing.ReaddirError? ==>
        && uploads == [] && previousFiles == old(previousFiles)
        && log == old(log) + ["Folder Error: Error reading folder: " + listing.message]
      ensures listing.Entries? ==>
        && uploads == Queued(old(previousFiles), listing.entries)
        && previousFiles == Seen(listing.entries)
        && log == old(log) + ScanLines(uploads)
    {
      match listing
      case ReaddirError(message) =>
        log := log + ["Folder Error: Error reading folder: " + message];
        uploads := [];
      case Entries(entries) =>
        var newFiles, currentFiles := Scan(previousFiles, entries);
        if |newFiles| > 0 {
          AnnounceUploads(newFiles);
        }
        previousFiles := currentFiles;
        uploads := newFiles;
    }

    /** The queue's count logged, then each queued file's upload begun in order. */
    method AnnounceUploads(queue: seq<string>)
      requires queue != []
      modifies this`log
      ensures log == old(log) + ScanLines(queue)
    {
      log := log + [CountLine(|queue|)];
      BeginUploads(queue);
    }

    /** Each queued file's upload begun, in queue order. */
    method BeginUploads(queue: seq<string>)
      modifies this`log
      ensures log == old(log) + StartLines(queue)
    {
      var i := 0;
      while i < |queue|
        invariant 0 <= i <= |queue|
        invariant log == old(log) + StartLines(queue[..i])
      {
        StartLinesSnoc(queue, i);
        BeginUpload(queue[i]);
        i := i + 1;
      }
      assert queue[..i] == queue;
    }

    /** `getStatus`. */
    function GetStatus(): (s: Status)
      reads this
      ensures s.isMonitoring == isMonitoring
      ensures s.folderPath == FolderPath && s.uploadUrl == UploadUrlText
    {
      Status(isMonitoring, FolderPath, UploadUrlText)
    }
  }
}
