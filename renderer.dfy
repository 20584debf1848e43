/**
 * The window's script: the count of uploads in progress, the activity feed
 * (newest last, at most 50 entries), the start/stop button states, the table
 * that turns `app-event` messages into feed entries, and the guards of the
 * clear-feed and change-server buttons.  Only the state is modelled, not the DOM.
 */
module Renderer {
  import opened Optional
  import opened Events

  const MaxFeedItems: nat := 50

  /** Feed entry kind for `new-files-detected` events. */
  const NewFilesItem := "new-files"

  /** One feed entry: its kind (its CSS class), its message and its extra data. */
  datatype FeedItem = FeedItem(kind: string, message: Payload, data: Payload)

  /**
   * `uploadsInProgress` after a feed entry of `kind`: one more for `upload-start`,
   * one fewer but never below zero for `upload-success` and `upload-error`.
   */
  function CounterAfter(kind: string, n: int): (r: int)
    ensures kind == UploadStart ==> r == n + 1
    ensures (kind == UploadSuccess || kind == UploadError) ==> r >= 0 && (n > 0 ==> r == n - 1)
    ensures (kind == UploadSuccess || kind == UploadError) && n <= 0 ==> r == 0
    ensures kind != UploadStart && kind != UploadSuccess && kind != UploadError ==> r == n
  {
    if kind == UploadStart then n + 1
    else if kind == UploadSuccess || kind == UploadError then (if 0 > n - 1 then 0 else n - 1)
    else n
  }

  /** The feed after the trimming loop: the newest `MaxFeedItems` entries. */
  function Trimmed(items: seq<FeedItem>): seq<FeedItem> {
    if |items| <= MaxFeedItems then items else items[|items| - MaxFeedItems..]
  }

  /**
   * Adding an entry keeps at most 50 entries, the new one last; entries leave
   * from the front, oldest first, and none is dropped while there is room.
   */
  lemma AddedFeed(feed: seq<FeedItem>, item: FeedItem)
    ensures var r := Trimmed(feed + [item]);
      && |r| == (if |feed| < MaxFeedItems then |feed| + 1 else MaxFeedItems)
      && r[|r| - 1] == item
      && r[..|r| - 1] == feed[|feed| + 1 - |r|..]
  {
  }

  /** What the `app-event` listener does with an event: ignore it, or add a feed entry (and perhaps set the status). */
  datatype Display = Ignore | Show(item: FeedItem, setMonitoring: Option<bool>)

  /** The `app-event` dispatch table. */
  function DisplayFor(e: AppEvent): (d: Display)
    ensures d.Ignore? <==>
      e.kind !in {MonitoringStarted, MonitoringStopped, NewFilesDetected, UploadStart, UploadSuccess, UploadError, FolderError}
    ensures d.Show? ==> (d.setMonitoring == Some(true) <==> e.kind == MonitoringStarted)
    ensures d.Show? ==> (d.setMonitoring == Some(false) <==> e.kind == MonitoringStopped)
    ensures d.Show? ==> d.item.kind in {MonitoringStarted, MonitoringStopped, NewFilesItem, UploadStart, UploadSuccess, UploadError}
  {
    KindsDistinct();
    if e.kind == MonitoringStarted then Show(FeedItem(MonitoringStarted, NoData, NoData), Some(true))
    else if e.kind == MonitoringStopped then Show(FeedItem(MonitoringStopped, NoData, NoData), Some(false))
    else if e.kind == NewFilesDetected then Show(FeedItem(NewFilesItem, NoData, e.data), None)
    else if e.kind == UploadStart || e.kind == UploadSuccess || e.kind == UploadError then
      Show(FeedItem(e.kind, e.data, NoData), None)
    else if e.kind == FolderError then Show(FeedItem(UploadError, e.data, NoData), None)
    else Ignore
  }

  /** The counter after the listener has handled `e`. */
  function CounterAfterEvent(e: AppEvent, n: int): int {
    match DisplayFor(e)
    case Ignore => n
    case Show(item, _) => CounterAfter(item.kind, n)
  }

  /** The counter after the listener has handled `events`, in order. */
  function CounterAfterEvents(events: seq<AppEvent>, n: int): int
    decreases |events|
  {
    if events == [] then n else CounterAfterEvents(events[1..], CounterAfterEvent(events[0], n))
  }

  /**
   * A folder error is shown as an upload error, so it too takes one off the
   * counter; `upload-response` and unknown types change nothing.
   */
  lemma DispatchQuirks(data: Payload, n: int, other: AppEvent)
    requires n > 0
    requires other.kind !in {MonitoringStarted, MonitoringStopped, NewFilesDetected, UploadStart, UploadSuccess, UploadError, FolderError}
    ensures DisplayFor(AppEvent(FolderError, data)) == Show(FeedItem(UploadError, data, NoData), None)
    ensures CounterAfterEvent(AppEvent(FolderError, data), n) == n - 1
    ensures DisplayFor(AppEvent(UploadResponse, data)) == Ignore
    ensures DisplayFor(other) == Ignore
  {
    KindsDistinct();
    assert UploadResponse != MonitoringStarted && UploadResponse != MonitoringStopped && UploadResponse != NewFilesDetected by {
      assert UploadResponse[0] == 'u' && MonitoringStarted[0] == 'm' && MonitoringStopped[0] == 'm' && NewFilesDetected[0] == 'n';
    }
    assert FolderError != MonitoringStarted && FolderError != MonitoringStopped && FolderError != NewFilesDetected by {
      assert FolderError[0] == 'f';
    }
  }

  /** How many of `events` the listener counts as an upload starting, less those it counts as one ending. */
  function Outstanding(events: seq<AppEvent>): int
    decreases |events|
  {
    if events == [] then 0
    else
      var delta := match DisplayFor(events[0])
        case Ignore => 0
        case Show(item, _) => if item.kind == UploadStart then 1
                              else if item.kind == UploadSuccess || item.kind == UploadError then -1
                              else 0;
      delta + Outstanding(events[1..])
  }

  /**
   * As long as no prefix of `events` ends more uploads than `n` plus those it
   * started, the clamp never bites and the counter is exactly `n` plus the
   * uploads started and not yet ended.
   */
  lemma {:induction false} CounterIsOutstanding(events: seq<AppEvent>, n: int)
    requires n >= 0
    requires forall j :: 0 <= j <= |events| ==> n + Outstanding(events[..j]) >= 0
    ensures CounterAfterEvents(events, n) == n + Outstanding(events)
    decreases |events|
  {
    if events != [] {
      var n' := CounterAfterEvent(events[0], n);
      assert events[..1] == [events[0]];
      assert Outstanding([events[0]]) == n' - n by {
        assert [events[0]][1..] == [];
      }
      forall j | 0 <= j <= |events[1..]|
        ensures n' + Outstanding(events[1..][..j]) >= 0
      {
        OutstandingSplit(events, j + 1);
        assert events[..j + 1][1..] == events[1..][..j];
      }
      CounterIsOutstanding(events[1..], n');
    }
  }

  lemma OutstandingSplit(events: seq<AppEvent>, j: nat)
    requires 1 <= j <= |events|
    ensures Outstanding(events[..j]) == Outstanding([events[0]]) + Outstanding(events[..j][1..])
  {
    assert [events[0]][1..] == [];
    assert events[..j][0] == events[0];
  }

  /** A change of server URL is sent on only for a non-empty answer that differs from the current URL. */
  function ShouldChangeServer(answer: Option<string>, current: string): (send: bool)
    ensures send ==> answer.Some? && answer.value != [] && answer.value != current
    ensures !send ==> answer == None || answer == Some([]) || answer == Some(current)
  {
    match answer
    case None => false
    case Some(url) => url != [] && url != current
  }

  /** The renderer's state. */
  class Renderer {
    var isMonitoring: bool
    var uploadsInProgress: int
    /** Whether the progress element is shown (`display: block`). */
    var progressVisible: bool
    var startDisabled: bool
    var stopDisabled: bool
    var feed: seq<FeedItem>
    var folderPathText: string
    var uploadUrlText: string

    ghost predicate Valid()
      reads this
    {
      && uploadsInProgress >= 0
      && |feed| <= MaxFeedItems
      && startDisabled == isMonitoring && stopDisabled == !isMonitoring
    }

    /** The state after `init`, given what `get-status` answered. */
    constructor(monitoring: bool, folderPath: string, uploadUrl: string)
      ensures Valid()
      ensures isMonitoring == monitoring && uploadsInProgress == 0 && !progressVisible && feed == []
      ensures folderPathText == folderPath && uploadUrlText == uploadUrl
    {
      isMonitoring := monitoring;
      uploadsInProgress := 0;
      progressVisible := false;
      startDisabled := monitoring;
      stopDisabled := !monitoring;
      feed := [];
      folderPathText := folderPath;
      uploadUrlText := uploadUrl;
    }

    /** `updateMonitoringStatus`: record the flag; start is disabled exactly while monitoring, stop exactly while not. */
    method UpdateMonitoringStatus(monitoring: bool)
      modifies this`isMonitoring, this`startDisabled, this`stopDisabled
      ensures isMonitoring == monitoring && startDisabled == monitoring && stopDisabled == !monitoring
    {
      isMonitoring := monitoring;
      if monitoring {
        startDisabled := true;
        stopDisabled := false;
      } else {
        startDisabled := false;
        stopDisabled := true;
      }
    }

    /** `updateUploadProgress`: show the progress element exactly while uploads are in progress. */
    method UpdateUploadProgress()
      modifies this`progressVisible
      ensures progressVisible == (uploadsInProgress > 0)
    {
      if uploadsInProgress > 0 {
        progressVisible := true;
      } else {
        progressVisible := false;
      }
    }

    /**
     * `addActivityItem`: adjust the counter, append the entry, refresh the
     * progress element, then drop entries from the front until 50 are left.
     */
    method AddActivityItem(kind: string, message: Payload, data: Payload)
      requires Valid()
      modifies this`uploadsInProgress, this`feed, this`progressVisible
      ensures Valid()
      ensures uploadsInProgress == CounterAfter(kind, old(uploadsInProgress))
      ensures feed == Trimmed(old(feed) + [FeedItem(kind, message, data)])
      ensures progressVisible == (uploadsInProgress > 0)
    {
      if kind == UploadStart {
        uploadsInProgress := uploadsInProgress + 1;
      } else if kind == UploadSuccess || kind == UploadError {
        uploadsInProgress := if 0 > uploadsInProgress - 1 then 0 else uploadsInProgress - 1;
      }
      feed := feed + [FeedItem(kind, message, data)];
      UpdateUploadProgress();
      TrimFeed();
    }

    /** The trimming loop of `addActivityItem`: drop the oldest entry while more than 50 are shown. */
    method TrimFeed()
      modifies this`feed
      ensures feed == Trimmed(old(feed))
    {
      while |feed| > MaxFeedItems
        invariant |feed| <= |old(feed)| && feed == old(feed)[|old(feed)| - |feed|..]
        invariant |feed| >= (if |old(feed)| > MaxFeedItems then MaxFeedItems else |old(feed)|)
        decreases |feed|
      {
        feed := feed[1..];
      }
    }

    /** The `app-event` listener. */
    method OnAppEvent(e: AppEvent)
      requires Valid()
      modifies this`isMonitoring, this`startDisabled, this`stopDisabled, this`uploadsInProgress, this`feed, this`progressVisible
      ensures Valid()
      ensures DisplayFor(e).Ignore? ==>
        && isMonitoring == old(isMonitoring) && uploadsInProgress == old(uploadsInProgress)
        && feed == old(feed) && progressVisible == old(progressVisible)
      ensures DisplayFor(e).Show? ==>
        && uploadsInProgress == CounterAfterEvent(e, old(uploadsInProgress))
        && feed == Trimmed(old(feed) + [DisplayFor(e).item])
        && progressVisible == (uploadsInProgress > 0)
        && isMonitoring == (if DisplayFor(e).setMonitoring.Some? then DisplayFor(e).setMonitoring.value else old(isMonitoring))
    {
      match DisplayFor(e)
      case Ignore =>
      case Show(item, setMonitoring) =>
        if setMonitoring.Some? {
          UpdateMonitoringStatus(setMonitoring.value);
        }
        AddActivityItem(item.kind, item.message, item.data);
    }

    /** The clear-feed button empties the feed and leaves the counter alone. */
    method ClearFeed()
      requires Valid()
      modifies this`feed
      ensures Valid() && feed == []
    {
      feed := [];
    }

    /** The start button, once the backend has answered: show monitoring as active. */
    method StartClicked()
      requires Valid()
      modifies this`isMonitoring, this`startDisabled, this`stopDisabled
      ensures Valid() && isMonitoring && startDisabled && !stopDisabled
    {
      UpdateMonitoringStatus(true);
    }

    /** The stop button, once the backend has answered: show monitoring as stopped. */
    method StopClicked()
      requires Valid()
      modifies this`isMonitoring, this`startDisabled, this`stopDisabled
      ensures Valid() && !isMonitoring && !startDisabled && stopDisabled
    {
      UpdateMonitoringStatus(false);
    }

    /** The change-server button: whether the answer to the prompt is sent to the backend. */
    method ChangeServerClicked(answer: Option<string>) returns (send: bool)
      ensures send == ShouldChangeServer(answer, uploadUrlText)
    {
      var current := uploadUrlText;
      send := answer.Some? && answer.value != [] && answer.value != current;
    }
  }
}
