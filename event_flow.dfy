/**
 * The main process and the window together: what the window's counter of
 * uploads in progress does with the events the main process sends.
 */
module EventFlow {
  import opened Optional
  import opened Events
  import opened UploadRequest
  import opened Renderer
  import opened DesktopMain

  /** How the window's listener shows each upload event kind. */
  lemma UploadKindsDisplay(d: Payload)
    ensures DisplayFor(AppEvent(UploadStart, d)) == Show(FeedItem(UploadStart, d, NoData), None)
    ensures DisplayFor(AppEvent(UploadSuccess, d)) == Show(FeedItem(UploadSuccess, d, NoData), None)
    ensures DisplayFor(AppEvent(UploadError, d)) == Show(FeedItem(UploadError, d, NoData), None)
    ensures DisplayFor(AppEvent(UploadResponse, d)).Ignore?
    ensures DisplayFor(AppEvent(NewFilesDetected, d)) == Show(FeedItem(NewFilesItem, NoData, d), None)
  {
    KindsDistinct();
    var u := 'u';
    assert UploadStart[0] == u && UploadSuccess[0] == u && UploadError[0] == u && UploadResponse[0] == u;
    assert MonitoringStarted[0] == 'm' && MonitoringStopped[0] == 'm' && NewFilesDetected[0] == 'n';
    assert FolderError[0] == 'f';
  }

  /** Handling `a` then `b` is handling `a + b`. */
  lemma {:induction false} CounterAfterEventsAppend(a: seq<AppEvent>, b: seq<AppEvent>, n: int)
    ensures CounterAfterEvents(a + b, n) == CounterAfterEvents(b, CounterAfterEvents(a, n))
    decreases |a|
  {
    if a != [] {
      assert (a + b)[0] == a[0];
      assert (a + b)[1..] == a[1..] + b;
      CounterAfterEventsAppend(a[1..], b, CounterAfterEvent(a[0], n));
    } else {
      assert a + b == b;
    }
  }

  /** The count and the start events of a scan raise the counter by the number of queued files. */
  lemma {:induction false} ScanRaisesCounter(queue: seq<string>, n: int)
    ensures CounterAfterEvents(ScanEvents(queue), n) == n + |queue|
  {
    if queue != [] {
      var head := [AppEvent(NewFilesDetected, Count(|queue|))];
      UploadKindsDisplay(Count(|queue|));
      assert CounterAfterEvents(head, n) == n by {
        assert head[1..] == [];
      }
      CounterAfterEventsAppend(head, StartEvents(queue), n);
      StartsRaiseCounter(queue, n);
    }
  }

  lemma {:induction false} StartsRaiseCounter(queue: seq<string>, n: int)
    ensures CounterAfterEvents(StartEvents(queue), n) == n + |queue|
    decreases |queue|
  {
    if queue != [] {
      var front := queue[..|queue| - 1];
      var last := [StartEvent(queue[|queue| - 1])];
      StartsRaiseCounter(front, n);
      CounterAfterEventsAppend(StartEvents(front), last, n);
      UploadKindsDisplay(StartEvent(queue[|queue| - 1]).data);
      assert last[1..] == [];
    }
  }

  /**
   * Whatever the file read and the exchange did, the events that end an
   * upload take exactly one off a positive counter: every path sends
   * exactly one `upload-success` or `upload-error`, and `upload-response`
   * is not shown.
   */
  lemma CompletionLowersCounter(file: string, read: ReadOutcome, exchange: Exchange, n: int)
    requires n > 0
    ensures CounterAfterEvents(CompletionEvents(file, read, exchange), n) == n - 1
  {
    var ev := CompletionEvents(file, read, exchange);
    UploadKindsDisplay(ev[0].data);
    KindsDistinct();
    assert ev[0].kind == UploadSuccess || ev[0].kind == UploadError;
    assert CounterAfterEvent(ev[0], n) == n - 1;
    assert CounterAfterEvents(ev, n) == CounterAfterEvents(ev[1..], n - 1);
    if |ev| == 2 {
      assert ev[1].kind == UploadResponse;
      UploadKindsDisplay(ev[1].data);
      assert CounterAfterEvent(ev[1], n - 1) == n - 1;
      assert ev[1..][0] == ev[1] && ev[1..][1..] == [];
      assert CounterAfterEvents(ev[1..], n - 1) == CounterAfterEvents([], n - 1);
    } else {
      assert ev[1..] == [];
    }
  }

  /** One upload's events leave the counter where they found it. */
  lemma OneUploadRestoresCounter(file: string, read: ReadOutcome, exchange: Exchange, n: int)
    requires n >= 0
    ensures CounterAfterEvents(UploadEvents(file, read, exchange), n) == n
  {
    var start := [StartEvent(file)];
    CounterAfterEventsAppend(start, CompletionEvents(file, read, exchange), n);
    UploadKindsDisplay(StartEvent(file).data);
    assert start[1..] == [];
    CompletionLowersCounter(file, read, exchange, n + 1);
  }

  /** How one queued file's upload ended: the file read, then the exchange. */
  datatype Outcome = Outcome(read: ReadOutcome, exchange: Exchange)

  /** The completion events of the queued uploads, in queue order. */
  function Completions(queue: seq<string>, outcomes: seq<Outcome>): seq<AppEvent>
    requires |outcomes| == |queue|
    decreases |queue|
  {
    if queue == [] then []
    else CompletionEvents(queue[0], outcomes[0].read, outcomes[0].exchange) + Completions(queue[1..], outcomes[1..])
  }

  lemma {:induction false} CompletionsLowerCounter(queue: seq<string>, outcomes: seq<Outcome>, n: int)
    requires |outcomes| == |queue| && n >= |queue|
    ensures CounterAfterEvents(Completions(queue, outcomes), n) == n - |queue|
    decreases |queue|
  {
    if queue != [] {
      var first := CompletionEvents(queue[0], outcomes[0].read, outcomes[0].exchange);
      CounterAfterEventsAppend(first, Completions(queue[1..], outcomes[1..]), n);
      CompletionLowersCounter(queue[0], outcomes[0].read, outcomes[0].exchange, n);
      CompletionsLowerCounter(queue[1..], outcomes[1..], n - 1);
    }
  }

  /**
   * A scan followed by the end of every upload it started, however each
   * ended, brings the counter back to where it was, so the progress
   * indicator hides again once the counter started at zero.
   */
  lemma ScanRoundTrip(queue: seq<string>, outcomes: seq<Outcome>, n: int)
    requires |outcomes| == |queue| && n >= 0
    ensures CounterAfterEvents(ScanEvents(queue) + Completions(queue, outcomes), n) == n
  {
    CounterAfterEventsAppend(ScanEvents(queue), Completions(queue, outcomes), n);
    ScanRaisesCounter(queue, n);
    CompletionsLowerCounter(queue, outcomes, n + |queue|);
  }
}
