/**
 * The scan step `checkForNewFiles` shares between both front ends, taken as one
 * atomic step over a directory listing: each entry's `stat` outcome is given,
 * and so is whether that outcome arrives after the 100 ms timer has fired.
 * `previousFiles` is only the snapshot of the last scan; upload results are
 * never consulted.
 */
module Scanner {
  import opened Optional

  /** What `fs.stat` reported for one entry. */
  datatype Stat = StatError | RegularFile | OtherKind

  /**
   * One entry of the listing.  `late` marks a stat result that arrives after the
   * 100 ms timer: the entry is then added to the set the timer has already made
   * the new `previousFiles`, and the queue it would have joined is never read again.
   */
  datatype Entry = Entry(name: string, stat: Stat, late: bool)

  /** What `fs.readdir` gave: an error, or the directory's entries. */
  datatype Listing = ReaddirError(message: string) | Entries(entries: seq<Entry>)

  /** An entry the scan queues for upload. */
  predicate IsCandidate(previous: set<string>, e: Entry) {
    e.stat == RegularFile && !e.late && e.name !in previous
  }

  /** The upload queue (`newFiles`) a scan of `entries` builds, in listing order. */
  function Queued(previous: set<string>, entries: seq<Entry>): seq<string>
    decreases |entries|
  {
    if entries == [] then []
    else
      var last := entries[|entries| - 1];
      Queued(previous, entries[..|entries| - 1]) + (if IsCandidate(previous, last) then [last.name] else [])
  }

  /** The names a scan of `entries` records (`currentFiles`): every regular file, late or not. */
  function Seen(entries: seq<Entry>): set<string>
    decreases |entries|
  {
    if entries == [] then {}
    else
      var last := entries[|entries| - 1];
      Seen(entries[..|entries| - 1]) + (if last.stat == RegularFile then {last.name} else {})
  }

  /**
   * The forEach over the listing: each regular file is added to `currentFiles`
   * and, when `previousFiles` does not hold it, pushed onto `newFiles`.
   */
  method Scan(previous: set<string>, entries: seq<Entry>) returns (newFiles: seq<string>, currentFiles: set<string>)
    ensures newFiles == Queued(previous, entries)
    ensures currentFiles == Seen(entries)
  {
    newFiles, currentFiles := [], {};
    var i := 0;
    while i < |entries|
      invariant 0 <= i <= |entries|
      invariant newFiles == Queued(previous, entries[..i])
      invariant currentFiles == Seen(entries[..i])
    {
      var e := entries[i];
      assert entries[..i + 1][..i] == entries[..i];
      if e.stat == RegularFile {
        currentFiles := currentFiles + {e.name};
        if !e.late && e.name !in previous {
          newFiles := newFiles + [e.name];
        }
      }
      i := i + 1;
    }
    assert entries[..|entries|] == entries;
  }

  /** A name is queued exactly when some entry with that name is a regular file, stat'ed in time, not in `previous`. */
  lemma {:induction false} QueuedIff(previous: set<string>, entries: seq<Entry>, name: string)
    ensures name in Queued(previous, entries) <==>
      exists i :: 0 <= i < |entries| && entries[i].name == name && IsCandidate(previous, entries[i])
    decreases |entries|
  {
    if entries != [] {
      var init := entries[..|entries| - 1];
      QueuedIff(previous, init, name);
      assert forall i :: 0 <= i < |init| ==> init[i] == entries[i];
    }
  }

  /** A name is recorded exactly when some entry with that name is a regular file. */
  lemma {:induction false} SeenIff(entries: seq<Entry>, name: string)
    ensures name in Seen(entries) <==>
      exists i :: 0 <= i < |entries| && entries[i].name == name && entries[i].stat == RegularFile
    decreases |entries|
  {
    if entries != [] {
      var init := entries[..|entries| - 1];
      SeenIff(init, name);
      assert forall i :: 0 <= i < |init| ==> init[i] == entries[i];
    }
  }

  predicate DistinctNames(entries: seq<Entry>) {
    forall i, j :: 0 <= i < j < |entries| ==> entries[i].name != entries[j].name
  }

  predicate NoDuplicates(s: seq<string>) {
    forall i, j :: 0 <= i < j < |s| ==> s[i] != s[j]
  }

  /** A directory lists each name once, so each name is queued at most once per scan. */
  lemma {:induction false} QueuedNoDuplicates(previous: set<string>, entries: seq<Entry>)
    requires DistinctNames(entries)
    ensures NoDuplicates(Queued(previous, entries))
    decreases |entries|
  {
    if entries != [] {
      var init := entries[..|entries| - 1];
      var last := entries[|entries| - 1];
      QueuedNoDuplicates(previous, init);
      if IsCandidate(previous, last) {
        var q := Queued(previous, init);
        forall k | 0 <= k < |q|
          ensures q[k] != last.name
        {
          QueuedIff(previous, init, q[k]);
        }
      }
    }
  }

  /** Every queued name is one the scan also records, and was not recorded before. */
  lemma QueuedWithinSeen(previous: set<string>, entries: seq<Entry>, name: string)
    requires name in Queued(previous, entries)
    ensures name in Seen(entries) && name !in previous
  {
    QueuedIff(previous, entries, name);
    SeenIff(entries, name);
  }

  /** Result of one scan: the names handed to `uploadFile`, and the new `previousFiles`. */
  datatype ScanResult = ScanResult(uploads: seq<string>, previous: set<string>)

  /**
   * One whole scan: a `readdir` error changes nothing and uploads nothing;
   * otherwise the queue is uploaded and `previousFiles` becomes what was seen.
   */
  function Step(previous: set<string>, listing: Listing): (r: ScanResult)
    ensures listing.ReaddirError? ==> r.uploads == [] && r.previous == previous
    ensures listing.Entries? ==>
      forall k :: 0 <= k < |r.uploads| ==> r.uploads[k] in r.previous && r.uploads[k] !in previous
  {
    match listing
    case ReaddirError(_) => ScanResult([], previous)
    case Entries(entries) =>
      var q := Queued(previous, entries);
      assert forall k :: 0 <= k < |q| ==> q[k] in Seen(entries) && q[k] !in previous by {
        forall k | 0 <= k < |q|
          ensures q[k] in Seen(entries) && q[k] !in previous
        {
          QueuedWithinSeen(previous, entries, q[k]);
        }
      }
      ScanResult(q, Seen(entries))
  }

  /** A run of scans from `previous`: the uploads of each scan, in order. */
  function Run(previous: set<string>, listings: seq<Listing>): seq<seq<string>>
    decreases |listings|
  {
    if listings == [] then []
    else
      var r := Step(previous, listings[0]);
      [r.uploads] + Run(r.previous, listings[1..])
  }

  /** `listing` shows `name` as a regular file (or failed as a whole). */
  predicate KeepsFile(listing: Listing, name: string) {
    listing.Entries? ==>
      exists i :: 0 <= i < |listing.entries| && listing.entries[i].name == name && listing.entries[i].stat == RegularFile
  }

  /**
   * Once a scan has recorded a name, no later scan uploads it for as long as it
   * stays in the directory, whatever became of its upload: a failed upload is
   * not retried, and a file whose stat came in late is never uploaded.
   */
  lemma {:induction false} NoUploadWhileKept(previous: set<string>, listings: seq<Listing>, name: string)
    requires name in previous
    requires forall k :: 0 <= k < |listings| ==> KeepsFile(listings[k], name)
    ensures forall k :: 0 <= k < |Run(previous, listings)| ==> name !in Run(previous, listings)[k]
    decreases |listings|
  {
    if listings != [] {
      var r := Step(previous, listings[0]);
      if listings[0].Entries? {
        var es := listings[0].entries;
        QueuedIff(previous, es, name);
        SeenIff(es, name);
      }
      NoUploadWhileKept(r.previous, listings[1..], name);
      var rest := Run(r.previous, listings[1..]);
      assert Run(previous, listings) == [r.uploads] + rest;
    }
  }

  /**
   * A file is uploaded again when it disappears (or is not a regular file) in
   * one scan and is back, stat'ed in time, in the next: the snapshot has forgotten it.
   */
  lemma ReappearingFileIsUploaded(previous: set<string>, gone: seq<Entry>, back: seq<Entry>, name: string, i: nat)
    requires forall j :: 0 <= j < |gone| ==> gone[j].name == name ==> gone[j].stat != RegularFile
    requires i < |back| && back[i] == Entry(name, RegularFile, false)
    ensures name in Step(Step(previous, Entries(gone)).previous, Entries(back)).uploads
  {
    SeenIff(gone, name);
    QueuedIff(Seen(gone), back, name);
  }

  /**
   * The snapshot starts empty, so the first scan (after a restart as much as at
   * first start) uploads every regular file whose stat arrives in time.
   */
  lemma FirstScanUploadsAll(entries: seq<Entry>, i: nat)
    requires i < |entries| && entries[i].stat == RegularFile && !entries[i].late
    ensures entries[i].name in Step({}, Entries(entries)).uploads
  {
    QueuedIff({}, entries, entries[i].name);
  }

  /** A regular file whose stat arrives after the timer is recorded but not uploaded in that scan. */
  lemma LateFileRecordedNotUploaded(previous: set<string>, entries: seq<Entry>, i: nat)
    requires i < |entries| && entries[i].stat == RegularFile && entries[i].late
    requires DistinctNames(entries)
    ensures var r := Step(previous, Entries(entries));
      entries[i].name in r.previous && entries[i].name !in r.uploads
  {
    QueuedIff(previous, entries, entries[i].name);
    SeenIff(entries, entries[i].name);
  }

  /** What `fs.watch` did when monitoring started: returned a watcher (named by a handle), or threw. */
  datatype WatchOutcome = Watching(handle: nat) | WatchThrew(message: string)

  /** Filesystem watch events: only a `rename` event that names a file schedules a rescan (after 500 ms). */
  function TriggersRescan(eventType: string, filename: Option<string>): (r: bool)
    ensures r ==> filename.Some? && filename.value != []
    ensures eventType != "rename" ==> !r
    ensures eventType == "rename" && filename.Some? && filename.value != [] ==> r
  {
    eventType == "rename" && filename.Some? && filename.value != []
  }

  /** The delay before a watch-triggered rescan, and the settle time before a scan's uploads start, in milliseconds. */
  const RescanDelayMs: nat := 500
  const ScanSettleMs: nat := 100
}
