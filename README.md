# Minecraft screenshot uploader: a Dafny model

The repository watches a screenshot folder and uploads every new image to a remote
endpoint. A command-line version does this over HTTP and logs to the console. An Electron
version does it over HTTPS and sends each step to its window as an `app-event`. The window
keeps a counter of uploads in progress and an activity feed of at most 50 entries. A small
script builds a fixed 32x32 `.ico` file byte by byte.

The model has these modules:

- `Bytes` (common.dfy) holds the `byte` type and the little-endian fields that Node's
  `writeUInt16LE`/`writeUInt32LE` store. `Optional` (same file) holds `Option`.
- `Base64` (base64.dfy) is `Buffer.toString('base64')`, the encoding of section 4 of
  RFC 4648: standard alphabet, `=` padding. It comes with a decoder and the proved round trip.
- `Json` (json.dfy) is `JSON.stringify` of a string value and `Buffer.byteLength`, the
  UTF-8 length.
- `UploadRequest` (upload_request.dfy) builds what `uploadFile` sends:
  - `path.extname` and the MIME table;
  - the data URL and the JSON body with its Content-Length;
  - host, port and path from the parsed upload URL;
  - the 2xx test.
- `Scanner` (scanner.dfy) is the scan of `checkForNewFiles` as one step over a directory
  listing. The scan loop is a method proved against the functions `Queued` and `Seen`.
- `Events` (events.dfy) holds the `app-event` kinds and payloads, and the decimal text of
  a status code.
- `CliMonitor` (cli_monitor.dfy) is mcXyzLocal.js. A class holds `previousFiles`,
  `isMonitoring`, `fileWatcher` and the console log.
- `DesktopMain` (desktop_main.dfy) is electron-app/main.js. A class holds the same state
  plus the events sent to the window, and has the IPC handlers.
- `Renderer` (renderer.dfy) is electron-app/renderer.js. A class holds the flag, the
  counter, the button and progress state and the feed.
- `EventFlow` (event_flow.dfy) follows the main process's events through the window's
  listener.
- `Icon` (icon.dfy) is `createSimpleICO`, written with arrays as create-icon.js writes its buffers.

How the model treats time, I/O and concurrency:

- Asynchronous work becomes parameters:
  - what `readdir` and each `stat` returned;
  - whether `fs.watch` threw;
  - what `readFile` returned;
  - how the HTTP exchange ended: a response with status and body, a request error, or a
    timeout.
- One scan is one atomic step. Each entry carries its stat outcome. A `late` flag marks a
  stat result that arrives after the 100 ms timer.
- An upload is two calls:
  - `BeginUpload` is the synchronous start.
  - `CompleteUpload` is the read and HTTP callbacks.

  So a scan sends its count, then every upload's start in queue order, as mcXyzLocal.js and main.js do.
- Whether a window exists is fixed when `DesktopMain` is constructed.

## Model

| member | source | states |
|---|---|---|
| Bytes.LE16 | electron-app/create-icon.js:10-12 | `writeUInt16LE` stores two bytes, low byte first, and reading them back little-endian gives the value |
| Bytes.LE32 | electron-app/create-icon.js:22-23 | `writeUInt32LE` stores four bytes, low half first, and reading them back gives the value |
| Base64.CharOf | mcXyzLocal.js:34 | every 6-bit value maps to a character of the base64 alphabet |
| Base64.ValueOf | mcXyzLocal.js:34 | every alphabet character comes from exactly one 6-bit value |
| Base64.ValueOfCharOf | mcXyzLocal.js:34 | mapping a 6-bit value to its character and back gives the value |
| Base64.Encode | mcXyzLocal.js:34 | the encoding of n bytes has length 4·⌈n/3⌉ and uses only alphabet characters and `=` |
| Base64.TripleRoundTrip | mcXyzLocal.js:34 | a full group of three bytes decodes back from its four characters |
| Base64.SingleRoundTrip | mcXyzLocal.js:34 | a final single byte, padded with `==`, decodes back |
| Base64.PairRoundTrip | mcXyzLocal.js:34 | a final pair of bytes, padded with `=`, decodes back |
| Base64.LastGroupRoundTrip | mcXyzLocal.js:34 | a final full group carries no padding and decodes back |
| Base64.DecodeEncode | mcXyzLocal.js:34 | decoding the base64 of any byte string gives that byte string back |
| Json.EscapeChar | mcXyzLocal.js:39 | `JSON.stringify` leaves a character as it is exactly when it is not `"`, not `\` and not a control character |
| Json.EscapePlain | mcXyzLocal.js:39 | a string with nothing to escape is quoted unchanged |
| Json.Utf8Width | mcXyzLocal.js:49 | a character takes 1 to 4 UTF-8 bytes, and exactly 1 when it is ASCII |
| Json.Utf8Length | mcXyzLocal.js:49 | `Buffer.byteLength` of a string lies between its length and four times its length |
| Json.Utf8LengthAscii | mcXyzLocal.js:49 | an ASCII string's byte length is its character count |
| Json.Utf8LengthNonAscii | mcXyzLocal.js:49 | one non-ASCII character makes the byte length exceed the character count |
| UploadRequest.LastDot | mcXyzLocal.js:26 | the last `.` of a name, or none: no dot follows it |
| UploadRequest.Extname | mcXyzLocal.js:26 | `path.extname`: empty exactly for `..` or a name with no dot after its first character; otherwise a proper suffix of the name that starts with its last dot |
| UploadRequest.MimeForExtension | mcXyzLocal.js:27-30 | `.jpg` and `.jpeg` and nothing else give `image/jpeg`, `.gif` gives `image/gif`, `.webp` gives `image/webp`, and every other extension gives `image/png` |
| UploadRequest.MimeType | mcXyzLocal.js:26-30 | the MIME type is always one of `image/jpeg`, `image/gif`, `image/webp`, `image/png` |
| UploadRequest.MimeTypeOfExtension | mcXyzLocal.js:26-30 | for a name `stem.e`, `.jpg`/`.jpeg` give `image/jpeg`, `.gif` gives `image/gif`, `.webp` gives `image/webp`, anything else gives `image/png`, all after lower-casing `e` |
| UploadRequest.MimeTypeWithoutExtension | mcXyzLocal.js:26-27 | a name with no dot, or whose only dot is its first character, is `image/png` |
| UploadRequest.MimeTypeIgnoresCase | electron-app/main.js:49-53 | names that agree once lower-cased get the same MIME type |
| UploadRequest.DataUrl | mcXyzLocal.js:34 | the data URL starts with `data:<mime>;base64,` |
| UploadRequest.JsonBody | mcXyzLocal.js:33-36 | `JSON.stringify` of the body: image data with nothing to escape appears unchanged between `{"imageData":"` and `","autoadd":1}` |
| UploadRequest.DataUrlDecodes | mcXyzLocal.js:34 | what follows the data URL's prefix decodes back to exactly the file's bytes |
| UploadRequest.Base64IsPlainAscii | mcXyzLocal.js:34 | base64 text is ASCII and needs no JSON escaping |
| UploadRequest.DataUrlIsPlainAscii | mcXyzLocal.js:33-36 | the whole data URL needs no JSON escaping |
| UploadRequest.BodyIsPlainAscii | mcXyzLocal.js:39 | with nothing to escape, the body is `{"imageData":"` + data URL + `","autoadd":1}`, all ASCII |
| UploadRequest.BodyLayout | mcXyzLocal.js:33-39 | the body is exactly `{"imageData":"data:<mime>;base64,<b64>","autoadd":1}`, and its byte length equals its character count, 41 + \|mime\| + 4·⌈n/3⌉ |
| UploadRequest.MimeIsPlainAscii | mcXyzLocal.js:27-30 | the four MIME types need no escaping |
| UploadRequest.PathPrefix | mcXyzLocal.js:45 | the request path is the URL's path: a prefix of what follows the host, cut at the first `?` or `#` |
| UploadRequest.Pathname | mcXyzLocal.js:45 | `pathname` is never empty and holds no `?` or `#`; it is the longest such prefix of what follows the host, or `/` when that prefix is empty |
| UploadRequest.IsSuccess | mcXyzLocal.js:61 | an upload is accepted exactly when 200 <= status < 300 |
| UploadRequest.BuildRequest | mcXyzLocal.js:38-51 | the request is a `POST` of `application/json` to the URL's host; the URL's own port if it has one, else the default; the body is the exact JSON body; the path is the URL's path cut at the first `?` or `#`, or `/` when that is empty; Content-Length is the body's length |
| UploadRequest.CliRequestTarget | mcXyzLocal.js:44 | the command-line version posts to `flowflowxyz.niva.monster`, port 80, path `/upload` |
| UploadRequest.DesktopRequestTarget | electron-app/main.js:60-66 | the desktop version posts to the same host on port 443, path `/upload` |
| Scanner.Scan | mcXyzLocal.js:87-105 | the scan loop produces exactly the queue `Queued` and the set `Seen` of the listing |
| Scanner.QueuedIff | mcXyzLocal.js:93-102 | a name is queued iff some entry with that name has a successful on-time stat, is a regular file, and is not in `previousFiles` |
| Scanner.SeenIff | mcXyzLocal.js:96-97 | a name is recorded iff some entry with that name stats as a regular file, on time or late |
| Scanner.QueuedNoDuplicates | mcXyzLocal.js:90-105 | a listing of distinct names queues each name at most once |
| Scanner.QueuedWithinSeen | mcXyzLocal.js:97-101 | every queued name is recorded and was not in `previousFiles` |
| Scanner.Step | mcXyzLocal.js:80-117 | a `readdir` error uploads nothing and keeps `previousFiles`; otherwise every uploaded name is in the new `previousFiles` and was not in the old one |
| Scanner.NoUploadWhileKept | mcXyzLocal.js:97-114 | a recorded file that stays a regular file in every later listing, or whose listing fails, is never uploaded again, whatever its upload's outcome |
| Scanner.ReappearingFileIsUploaded | mcXyzLocal.js:97-114 | a file missing from one scan and back in the next is uploaded again |
| Scanner.FirstScanUploadsAll | mcXyzLocal.js:11 | with the empty starting set, every on-time regular file of the first scan is uploaded |
| Scanner.LateFileRecordedNotUploaded | mcXyzLocal.js:107-115 | a stat that completes after the timer records the file in `previousFiles` without queuing it |
| Scanner.TriggersRescan | mcXyzLocal.js:132-136 | a watch event starts a rescan if and only if it is a `rename` with a non-empty file name |
| Events.KindsDistinct | electron-app/main.js:40-173 | the event kinds are distinct strings |
| Events.Decimal | electron-app/main.js:86 | a status code is written as non-empty decimal digits with no leading zero |
| Events.DecimalRoundTrip | electron-app/main.js:86 | the digits written for a status code read back as that status code |
| CliMonitor.CompletionLinesOutcome | mcXyzLocal.js:19-77 | after its start line, an upload logs at most one more line; it logs none only on timeout, and a success line exactly when the file was read and the status was 2xx |
| CliMonitor.StartLinesAt | mcXyzLocal.js:110-112 | a start line per queued file, in queue order |
| CliMonitor.ScanLinesShape | mcXyzLocal.js:107-113 | a scan logs nothing for an empty queue; otherwise the count line, then one start line per queued file |
| CliMonitor.CliMonitor.constructor | mcXyzLocal.js:11-13 | the uploader starts stopped, with no watcher and an empty `previousFiles` |
| CliMonitor.CliMonitor.StartMonitoring | mcXyzLocal.js:119-141 | nothing happens while monitoring; otherwise the flag is set before the watch is tried and stays set if it throws; the three start lines are logged and an initial scan is scheduled |
| CliMonitor.CliMonitor.StopMonitoring | mcXyzLocal.js:143-152 | nothing happens while stopped; otherwise the flag is cleared, the watcher is closed and dropped, and `Monitoring Stopped` is logged |
| CliMonitor.CliMonitor.BeginUpload | mcXyzLocal.js:16 | an upload first logs its start line |
| CliMonitor.CliMonitor.CompleteUpload | mcXyzLocal.js:19-77 | a read error logs and sends nothing; otherwise the request is built and its end logged |
| CliMonitor.CliMonitor.ReportCompletion | mcXyzLocal.js:19-72 | the line logged for each way an upload can end |
| CliMonitor.CliMonitor.CheckForNewFiles | mcXyzLocal.js:80-117 | a `readdir` error logs and changes nothing; otherwise the queue is exactly `Queued`, `previousFiles` becomes `Seen`, and the count and start lines are logged |
| CliMonitor.CliMonitor.AnnounceUploads | mcXyzLocal.js:108-113 | the count line, then one upload begun per queued file, in order |
| CliMonitor.CliMonitor.BeginUploads | mcXyzLocal.js:110-112 | one start line per queued file, in queue order |
| CliMonitor.CliMonitor.GetStatus | mcXyzLocal.js:154-160 | the status reports the flag, the folder and the upload URL |
| DesktopMain.UploadEventsOutcome | electron-app/main.js:39-103 | `upload-start` comes first and once; then exactly one `upload-success` or `upload-error`; success exactly when the file was read and the status was 2xx, and then the events after the start are `upload-success`, `upload-response` |
| DesktopMain.ReadErrorEvents | electron-app/main.js:42-46 | a read error gives the start and then exactly one `upload-error`, which names the file and the read error |
| DesktopMain.RejectedEvents | electron-app/main.js:85-87 | a non-2xx status gives one `upload-error` carrying the status and the response body |
| DesktopMain.TimeoutEvents | electron-app/main.js:95-98 | a timeout gives one `upload-error` naming the file |
| DesktopMain.StartEventsAt | electron-app/main.js:134-136 | an `upload-start` per queued file, in queue order |
| DesktopMain.ScanEventsShape | electron-app/main.js:131-137 | `new-files-detected` is sent only for a non-empty queue, carries its length, and is followed by one `upload-start` per queued file |
| DesktopMain.CountKindAppend | electron-app/main.js:131-137 | counting events of one kind adds up over concatenation |
| DesktopMain.StartEventsCount | electron-app/main.js:134-136 | a scan sends exactly one `upload-start` per queued file |
| DesktopMain.DesktopMain.constructor | electron-app/main.js:11-15 | the process starts stopped, with no watcher, an empty `previousFiles` and nothing sent |
| DesktopMain.DesktopMain.SendToRenderer | electron-app/main.js:176-180 | with a window, one event with its type and data is sent; without one, nothing |
| DesktopMain.DesktopMain.StartMonitoring | electron-app/main.js:143-163 | nothing happens while monitoring; otherwise the flag is set before the watch is tried and stays set if it throws; `monitoring-started` is sent, then `folder-error` if the watch threw |
| DesktopMain.DesktopMain.StopMonitoring | electron-app/main.js:165-174 | nothing happens while stopped; otherwise the flag is cleared, the watcher is closed and dropped, and `monitoring-stopped` is sent |
| DesktopMain.DesktopMain.BeginUpload | electron-app/main.js:40 | an upload first sends `upload-start` |
| DesktopMain.DesktopMain.CompleteUpload | electron-app/main.js:42-102 | a request exactly when the file was read, built for port 443; the completion events are sent |
| DesktopMain.DesktopMain.ReportCompletion | electron-app/main.js:43-98 | the events sent for each way an upload can end |
| DesktopMain.DesktopMain.CheckForNewFiles | electron-app/main.js:105-141 | a `readdir` error sends `folder-error` and changes nothing; otherwise the queue is exactly `Queued`, `previousFiles` becomes `Seen`, and the scan's events are sent |
| DesktopMain.DesktopMain.AnnounceUploads | electron-app/main.js:132-137 | `new-files-detected` with the count, then one upload begun per queued file, in order |
| DesktopMain.DesktopMain.BeginUploads | electron-app/main.js:134-136 | one `upload-start` per queued file, in queue order |
| DesktopMain.DesktopMain.HandleStartMonitoring | electron-app/main.js:183-186 | the `start-monitoring` handler always answers true; the watcher and the events sent are exactly those of `StartMonitoring` |
| DesktopMain.DesktopMain.HandleStopMonitoring | electron-app/main.js:188-191 | the `stop-monitoring` handler always answers false; the watcher is forgotten and `monitoring-stopped` is sent exactly when it was monitoring |
| DesktopMain.DesktopMain.GetStatus | electron-app/main.js:193-199 | `get-status` reports the flag, the folder and the upload URL |
| Renderer.CounterAfter | electron-app/renderer.js:69-80 | the counter goes up by one on `upload-start`; on `upload-success` and `upload-error` it goes down by one, and from zero or below it becomes zero; other kinds leave it alone |
| Renderer.AddedFeed | electron-app/renderer.js:92-100 | after an addition the feed has at most 50 entries, the new one last; the oldest leave first, and none leave while there is room |
| Renderer.DisplayFor | electron-app/renderer.js:142-168 | an event is ignored exactly when its kind is none of the seven the switch names; only `monitoring-started` and `monitoring-stopped` set the status, to true and false; every entry shown has one of the six entry kinds |
| Renderer.DispatchQuirks | electron-app/renderer.js:142-168 | `folder-error` is shown as `upload-error` and so lowers the counter; `upload-response` and unknown types are ignored |
| Renderer.CounterIsOutstanding | electron-app/renderer.js:71-79 | while no prefix of the events ends more uploads than were started, the counter is the starting value plus starts minus ends |
| Renderer.ShouldChangeServer | electron-app/renderer.js:127-131 | a new server URL is sent on only when it is non-empty and differs from the current one |
| Renderer.Renderer.constructor | electron-app/renderer.js:16-29 | after `init`, the flag and buttons follow the status, the counter is zero, and the folder and URL texts are shown |
| Renderer.Renderer.UpdateMonitoringStatus | electron-app/renderer.js:31-45 | sets the flag; start is disabled iff monitoring, stop iff not |
| Renderer.Renderer.UpdateUploadProgress | electron-app/renderer.js:47-53 | the progress element is shown iff the counter is above zero |
| Renderer.Renderer.AddActivityItem | electron-app/renderer.js:55-101 | the counter follows `CounterAfter`, the feed is trimmed to the newest 50, and the progress element is shown iff the counter is above zero |
| Renderer.Renderer.TrimFeed | electron-app/renderer.js:98-100 | the trimming loop keeps exactly the newest 50 entries |
| Renderer.Renderer.OnAppEvent | electron-app/renderer.js:142-168 | an ignored event changes nothing; a shown one sets the flag if it says so, and adds its entry |
| Renderer.Renderer.ClearFeed | electron-app/renderer.js:114-116 | clearing empties the feed and leaves the counter alone |
| Renderer.Renderer.StartClicked | electron-app/renderer.js:104-107 | the start button shows monitoring as active |
| Renderer.Renderer.StopClicked | electron-app/renderer.js:109-112 | the stop button shows monitoring as stopped |
| Renderer.Renderer.ChangeServerClicked | electron-app/renderer.js:126-131 | the answer to the prompt goes to the backend exactly when `ShouldChangeServer` holds |
| EventFlow.UploadKindsDisplay | electron-app/renderer.js:152-163 | the window shows each upload event kind under its own kind, shows the count for `new-files-detected`, and ignores `upload-response` |
| EventFlow.ScanRaisesCounter | electron-app/main.js:131-137 | a scan's events raise the window's counter by the number of queued files |
| EventFlow.CompletionLowersCounter | electron-app/main.js:42-98 | however an upload ends, its completion events take exactly one off a positive counter |
| EventFlow.OneUploadRestoresCounter | electron-app/main.js:39-103 | one upload's events leave the window's counter where they found it |
| EventFlow.ScanRoundTrip | electron-app/main.js:131-137 | a scan followed by the end of every upload it began returns the counter to its value before the scan |
| Icon.WriteUInt8 | electron-app/create-icon.js:16-19 | `writeUInt8` replaces one byte and keeps the rest |
| Icon.Alloc | electron-app/create-icon.js:9 | `Buffer.alloc(n)` gives a new buffer of n zero bytes |
| Icon.WriteUInt16LE | electron-app/create-icon.js:10-12 | `writeUInt16LE` puts the value's two bytes, low first, at the offset and keeps the rest |
| Icon.WriteUInt32LE | electron-app/create-icon.js:22-23 | `writeUInt32LE` puts the value's four bytes, low first, at the offset and keeps the rest |
| Icon.NewHeader | electron-app/create-icon.js:9-12 | the header is the bytes `00 00 01 00 01 00` |
| Icon.NewDirEntry | electron-app/create-icon.js:15-23 | the entry is width 32, height 32, two zero bytes, 1 plane, 32 bits per pixel, size 4128, offset 22 |
| Icon.HeaderFields | electron-app/create-icon.js:9-31 | those bytes, followed by 4128 bytes of image data, read back as a well-formed one-image icon |
| Icon.CreateSimpleIco | electron-app/create-icon.js:7-33 | the file is 4150 bytes: a header declaring one icon, an entry of 32x32 at 32 bits per pixel, a size field equal to the image data's length, an offset field equal to 6 + 16, then 4128 zero bytes |

## Left out

- Asynchronous file-system calls, timers and the network become inputs:
  - `fs.watch`, `readdir`, `stat` and `readFile`;
  - the 100 ms and 500 ms delays (kept as the constants `ScanSettleMs` and `RescanDelayMs`);
  - the `http`/`https` transport.
- The 30-second timeout is the `TimedOut` outcome (its length is kept as `UploadTimeoutMs`).
- Overlapping scans and simultaneous uploads are not modelled. Scans run one at a time. Stat results are taken in listing order; the JavaScript takes them in completion order.
- `toLocaleTimeString` timestamps are left out: the `[time]` prefix of console lines and the `timestamp` field of `app-event` messages.
- The DOM is left out. So are the HTML of feed entries, the status texts and the scroll position.
- Not modelled:
  - the command-line banner, the stdin command loop and the signal handlers of mcXyzLocal.js;
  - the Electron window, the menu and the `app` lifecycle.
- The `change-folder` and `set-server-url` results are not modelled. electron-app/main.js registers no handler for either, so the renderer's calls have no answer to handle. The guard before `set-server-url` is modelled.
- `createPNGAsICO` and `fs.writeFileSync` are left out; `CreateSimpleIco` returns the bytes instead of writing them. create-icon.js never calls `createSimpleICO` itself.
- UploadRequest.MimeType: `toLowerCase` is modelled for ASCII letters only. The file names this matters for are ASCII.
- UploadRequest.Extname: modelled for names without path separators, which is what `readdir` returns.
- UploadRequest.BuildRequest: `url.parse` is not modelled. The upload URLs are given already split into protocol, host, port and the rest.
- DesktopMain.DesktopMain.ReportCompletion: only one `upload-error` is sent on timeout. Whether `req.abort()` also raises the request's `error` event, giving a second one, depends on Node internals.
- There is no persisted record of uploaded files, no configuration store and no retry of failed uploads. `previousFiles` is only the set of regular files the last scan saw. It starts empty, and an upload's outcome never changes it (mcXyzLocal.js:80-117, electron-app/main.js:101-137).
- A watch that throws leaves `isMonitoring` set (mcXyzLocal.js:122,138-140; electron-app/main.js:146,160-162). The model keeps it set too.
- Scanner.TriggersRescan: the watch callback is not a method of the model's classes. It decides whether a rescan is due; the rescan itself, 500 ms later, is a further `CheckForNewFiles` call made by whoever drives the model.
