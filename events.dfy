/**
 * The `app-event` messages the desktop main process sends to its window
 * (`{ type, data }`), and the decimal rendering of numbers used in messages.
 */
module Events {

  /** The `data` of an event: nothing, a message, or a file count. */
  datatype Payload = NoData | Text(text: string) | Count(count: nat)

  datatype AppEvent = AppEvent(kind: string, data: Payload)

  const MonitoringStarted := "monitoring-started"
  const MonitoringStopped := "monitoring-stopped"
  const NewFilesDetected := "new-files-detected"
  const UploadStart := "upload-start"
  const UploadSuccess := "upload-success"
  const UploadResponse := "upload-response"
  const UploadError := "upload-error"
  const FolderError := "folder-error"

  /** The upload event kinds are different strings. */
  lemma KindsDistinct()
    ensures UploadStart != UploadError && UploadStart != UploadSuccess && UploadStart != UploadResponse
    ensures UploadError != UploadSuccess && UploadError != UploadResponse && UploadSuccess != UploadResponse
    ensures FolderError != UploadError && FolderError != UploadStart && FolderError != UploadSuccess
  {
    assert UploadStart[7] == 's' && UploadError[7] == 'e';
    assert |UploadSuccess| == 14 && |UploadResponse| == 15 && |UploadStart| == |UploadError| == 12;
    assert FolderError[0] == 'f' && UploadError[0] == 'u';
  }

  function Digit(d: nat): char
    requires d < 10
  {
    ('0' as int + d) as char
  }

  /** How a template string writes a non-negative integer: decimal, no leading zeros. */
  function Decimal(n: nat): (s: string)
    ensures s != []
    ensures forall i :: 0 <= i < |s| ==> '0' <= s[i] <= '9'
    ensures |s| > 1 ==> s[0] != '0'
    decreases n
  {
    if n < 10 then [Digit(n)] else Decimal(n / 10) + [Digit(n % 10)]
  }

  /** The value of a string of decimal digits. */
  function DecimalValue(s: string): nat
    requires forall i :: 0 <= i < |s| ==> '0' <= s[i] <= '9'
    decreases |s|
  {
    if s == [] then 0
    else DecimalValue(s[..|s| - 1]) * 10 + (s[|s| - 1] as int - '0' as int)
  }

  /** The decimal text of a number reads back as that number, so a message that carries it carries the number. */
  lemma {:induction false} DecimalRoundTrip(n: nat)
    ensures DecimalValue(Decimal(n)) == n
    decreases n
  {
    if n >= 10 {
      DecimalRoundTrip(n / 10);
      var s := Decimal(n);
      assert s[..|s| - 1] == Decimal(n / 10);
    }
  }
}
