/**
 * Building the upload request of `uploadFile` (both front ends): the MIME type
 * from the file name, the `data:` URL, the JSON body and its Content-Length,
 * the request options taken from the parsed upload URL, and the 2xx test.
 */
module UploadRequest {
  import opened Optional
  import opened Bytes
  import opened Base64
  import opened Json

  /** What reading the file gave: an error message or the file's bytes. */
  datatype ReadOutcome = ReadError(message: string) | ReadOk(data: seq<byte>)

  /**
   * How the HTTP exchange ended: a complete response (status and body text),
   * a transport error (the request's `'error'` event), or the 30-second timeout.
   */
  datatype Exchange = Response(status: nat, body: string) | RequestError(message: string) | TimedOut

  /** The request timeout both front ends pass to `req.setTimeout`, in milliseconds. */
  const UploadTimeoutMs: nat := 30000

  /** An upload counts as accepted exactly for a 2xx status. */
  function IsSuccess(status: int): (ok: bool)
    ensures ok <==> 200 <= status < 300
  {
    200 <= status < 300
  }

  // ----- File name to MIME type -----

  /** Index of the last '.' in `s`, or -1 when there is none. */
  function LastDot(s: string): (i: int)
    ensures -1 <= i < |s|
    ensures i >= 0 ==> s[i] == '.'
    ensures forall j :: i < j < |s| ==> s[j] != '.'
    decreases |s|
  {
    if s == [] then -1
    else if s[|s| - 1] == '.' then |s| - 1
    else LastDot(s[..|s| - 1])
  }

  /**
   * `path.extname(name)` for a directory-entry name (such names hold no path
   * separator): from the last '.' to the end, except that a name whose last dot
   * is its first character (`.png`) and the name `..` have no extension.
   */
  function Extname(name: string): (ext: string)
    ensures ext == [] <==> name == ".." || forall i :: 0 < i < |name| ==> name[i] != '.'
    ensures ext != [] ==>
      && |ext| < |name| && ext == name[|name| - |ext|..]
      && ext[0] == '.' && forall i :: 0 < i < |ext| ==> ext[i] != '.'
  {
    var d := LastDot(name);
    if d <= 0 || name == ".." then [] else name[d..]
  }

  function LowerChar(c: char): char {
    if 'A' <= c <= 'Z' then (c as int + 32) as char else c
  }

  /** `toLowerCase()` on ASCII letters; every other character is kept. */
  function ToLower(s: string): string {
    seq(|s|, i requires 0 <= i < |s| => LowerChar(s[i]))
  }

  /** The MIME type chosen for a lower-cased extension; `image/png` is the default. */
  function MimeForExtension(ext: string): (mime: string)
    ensures mime == "image/jpeg" <==> ext == ".jpg" || ext == ".jpeg"
    ensures mime == "image/gif" <==> ext == ".gif"
    ensures mime == "image/webp" <==> ext == ".webp"
    ensures mime == "image/png" <==> ext !in {".jpg", ".jpeg", ".gif", ".webp"}
  {
    if ext == ".jpg" || ext == ".jpeg" then "image/jpeg"
    else if ext == ".gif" then "image/gif"
    else if ext == ".webp" then "image/webp"
    else "image/png"
  }

  /** The MIME type `uploadFile` puts in the data URL for a file called `name`. */
  function MimeType(name: string): (mime: string)
    ensures mime in {"image/jpeg", "image/gif", "image/webp", "image/png"}
  {
    MimeForExtension(ToLower(Extname(name)))
  }

  lemma {:induction false} LastDotAppend(stem: string, e: string)
    requires '.' !in e
    ensures LastDot(stem + "." + e) == |stem|
    decreases |e|
  {
    var s := stem + "." + e;
    if e != [] {
      assert s[..|s| - 1] == stem + "." + e[..|e| - 1];
      LastDotAppend(stem, e[..|e| - 1]);
    } else {
      assert s[|s| - 1] == '.';
    }
  }

  /**
   * The MIME type of `stem.e` depends only on `e`, compared case-insensitively:
   * jpg and jpeg give `image/jpeg`, gif and webp their own types, and every
   * other extension (png, bmp, none at all) gives `image/png`.
   */
  lemma MimeTypeOfExtension(stem: string, e: string)
    requires stem != [] && '.' !in e
    ensures var lower := ToLower(e);
      MimeType(stem + "." + e) ==
        if lower == "jpg" || lower == "jpeg" then "image/jpeg"
        else if lower == "gif" then "image/gif"
        else if lower == "webp" then "image/webp"
        else "image/png"
  {
    var name := stem + "." + e;
    if name == ".." {
      // Only `stem == "."` with an empty `e`: `..` has no extension, and neither has `e`.
      assert |stem| == 1 && e == [];
      assert ToLower(e) == [];
    } else {
      ExtnameOfSuffix(stem, e);
      assert ToLower("." + e) == "." + ToLower(e);
      MimeForDotted(ToLower(e));
    }
  }

  lemma ExtnameOfSuffix(stem: string, e: string)
    requires stem != [] && '.' !in e && stem + "." + e != ".."
    ensures Extname(stem + "." + e) == "." + e
  {
    var name := stem + "." + e;
    LastDotAppend(stem, e);
    assert name[|stem|..] == "." + e;
  }

  lemma MimeForDotted(lower: string)
    ensures MimeForExtension("." + lower) ==
      if lower == "jpg" || lower == "jpeg" then "image/jpeg"
      else if lower == "gif" then "image/gif"
      else if lower == "webp" then "image/webp"
      else "image/png"
  {
    DotPrefix(lower, "jpg");
    DotPrefix(lower, "jpeg");
    DotPrefix(lower, "gif");
    DotPrefix(lower, "webp");
  }

  lemma DotPrefix(a: string, b: string)
    ensures "." + a == "." + b <==> a == b
  {
    if "." + a == "." + b {
      assert a == ("." + a)[1..] && b == ("." + b)[1..];
    }
  }

  /** A name with no dot after its first character (no extension, or a dot-file) is sent as `image/png`. */
  lemma MimeTypeWithoutExtension(name: string)
    requires forall i :: 0 < i < |name| ==> name[i] != '.'
    ensures MimeType(name) == "image/png"
  {
    assert LastDot(name) <= 0;
  }

  lemma {:induction false} LastDotToLower(s: string)
    ensures LastDot(ToLower(s)) == LastDot(s)
    decreases |s|
  {
    if s != [] {
      assert ToLower(s)[..|s| - 1] == ToLower(s[..|s| - 1]);
      LastDotToLower(s[..|s| - 1]);
    }
  }

  lemma ExtnameToLower(s: string)
    ensures Extname(ToLower(s)) == ToLower(Extname(s))
  {
    LastDotToLower(s);
    var d := LastDot(s);
    assert ToLower(s) == ".." <==> s == ".." by {
      if ToLower(s) == ".." {
        assert s[0] == '.' && s[1] == '.';
      }
    }
    if d > 0 {
      assert ToLower(s)[d..] == ToLower(s[d..]);
    }
  }

  /** Names that differ only in letter case get the same MIME type. */
  lemma MimeTypeIgnoresCase(a: string, b: string)
    requires ToLower(a) == ToLower(b)
    ensures MimeType(a) == MimeType(b)
  {
    ExtnameToLower(a);
    ExtnameToLower(b);
    assert ToLower(ToLower(a)) == ToLower(a);
    assert ToLower(ToLower(b)) == ToLower(b);
  }

  // ----- Data URL and JSON body -----

  predicate Ascii(s: string) {
    forall i :: 0 <= i < |s| ==> s[i] as int < 0x80
  }

  /** ASCII that JSON.stringify leaves alone inside a string value. */
  predicate PlainAscii(s: string) {
    Ascii(s) && forall i :: 0 <= i < |s| ==> IsPlain(s[i])
  }

  /** `data:<mime>;base64,` */
  function DataUrlPrefix(mime: string): string {
    "data:" + mime + ";base64,"
  }

  /**
   * `data:<mime>;base64,<payload>`: the prefix names the MIME type and the
   * rest decodes back to exactly the file's bytes.
   */
  function DataUrl(mime: string, data: seq<byte>): (url: string)
    ensures |url| >= |DataUrlPrefix(mime)| && url[..|DataUrlPrefix(mime)|] == DataUrlPrefix(mime)
  {
    DataUrlPrefix(mime) + Encode(data)
  }

  /** What follows the prefix of a data URL decodes back to exactly the file's bytes. */
  lemma DataUrlDecodes(mime: string, data: seq<byte>)
    ensures var url := DataUrl(mime, data);
      Decode(url[|DataUrlPrefix(mime)|..]) == Some(data)
  {
    var url := DataUrl(mime, data);
    assert url[|DataUrlPrefix(mime)|..] == Encode(data);
    DecodeEncode(data);
  }

  /** `JSON.stringify({ imageData: imageData, autoadd: 1 })`: keys in insertion order, no spaces. */
  function JsonBody(imageData: string): (body: string)
    ensures PlainAscii(imageData) ==> body == BodyOpen + imageData + BodyClose
  {
    var body := KeyText + Quote(imageData) + AutoaddText;
    assert PlainAscii(imageData) ==> body == BodyOpen + imageData + BodyClose by {
      if PlainAscii(imageData) {
        EscapePlain(imageData);
        assert Quote(imageData) == "\"" + imageData + "\"";
        BodyFrame();
        Regroup(KeyText, "\"", imageData, AutoaddText);
      }
    }
    body
  }

  /** `{"imageData":` and `,"autoadd":1}`, the text of the body around the quoted image data. */
  const KeyText := "{\"imageData\":"
  const AutoaddText := ",\"autoadd\":1}"

  lemma PlainAsciiConcat(a: string, b: string)
    requires PlainAscii(a) && PlainAscii(b)
    ensures PlainAscii(a + b)
  {
    assert forall i :: |a| <= i < |a + b| ==> (a + b)[i] == b[i - |a|];
  }

  lemma AsciiConcat(a: string, b: string)
    requires Ascii(a) && Ascii(b)
    ensures Ascii(a + b)
  {
    assert forall i :: |a| <= i < |a + b| ==> (a + b)[i] == b[i - |a|];
  }

  lemma Base64IsPlainAscii(data: seq<byte>)
    ensures PlainAscii(Encode(data))
  {
  }

  lemma DataUrlIsPlainAscii(mime: string, data: seq<byte>)
    requires PlainAscii(mime)
    ensures PlainAscii(DataUrl(mime, data))
  {
    var a, c := "data:", ";base64,";
    assert PlainAscii(a) by {
      assert a == ['d', 'a', 't', 'a', ':'];
    }
    assert PlainAscii(c) by {
      assert c == [';', 'b', 'a', 's', 'e', '6', '4', ','];
    }
    PlainAsciiConcat(a, mime);
    PlainAsciiConcat(a + mime, c);
    Base64IsPlainAscii(data);
    PlainAsciiConcat(a + mime + c, Encode(data));
  }

  /**
   * The request body is exactly `{"imageData":"data:<mime>;base64,<b64>","autoadd":1}`
   * (nothing in it needs escaping), and its byte length is its character count,
   * 41 + |mime| + 4 * ceil(n / 3) for a file of n bytes.
   */
  lemma BodyLayout(mime: string, data: seq<byte>)
    requires PlainAscii(mime)
    ensures var body := JsonBody(DataUrl(mime, data));
      && body == BodyOpen + DataUrlPrefix(mime) + Encode(data) + BodyClose
      && Utf8Length(body) == |body| == 41 + |mime| + 4 * ((|data| + 2) / 3)
  {
    var url := DataUrl(mime, data);
    var body := JsonBody(url);
    assert body == BodyOpen + url + BodyClose && Ascii(body) by {
      DataUrlIsPlainAscii(mime, data);
      BodyIsPlainAscii(url);
    }
    assert Utf8Length(body) == |body| by {
      Utf8LengthAscii(body);
    }
    assert |BodyOpen| == 14 && |BodyClose| == 14 && |DataUrlPrefix(mime)| == 13 + |mime|;
  }

  /** With nothing to escape, the body is the image data between fixed text. */
  lemma BodyIsPlainAscii(url: string)
    requires PlainAscii(url)
    ensures JsonBody(url) == BodyOpen + url + BodyClose
    ensures Ascii(JsonBody(url))
  {
    BodyFrame();
    assert Ascii(BodyOpen + url + BodyClose) by {
      AsciiConcat(BodyOpen, url);
      AsciiConcat(BodyOpen + url, BodyClose);
    }
  }

  lemma Regroup(a: string, q: string, x: string, c: string)
    ensures a + (q + x + q) + c == (a + q) + x + (q + c)
  {
  }

  /** The fixed text around the image data: `{"imageData":"` and `","autoadd":1}`. */
  const BodyOpen := "{\"imageData\":\""
  const BodyClose := "\",\"autoadd\":1}"

  lemma BodyFrame()
    ensures BodyOpen == KeyText + "\"" && BodyClose == "\"" + AutoaddText
    ensures Ascii(BodyOpen) && Ascii(BodyClose)
  {
    assert BodyOpen == ['{', '"', 'i', 'm', 'a', 'g', 'e', 'D', 'a', 't', 'a', '"', ':', '"'];
    assert BodyClose == ['"', ',', '"', 'a', 'u', 't', 'o', 'a', 'd', 'd', '"', ':', '1', '}'];
  }

  // ----- Request options -----

  /**
   * The parts of `url.parse(REMOTE_UPLOAD_URL)` the request uses: `port` is absent
   * when the URL names none, and `tail` is everything after the host and port
   * (path, query and fragment).
   */
  datatype Url = Url(protocol: string, hostname: string, port: Option<nat>, tail: string)

  datatype Options = Options(hostname: string, port: nat, path: string, verb: string,
                             contentType: string, contentLength: nat)

  datatype HttpRequest = HttpRequest(options: Options, body: string)

  /** The path part of a URL's tail: it stops at the query (`?`) or fragment (`#`). */
  function PathPrefix(tail: string): (p: string)
    ensures p <= tail
    ensures forall i :: 0 <= i < |p| ==> p[i] != '?' && p[i] != '#'
    ensures |p| < |tail| ==> tail[|p|] == '?' || tail[|p|] == '#'
    decreases |tail|
  {
    if tail == [] || tail[0] == '?' || tail[0] == '#' then []
    else [tail[0]] + PathPrefix(tail[1..])
  }

  /** `pathname` of an http(s) URL: its path, or `/` when the path is empty. */
  function Pathname(u: Url): (path: string)
    ensures path != [] && forall i :: 0 <= i < |path| ==> path[i] != '?' && path[i] != '#'
    ensures
      || (path <= u.tail && (|path| == |u.tail| || u.tail[|path|] == '?' || u.tail[|path|] == '#'))
      || (path == "/" && (u.tail == [] || u.tail[0] == '?' || u.tail[0] == '#'))
  {
    var p := PathPrefix(u.tail);
    if p == [] then "/" else p
  }

  /** The upload URL of the command-line front end and the port `http` uses when it names none. */
  const CliUploadUrl := Url("http:", "flowflowxyz.niva.monster", None, "/upload")
  const CliDefaultPort: nat := 80

  /** The upload URL of the desktop front end and the port `https` uses when it names none. */
  const DesktopUploadUrl := Url("https:", "flowflowxyz.niva.monster", None, "/upload")
  const DesktopDefaultPort: nat := 443

  /**
   * The POST request `uploadFile` sends for file `name` with contents `data`:
   * the port is the URL's own or the front end's default, the path drops any
   * query or fragment, and Content-Length is the body's byte length.
   */
  function BuildRequest(u: Url, defaultPort: nat, name: string, data: seq<byte>): (r: HttpRequest)
    ensures r.options.verb == "POST" && r.options.contentType == "application/json"
    ensures r.options.hostname == u.hostname
    ensures u.port.Some? ==> r.options.port == u.port.value
    ensures u.port.None? ==> r.options.port == defaultPort
    ensures PathPrefix(u.tail) != [] ==> r.options.path == PathPrefix(u.tail)
    ensures PathPrefix(u.tail) == [] ==> r.options.path == "/"
    ensures r.body == BodyOpen + DataUrlPrefix(MimeType(name)) + Encode(data) + BodyClose
    ensures r.options.contentLength == |r.body|
  {
    var mime := MimeType(name);
    MimeIsPlainAscii(mime);
    BodyLayout(mime, data);
    var body := JsonBody(DataUrl(mime, data));
    var port := if u.port.Some? then u.port.value else defaultPort;
    HttpRequest(Options(u.hostname, port, Pathname(u), "POST", "application/json", Utf8Length(body)), body)
  }

  /** The MIME types need no escaping in JSON. */
  lemma MimeIsPlainAscii(mime: string)
    requires mime in {"image/jpeg", "image/gif", "image/webp", "image/png"}
    ensures PlainAscii(mime)
  {
    if mime == "image/jpeg" {
      assert mime == ['i', 'm', 'a', 'g', 'e', '/', 'j', 'p', 'e', 'g'];
    } else if mime == "image/gif" {
      assert mime == ['i', 'm', 'a', 'g', 'e', '/', 'g', 'i', 'f'];
    } else if mime == "image/webp" {
      assert mime == ['i', 'm', 'a', 'g', 'e', '/', 'w', 'e', 'b', 'p'];
    } else {
      assert mime == ['i', 'm', 'a', 'g', 'e', '/', 'p', 'n', 'g'];
    }
  }

  /** The command-line front end posts to port 80, path `/upload`. */
  lemma CliRequestTarget(name: string, data: seq<byte>)
    ensures var o := BuildRequest(CliUploadUrl, CliDefaultPort, name, data).options;
      o.hostname == "flowflowxyz.niva.monster" && o.port == 80 && o.path == "/upload"
  {
    assert PathPrefix("/upload") == "/upload";
  }

  /** The desktop front end posts to port 443, path `/upload`. */
  lemma DesktopRequestTarget(name: string, data: seq<byte>)
    ensures var o := BuildRequest(DesktopUploadUrl, DesktopDefaultPort, name, data).options;
      o.hostname == "flowflowxyz.niva.monster" && o.port == 443 && o.path == "/upload"
  {
    assert PathPrefix("/upload") == "/upload";
  }
}
