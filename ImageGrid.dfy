/** The results view: file names derived from a data URI, the conversion of
    a data URI into a file for sharing, the staggered "download all", and
    the choice of what the view shows. */
module ImageGrid {
  import opened Wrappers
  import opened Text
  import opened GeminiService

  // ---------------------------------------------------------------------
  // Extension and file name
  // ---------------------------------------------------------------------

  /** The MIME text of a data URI: the second ':'-piece of the first
      ';'-piece, that is the text after the first ':' up to the next ':' or
      the first ';', or `undefined` when the header has no ':'. */
  function MimeTypeField(image: string): (m: Option<string>)
    ensures m.Some? ==> ';' !in m.value && ':' !in m.value
  {
    var header := Split(image, ';')[0];
    SplitKeepsOut(header, ':', ';');
    Field(header, ':', 1)
  }

  const FallbackExtension: string := "jpeg"

  /** The subtype of the MIME text, JPEG when that text is missing or
      empty (both falsy). A MIME text without '/' has no second piece, and
      the template literal then spells it out as "undefined". */
  function Extension(image: string): (ext: string)
    ensures ';' !in ext && ':' !in ext && '/' !in ext
  {
    match MimeTypeField(image)
    case None => FallbackExtension
    case Some(m) =>
      if m == "" then FallbackExtension
      else
        SplitKeepsOut(m, '/', ';');
        SplitKeepsOut(m, '/', ':');
        match Field(m, '/', 1)
        case None => "undefined"
        case Some(e) => e
  }

  const FilenamePrefix: string := "virtual-try-on-model-"

  /** The name under which image `index` (counted from zero) is downloaded
      or shared: the one-based number and the extension. */
  function Filename(image: string, index: nat): string {
    FilenamePrefix + Decimal(index + 1) + "." + Extension(image)
  }

  /** The MIME text of a data URI is its MIME type when that has no ';'
      or ':' of its own. */
  lemma MimeTypeFieldOfDataUri(mime: string, data: string)
    requires ';' !in mime && ':' !in mime
    ensures MimeTypeField(DataUri(mime, data)) == Some(mime)
  {
    var header := "data:" + mime;
    assert DataUri(mime, data) == header + [';'] + ("base64," + data);
    SplitAtFirst(header, "base64," + data, ';');
    assert header == "data" + [':'] + mime;
    SplitAtFirst("data", mime, ':');
    SplitWithoutSeparator(mime, ':');
  }

  /** For a data URI whose MIME type is `t/s` (no separators inside), the
      extension is the subtype `s`. */
  lemma ExtensionOfDataUri(t: string, s: string, data: string)
    requires ';' !in t && ':' !in t && '/' !in t
    requires ';' !in s && ':' !in s && '/' !in s
    ensures Extension(DataUri(t + "/" + s, data)) == s
  {
    var mime := t + "/" + s;
    MimeTypeFieldOfDataUri(mime, data);
    assert mime == t + ['/'] + s;
    SplitAtFirst(t, s, '/');
    SplitWithoutSeparator(s, '/');
  }

  /** A header without ':' before its first ';', or with nothing between
      them, falls back to JPEG. */
  lemma ExtensionFallback(image: string)
    requires ':' !in Split(image, ';')[0] || MimeTypeField(image) == Some("")
    ensures Extension(image) == FallbackExtension
  {
    var header := Split(image, ';')[0];
    if ':' !in header {
      SplitWithoutSeparator(header, ':');
    }
  }

  /** Distinct positions give distinct file names, whatever the images. */
  lemma FilenameInjective(a: string, i: nat, b: string, j: nat)
    ensures Filename(a, i) == Filename(b, j) ==> i == j
  {
    if Filename(a, i) == Filename(b, j) {
      var x, y := FilenamePrefix + Decimal(i + 1), FilenamePrefix + Decimal(j + 1);
      assert '.' !in FilenamePrefix;
      assert '.' !in Decimal(i + 1) && '.' !in Decimal(j + 1);
      assert '.' !in x && '.' !in y;
      assert x + ['.'] + Extension(a) == y + ['.'] + Extension(b);
      SplitAtUniqueMark(x, Extension(a), y, Extension(b), '.');
      assert Decimal(i + 1) == x[|FilenamePrefix|..] == y[|FilenamePrefix|..] == Decimal(j + 1);
      DecimalInjective(i + 1, j + 1);
    }
  }

  // ---------------------------------------------------------------------
  // The header regular expression /:(.*?);/
  // ---------------------------------------------------------------------

  /** The characters `.` does not match in a JavaScript regular expression. */
  predicate LineTerminator(c: char) {
    c == '\n' || c == '\r' || c == '\U{2028}' || c == '\U{2029}'
  }

  /** `(.*?);` anchored at the start of `s`: the shortest text before a ';',
      which fails when a line terminator comes first. */
  function LazyGroup(s: string): (g: Option<string>)
    ensures g.Some? ==> ';' !in g.value && g.value + [';'] <= s
    ensures g.Some? ==> forall k :: 0 <= k < |g.value| ==> !LineTerminator(g.value[k])
    decreases |s|
  {
    if s == [] then None
    else if s[0] == ';' then Some("")
    else if LineTerminator(s[0]) then None
    else
      match LazyGroup(s[1..])
      case None => None
      case Some(rest) => Some([s[0]] + rest)
  }

  /** `header.match(/:(.*?);/)`, with the capture group as its value: the
      leftmost ':' from which the lazy group succeeds. */
  function MimeMatch(header: string): Option<string>
    decreases |header|
  {
    if header == [] then None
    else if header[0] == ':' && LazyGroup(header[1..]).Some? then LazyGroup(header[1..])
    else MimeMatch(header[1..])
  }

  lemma {:induction false} LazyGroupOf(g: string, rest: string)
    requires ';' !in g
    requires forall k :: 0 <= k < |g| ==> !LineTerminator(g[k])
    ensures LazyGroup(g + [';'] + rest) == Some(g)
    decreases |g|
  {
    var s := g + [';'] + rest;
    if g != [] {
      assert s[1..] == g[1..] + [';'] + rest;
      LazyGroupOf(g[1..], rest);
      assert [g[0]] + g[1..] == g;
    }
  }

  /** The match starts at the first ':' and its group runs to the next ';',
      provided no line break falls between them. */
  lemma {:induction false} MimeMatchOf(a: string, g: string, rest: string)
    requires ':' !in a && ';' !in g
    requires forall k :: 0 <= k < |g| ==> !LineTerminator(g[k])
    ensures MimeMatch(a + [':'] + g + [';'] + rest) == Some(g)
    decreases |a|
  {
    var h := a + [':'] + g + [';'] + rest;
    if a == [] {
      assert h[1..] == g + [';'] + rest;
      LazyGroupOf(g, rest);
    } else {
      assert h[1..] == a[1..] + [':'] + g + [';'] + rest;
      MimeMatchOf(a[1..], g, rest);
    }
  }

  /** Without a ':' there is no match. */
  lemma {:induction false} MimeMatchNeedsColon(header: string)
    requires ':' !in header
    ensures MimeMatch(header).None?
    decreases |header|
  {
    if header != [] {
      MimeMatchNeedsColon(header[1..]);
    }
  }

  /** Without a ';' there is no match. */
  lemma {:induction false} MimeMatchNeedsSemicolon(header: string)
    requires ';' !in header
    ensures MimeMatch(header).None?
    decreases |header|
  {
    if header != [] {
      LazyGroupNeedsSemicolon(header[1..]);
      MimeMatchNeedsSemicolon(header[1..]);
    }
  }

  lemma LazyGroupNeedsSemicolon(s: string)
    ensures LazyGroup(s).Some? ==> ';' in s
  {
    var g := LazyGroup(s);
    if g.Some? {
      assert (g.value + [';'])[|g.value|] == ';';
      assert s[|g.value|] == ';';
    }
  }

  // ---------------------------------------------------------------------
  // Data URI to file
  // ---------------------------------------------------------------------

  /** A byte as a `Uint8Array` element stores it. */
  newtype uint8 = x: int | 0 <= x < 256

  /** The `File` handed to the share sheet: its bytes, name and type. */
  datatype FileData = FileData(bytes: seq<uint8>, name: string, mimeType: string)

  /** `dataURIToFile`. `atob` is the browser's base64 decoder, taken as a
      parameter; each decoded character code is stored modulo 256, as a
      `Uint8Array` stores it. */
  method DataUriToFile(dataUri: string, filename: string, atob: string -> string)
    returns (file: Option<FileData>)
    ensures file.None? <==>
      |Split(dataUri, ',')| < 2 || MimeMatch(Split(dataUri, ',')[0]).None?
    ensures file.Some? ==>
      var arr := Split(dataUri, ',');
      var bstr := atob(arr[1]);
      && file.value.name == filename
      && file.value.mimeType == MimeMatch(arr[0]).value
      && |file.value.bytes| == |bstr|
      && forall k :: 0 <= k < |bstr| ==> file.value.bytes[k] as int == bstr[k] as int % 256
  {
    var arr := Split(dataUri, ',');
    if |arr| < 2 {
      return None;
    }
    var mimeMatch := MimeMatch(arr[0]);
    if mimeMatch.None? {
      return None;
    }
    var mime := mimeMatch.value;
    var bstr := atob(arr[1]);
    var n := |bstr|;
    var u8arr := new uint8[n];
    while n > 0
      invariant 0 <= n <= u8arr.Length == |bstr|
      invariant forall k :: n <= k < |bstr| ==> u8arr[k] as int == bstr[k] as int % 256
    {
      n := n - 1;
      u8arr[n] := (bstr[n] as int % 256) as uint8;
    }
    return Some(FileData(u8arr[..], filename, mime));
  }

  /** The header of a data URI with a plain MIME type is read the same way by
      the download path and by the share path. */
  lemma HeaderReadings(mime: string, data: string)
    requires ';' !in mime && ':' !in mime && ',' !in mime
    requires forall k :: 0 <= k < |mime| ==> !LineTerminator(mime[k])
    ensures MimeMatch(Split(DataUri(mime, data), ',')[0]) == Some(mime)
    ensures MimeTypeField(DataUri(mime, data)) == Some(mime)
  {
    var uri := DataUri(mime, data);
    assert uri == "data:" + mime + ";base64" + [','] + data;
    assert ',' !in "data:" + mime + ";base64";
    SplitAtFirst("data:" + mime + ";base64", data, ',');
    assert "data:" + mime + ";base64" == "data" + [':'] + mime + [';'] + "base64";
    MimeMatchOf("data", mime, "base64");
    MimeTypeFieldOfDataUri(mime, data);
  }

  const SharePreparationFailure: string := "Could not prepare image for sharing."

  /** The first half of `handleShare`: name the file as a download would
      and convert it, or report that it cannot be prepared. */
  method PrepareShare(image: string, index: nat, atob: string -> string)
    returns (file: Result<FileData>)
    ensures file.Err? <==>
      |Split(image, ',')| < 2 || MimeMatch(Split(image, ',')[0]).None?
    ensures file.Ok? ==>
      var arr := Split(image, ',');
      var bstr := atob(arr[1]);
      && file.value.name == Filename(image, index)
      && file.value.mimeType == MimeMatch(arr[0]).value
      && |file.value.bytes| == |bstr|
      && forall k :: 0 <= k < |bstr| ==> file.value.bytes[k] as int == bstr[k] as int % 256
    ensures file.Err? ==> file.message == SharePreparationFailure
  {
    var filename := Filename(image, index);
    var converted := DataUriToFile(image, filename, atob);
    if converted.None? {
      return Err(SharePreparationFailure);
    }
    return Ok(converted.value);
  }

  // ---------------------------------------------------------------------
  // Download all
  // ---------------------------------------------------------------------

  /** One scheduled download: after `delay` milliseconds, save `href` as
      `name`. */
  datatype Download = Download(delay: nat, href: string, name: string)

  const DownloadSpacing: nat := 300

  /** `handleDownloadAll`: one timer per image, image `i` after `i * 300`
      milliseconds, each saved under its own name. */
  method DownloadAll(images: seq<string>) returns (schedule: seq<Download>)
    ensures |schedule| == |images|
    ensures forall i :: 0 <= i < |images| ==>
      schedule[i] == Download(i * DownloadSpacing, images[i], Filename(images[i], i))
    ensures forall i, j :: 0 <= i < j < |schedule| ==>
      schedule[i].delay < schedule[j].delay && schedule[i].name != schedule[j].name
  {
    schedule := [];
    for index := 0 to |images|
      invariant |schedule| == index
      invariant forall i :: 0 <= i < index ==>
        schedule[i] == Download(i * DownloadSpacing, images[i], Filename(images[i], i))
      invariant forall i, j :: 0 <= i < j < index ==>
        schedule[i].delay < schedule[j].delay && schedule[i].name != schedule[j].name
    {
      var image := images[index];
      forall i | 0 <= i < index
        ensures schedule[i].name != Filename(image, index)
      {
        FilenameInjective(images[i], i, image, index);
      }
      schedule := schedule + [Download(index * DownloadSpacing, image, Filename(image, index))];
    }
  }

  // ---------------------------------------------------------------------
  // What the view shows
  // ---------------------------------------------------------------------

  /** The four faces of the results view. */
  datatype View = Skeletons(count: nat) | ErrorPanel(message: string) | Placeholder | Grid(images: seq<string>)

  /** An error is shown only when it is a non-empty string; `null` and the
      empty string are both falsy. */
  predicate HasError(error: Option<string>) {
    error.Some? && error.value != ""
  }

  /** Loading wins over an error, an error over an empty result, and only
      a non-empty result without an error shows the grid. */
  function SelectView(images: seq<string>, loading: bool, error: Option<string>, numImages: nat): (v: View)
    ensures v.Skeletons? <==> loading
    ensures v.Skeletons? ==> v.count == numImages
    ensures v.ErrorPanel? <==> !loading && HasError(error)
    ensures v.ErrorPanel? ==> v.message == error.value
    ensures v.Placeholder? <==> !loading && !HasError(error) && |images| == 0
    ensures v.Grid? <==> !loading && !HasError(error) && |images| > 0
    ensures v.Grid? ==> v.images == images
  {
    if loading then Skeletons(numImages)
    else if HasError(error) then ErrorPanel(error.value)
    else if |images| == 0 then Placeholder
    else Grid(images)
  }
}
