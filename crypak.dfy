/** The cry:// scheme's resource handler (CEFCryPakResourceHandler): it
    derives the archive path, extension and MIME type from a request URL,
    opens the file in the engine's archive and streams it to the browser in
    chunks. */
module CryPak {
  import opened Engine
  import opened CryString

  // ---------------------------------------------------------------- request parsing

  /** The archive path of a URL: everything two characters after the first
      '/', trimmed. With no '/' at all, npos + 2 wraps to 1. */
  function UrlPath(url: string): (p: string)
    ensures '/' in url && |url| < NPOS ==> p == Trim(Mid(url, FindFirst(url, '/') + 2, NPOS))
    ensures '/' !in url ==> p == Trim(Mid(url, 1, NPOS))
  {
    var k := FindFirst(url, '/');
    var first := SizeAdd(k, 2);
    Trim(Mid(url, first, NPOS))
  }

  /** The extension: at most three characters after the last '.', trimmed
      and lower-cased. */
  function Extension(path: string): (e: string)
    ensures |e| <= 3
    ensures forall i :: 0 <= i < |e| ==> !IsUpper(e[i])
  {
    var clean := Trim(Mid(path, SizeAdd(FindLast(path, '.'), 1), 3));
    MakeLowerHasNoCapitals(clean);
    MakeLower(clean)
  }

  /** Unfolds Extension at a given start position. */
  lemma ExtensionFrom(path: string, first: nat)
    requires first == SizeAdd(FindLast(path, '.'), 1)
    ensures Extension(path) == MakeLower(Trim(Mid(path, first, 3)))
  {
  }

  /** With a '.' in the path the extension starts right after the last one. */
  lemma ExtensionAfterLastDotOf(path: string)
    requires '.' in path && |path| < NPOS
    ensures Extension(path) == MakeLower(Trim(Mid(path, FindLast(path, '.') + 1, 3)))
  {
    ExtensionFrom(path, FindLast(path, '.') + 1);
  }

  /** With no '.' at all, npos + 1 wraps to 0: the extension is taken from
      the start of the path. */
  lemma ExtensionWithoutDot(path: string)
    requires '.' !in path
    ensures Extension(path) == MakeLower(Trim(Mid(path, 0, 3)))
  {
    ExtensionFrom(path, 0);
  }

  /** The MIME types the handler recognises; everything else is served as
      HTML. */
  const MIME_TYPES: map<string, string> := map[
    "png" := "image/png",
    "jpg" := "image/jpeg",
    "jpe" := "image/jpeg",
    "bmp" := "image/bmp",
    "js" := "application/javascript"]

  const DEFAULT_MIME: string := "text/html"

  /** The if-chain of ProcessRequest is the table: a listed extension gets
      its type, everything else text/html. */
  function MimeType(ext: string): (r: string)
    ensures ext in MIME_TYPES ==> r == MIME_TYPES[ext]
    ensures ext !in MIME_TYPES ==> r == DEFAULT_MIME
  {
    if ext == "png" then "image/png"
    else if ext == "jpg" || ext == "jpe" then "image/jpeg"
    else if ext == "bmp" then "image/bmp"
    else if ext == "js" then "application/javascript"
    else DEFAULT_MIME
  }

  /** For scheme://rest the path is rest, trimmed. */
  lemma UrlPathOfSchemeUrl(scheme: string, rest: string)
    requires '/' !in scheme && |scheme| + 2 + |rest| <= NPOS
    ensures UrlPath(scheme + "//" + rest) == Trim(rest)
  {
    var url := scheme + "//" + rest;
    assert url[|scheme|] == '/';
    assert url[..|scheme|] == scheme;
    FirstAt(url, '/', |scheme|);
    var k := FindFirst(url, '/');
    MidToEnd(url, k + 2);
    assert url[k + 2..] == rest;
  }

  /** For name.ext, with a short, unpadded extension free of dots, the
      extension is ext in lower case. */
  lemma ExtensionOfFileName(name: string, ext: string)
    requires '.' !in ext && |ext| <= 3
    requires ext != [] ==> !IsSpace(ext[0]) && !IsSpace(ext[|ext| - 1])
    requires |name| + 1 + |ext| < NPOS
    ensures Extension(name + "." + ext) == MakeLower(ext)
  {
    calc {
      Extension(name + "." + ext);
      { ExtensionAfterLastDot(name, ext); }
      MakeLower(Trim(Mid(ext, 0, 3)));
      { assert Mid(ext, 0, 3) == ext; }
      MakeLower(Trim(ext));
      { TrimUnpadded(ext); }
      MakeLower(ext);
    }
  }

  /** The request for a page: the path is everything after "cry://". */
  lemma TestPagePath()
    ensures UrlPath("cry://UI/TestUI.html") == "UI/TestUI.html"
  {
    calc {
      UrlPath("cry://UI/TestUI.html");
      { assert "cry://UI/TestUI.html" == "cry:" + "//" + "UI/TestUI.html"; }
      UrlPath("cry:" + "//" + "UI/TestUI.html");
      { UrlPathOfSchemeUrl("cry:", "UI/TestUI.html"); }
      Trim("UI/TestUI.html");
      { TrimUnpadded("UI/TestUI.html"); }
      "UI/TestUI.html";
    }
  }

  /** A suffix whose first three characters are already a clean, small
      extension yields exactly that extension. */
  lemma CleanExtension(suffix: string, ext: string)
    requires Mid(suffix, 0, 3) == ext
    requires ext != [] ==> !IsSpace(ext[0]) && !IsSpace(ext[|ext| - 1])
    requires forall i :: 0 <= i < |ext| ==> !IsUpper(ext[i])
    ensures MakeLower(Trim(Mid(suffix, 0, 3))) == ext
  {
    TrimUnpadded(ext);
    MakeLowerOfLower(ext);
  }

  /** With a dot-free suffix whose first three characters are already a
      clean, small extension, the extension is exactly those characters. */
  lemma ExtensionOfSuffix(name: string, suffix: string, ext: string)
    requires '.' !in suffix && |name| + 1 + |suffix| < NPOS
    requires Mid(suffix, 0, 3) == ext
    requires ext != [] ==> !IsSpace(ext[0]) && !IsSpace(ext[|ext| - 1])
    requires forall i :: 0 <= i < |ext| ==> !IsUpper(ext[i])
    ensures Extension(name + "." + suffix) == ext
  {
    ExtensionAfterLastDot(name, suffix);
    CleanExtension(suffix, ext);
  }

  /** Only three characters of the extension are kept: an ".html" page is
      served as HTML through the default, not through a match. */
  lemma HtmlPageExtension(name: string)
    requires |name| + 5 < NPOS
    ensures Extension(name + "." + "html") == "htm"
  {
    assert Mid("html", 0, 3) == "htm" by {
      assert "html"[0..3] == "htm";
    }
    ExtensionOfSuffix(name, "html", "htm");
  }

  /** ... and "htm" is not in the table, so the page is text/html. */
  lemma HtmlPageMime(name: string)
    requires |name| + 5 < NPOS
    ensures MimeType(Extension(name + "." + "html")) == DEFAULT_MIME
  {
    calc {
      MimeType(Extension(name + "." + "html"));
      { HtmlPageExtension(name); }
      MimeType("htm");
      DEFAULT_MIME;
    }
  }

  /** Capitals are lowered: ".PNG" gives "png"... */
  lemma CapitalExtension(name: string)
    requires |name| + 4 < NPOS
    ensures Extension(name + "." + "PNG") == "png"
  {
    ExtensionOfFileName(name, "PNG");
    assert MakeLower("PNG") == "png";
  }

  /** ... which is served as image/png. */
  lemma CapitalExtensionMime(name: string)
    requires |name| + 4 < NPOS
    ensures MimeType(Extension(name + "." + "PNG")) == "image/png"
  {
    calc {
      MimeType(Extension(name + "." + "PNG"));
      { CapitalExtension(name); }
      MimeType("png");
      "image/png";
    }
  }

  /** ".jpeg" is cut to "jpe", which is the table's second JPEG entry, so
      it is still served as image/jpeg. */
  lemma LongJpegMime(name: string)
    requires |name| + 5 < NPOS
    ensures Extension(name + "." + "jpeg") == "jpe"
    ensures MimeType(Extension(name + "." + "jpeg")) == "image/jpeg"
  {
    assert Mid("jpeg", 0, 3) == "jpe" by {
      assert "jpeg"[0..3] == "jpe";
    }
    ExtensionOfSuffix(name, "jpeg", "jpe");
  }

  /** The dot before a dot-free suffix is the last one. */
  lemma LastDotBeforeSuffix(name: string, suffix: string)
    requires '.' !in suffix
    ensures FindLast(name + "." + suffix, '.') == |name|
  {
    var path := name + "." + suffix;
    assert path[|name|] == '.';
    assert path[|name| + 1..] == suffix;
    LastAt(path, '.', |name|);
  }

  /** Mid right after that dot reads the suffix. */
  lemma MidAfterDot(name: string, suffix: string)
    ensures Mid(name + "." + suffix, |name| + 1, 3) == Mid(suffix, 0, 3)
  {
    assert (name + "." + suffix)[|name| + 1..] == suffix;
  }

  /** The extension is taken from a suffix without dots, whatever its length. */
  lemma ExtensionAfterLastDot(name: string, suffix: string)
    requires '.' !in suffix && |name| + 1 + |suffix| < NPOS
    ensures Extension(name + "." + suffix) == MakeLower(Trim(Mid(suffix, 0, 3)))
  {
    LastDotBeforeSuffix(name, suffix);
    ExtensionAfterLastDotOf(name + "." + suffix);
    MidAfterDot(name, suffix);
  }

  /** A URL without any '/' loses its first character. */
  lemma UrlWithoutSlash()
    ensures UrlPath("index.html") == "ndex.html"
  {
    calc {
      UrlPath("index.html");
      { assert '/' !in "index.html"; }
      Trim(Mid("index.html", 1, NPOS));
      { assert Mid("index.html", 1, NPOS) == "ndex.html"; }
      Trim("ndex.html");
      { TrimUnpadded("ndex.html"); }
      "ndex.html";
    }
  }

  /** A path without any '.' takes its first three characters as the
      extension. */
  lemma DotlessExtension(path: string, ext: string)
    requires '.' !in path && Mid(path, 0, 3) == ext
    requires ext != [] ==> !IsSpace(ext[0]) && !IsSpace(ext[|ext| - 1])
    requires forall i :: 0 <= i < |ext| ==> !IsUpper(ext[i])
    ensures Extension(path) == ext
  {
    ExtensionWithoutDot(path);
    CleanExtension(path, ext);
  }

  /** A file name without a dot, such as "license", takes "lic"... */
  lemma DotlessPathExtension()
    ensures Extension("license") == "lic"
  {
    assert Mid("license", 0, 3) == "lic" by {
      assert "license"[0..3] == "lic";
    }
    DotlessExtension("license", "lic");
  }

  /** ... and is served through the default as text/html. */
  lemma DotlessPathMime()
    ensures MimeType(Extension("license")) == "text/html"
  {
    calc {
      MimeType(Extension("license"));
      { DotlessPathExtension(); }
      MimeType("lic");
      "text/html";
    }
  }

  // ---------------------------------------------------------------- streaming

  /** The handler's file state: whether the handle is open, the file size,
      the read offset and the number of FClose calls made. */
  datatype Cursor = Cursor(open: bool, size: nat, offset: nat, closes: nat)

  /** One ReadResponse call: hasOutput is whether the output buffer is
      non-null, bytesToRead the browser's request, delivered what the
      archive's raw read returns for it. */
  datatype ReadRequest = ReadRequest(hasOutput: bool, bytesToRead: nat, delivered: nat)

  datatype ReadResult = ReadResult(cursor: Cursor, bytesRead: nat, more: bool)

  /** The bytes actually read: the request, capped by what is left of the
      file and by what the archive delivers. */
  function Transfer(left: nat, bytesToRead: nat, delivered: nat): (n: nat)
    ensures n <= left && n <= bytesToRead && n <= delivered
    ensures n == left || n == bytesToRead || n == delivered
  {
    Min(Min(bytesToRead, left), delivered)
  }

  /** ReadResponse on the cursor: with data left, an output buffer and an
      open file, read the next chunk; otherwise read nothing and close. */
  function ReadStep(c: Cursor, r: ReadRequest): (o: ReadResult)
    ensures o.more <==> c.offset < c.size && r.hasOutput && c.open
    ensures o.cursor.size == c.size
    ensures o.more ==>
      o.cursor.open && o.cursor.closes == c.closes
      && o.bytesRead == Transfer(c.size - c.offset, r.bytesToRead, r.delivered)
    ensures !o.more ==>
      !o.cursor.open && o.bytesRead == 0
      && o.cursor.closes == c.closes + (if c.open then 1 else 0)
    ensures o.cursor.offset == c.offset + o.bytesRead
    ensures c.offset <= c.size ==> o.cursor.offset <= c.size
  {
    if c.offset < c.size && r.hasOutput && c.open then
      var n := Transfer(c.size - c.offset, r.bytesToRead, r.delivered);
      ReadResult(c.(offset := c.offset + n), n, true)
    else
      ReadResult(CancelStep(c), 0, false)
  }

  /** Cancel on the cursor: close an open handle. */
  function CancelStep(c: Cursor): (o: Cursor)
    ensures !o.open && o.size == c.size && o.offset == c.offset
    ensures o.closes == c.closes + (if c.open then 1 else 0)
  {
    if c.open then c.(open := false, closes := c.closes + 1) else c
  }

  lemma CancelIdempotent(c: Cursor)
    ensures CancelStep(CancelStep(c)) == CancelStep(c)
  {
  }

  /** A sequence of ReadResponse calls: the final cursor and the bytes read. */
  function ReadAll(c: Cursor, rs: seq<ReadRequest>): (o: (Cursor, nat))
    decreases |rs|
  {
    if rs == [] then (c, 0)
    else
      var step := ReadStep(c, rs[0]);
      var rest := ReadAll(step.cursor, rs[1..]);
      (rest.0, step.bytesRead + rest.1)
  }

  /** Over any sequence of reads the offset advances by the bytes read and
      never passes the file size; the file is closed at most once. */
  lemma {:induction false} ReadAllBounded(c: Cursor, rs: seq<ReadRequest>)
    requires c.offset <= c.size
    ensures var o := ReadAll(c, rs);
      && o.0.size == c.size
      && o.0.offset == c.offset + o.1
      && c.offset + o.1 <= c.size
      && o.0.closes <= c.closes + (if c.open then 1 else 0)
      && (!c.open ==> o.1 == 0 && o.0.closes == c.closes)
    decreases |rs|
  {
    if rs != [] {
      var step := ReadStep(c, rs[0]);
      ReadAllBounded(step.cursor, rs[1..]);
    }
  }

  /** A read that finds nothing closes the file, and no later read yields
      anything or closes it again. */
  lemma ClosedStaysClosed(c: Cursor, r: ReadRequest, rs: seq<ReadRequest>)
    requires c.offset <= c.size
    requires !ReadStep(c, r).more
    ensures var after := ReadStep(c, r).cursor;
      var o := ReadAll(after, rs);
      !after.open && o.1 == 0 && o.0.closes == after.closes
  {
    ReadAllBounded(ReadStep(c, r).cursor, rs);
  }

  /** A request at least as large as the file reads it whole, and the next
      request ends the response and closes the file. */
  lemma WholeFileInOneRead(size: nat, r1: ReadRequest, r2: ReadRequest)
    requires size > 0 && r1.hasOutput && r1.bytesToRead >= size && r1.delivered >= size
    ensures var c := Cursor(true, size, 0, 0);
      var o := ReadAll(c, [r1, r2]);
      o.1 == size && o.0 == Cursor(false, size, size, 1)
      && ReadStep(c, r1).more && !ReadStep(ReadStep(c, r1).cursor, r2).more
  {
    var c := Cursor(true, size, 0, 0);
    var s1 := ReadStep(c, r1);
    assert s1.bytesRead == size;
    var s2 := ReadStep(s1.cursor, r2);
    assert [r1, r2][1..] == [r2] && [r2][1..] == [];
    assert ReadAll(s1.cursor, [r2]) == (s2.cursor, 0);
    assert ReadAll(c, [r1, r2]) == (s2.cursor, size);
  }

  // ---------------------------------------------------------------- the handler

  /** The response headers: 200 with the file size, or 404 with length 0. */
  datatype ResponseHeaders = ResponseHeaders(status: int, mimeType: string, length: int)

  class ResourceHandler {
    var open: bool
    var path: string
    var extension: string
    var mime: string
    var size: nat
    var offset: nat
    var closes: nat

    function CursorState(): Cursor
      reads this
    {
      Cursor(open, size, offset, closes)
    }

    ghost predicate Valid()
      reads this
    {
      offset <= size
    }

    constructor ()
      ensures !open && path == "" && extension == "html" && mime == ""
      ensures size == 0 && offset == 0 && closes == 0 && Valid()
    {
      open, path, extension, mime := false, "", "html", "";
      size, offset, closes := 0, 0, 0;
    }

    /** The parsing half of ProcessRequest. */
    method ParseRequest(url: string)
      modifies this`path, this`extension, this`mime
      ensures path == UrlPath(url)
      ensures extension == Extension(path)
      ensures mime == MimeType(extension)
    {
      var p := UrlPath(url);
      var e := Extension(p);
      var m := MimeType(e);
      path, extension, mime := p, e, m;
    }

    /** ProcessRequest: derive path, extension and MIME type, then open the
        file; archive maps the archive's paths to their sizes. */
    method ProcessRequest(url: string, archive: map<string, nat>) returns (handled: bool)
      modifies this`path, this`extension, this`mime, this`open, this`size
      ensures path == UrlPath(url) && extension == Extension(path) && mime == MimeType(extension)
      ensures handled == open && handled == (path in archive)
      ensures size == if handled then archive[path] else old(size)
      ensures old(offset) == 0 ==> Valid()
    {
      ParseRequest(url);
      if path !in archive {
        open := false;
        return false;
      }
      open := true;
      size := archive[path];
      return true;
    }

    method GetResponseHeaders() returns (h: ResponseHeaders)
      ensures h.mimeType == mime
      ensures open ==> h.status == 200 && h.length == size
      ensures !open ==> h.status == 404 && h.length == 0
    {
      if open {
        h := ResponseHeaders(200, mime, size);
      } else {
        h := ResponseHeaders(404, mime, 0);
      }
    }

    method Cancel()
      modifies this`open, this`closes
      ensures CursorState() == CancelStep(old(CursorState()))
    {
      if open {
        closes := closes + 1;
        open := false;
      }
    }

    method ReadResponse(hasOutput: bool, bytesToRead: nat, delivered: nat) returns (more: bool, bytesRead: nat)
      modifies this`offset, this`open, this`closes
      ensures var o := ReadStep(old(CursorState()), ReadRequest(hasOutput, bytesToRead, delivered));
        CursorState() == o.cursor && bytesRead == o.bytesRead && more == o.more
      ensures old(Valid()) ==> Valid()
    {
      more, bytesRead := false, 0;
      if offset < size && hasOutput && open {
        var transfer := Min(bytesToRead, size - offset);
        transfer := Min(transfer, delivered);
        offset := offset + transfer;
        bytesRead := transfer;
        more := true;
      }
      if !more {
        Cancel();
      }
    }
  }
}
