/** `server/http_conn.h`: the request is parsed in its buffer, and the response is built over it, piece by piece, with a
    cursor that `strlen` moves. */
module HttpConn {
  import opened CText
  import opened CBuffer
  import opened Options
  import Q = HttpRequest
  import F = FileService
  import R = HttpResponse

  const OK_HEADER: string := "HTTP/1.0 200 OK\r\n" + "Server: zerohttpd/0.1\r\n"
  const PATH_SIZE: nat := 256
  const READ_SIZE: nat := 2048

  datatype Code = GetRequest | BadRequest | NotFound

  /** The file a request path names. */
  function FinalPath(path: string): string
    requires path != ""
  {
    if path[|path| - 1] == '/' then "index.html" else path
  }

  predicate Found(fs: F.FileSystem, path: string)
    requires path != ""
  {
    FinalPath(path) in fs && fs[FinalPath(path)].Regular?
  }

  /** The headers for a file of `n` bytes. Extensions are not lower-cased here, and an unlisted one adds nothing. */
  function Headers(path: string, n: nat): string {
    OK_HEADER + ContentTypeLine(FilenameExt(path)) + ContentLengthLine(n) + "\r\n"
  }

  /** The first line of the text in a buffer, or all of it when it has no CRLF. */
  function LineOf(b: string): string {
    var text := Q.CString(b);
    text[..Q.FindCrlf(text)]
  }

  function RequestOf(b: string): Q.Request { Q.ParseLine(LineOf(b)) }

  /** The buffer once it was parsed: the line is cut off, the method lower-cased, and both tokens end in a NUL. */
  function Parsed(b: string): (r: string)
    ensures |r| == |b|
  {
    var line := CutLine(b, READ_SIZE);
    var start := WordStart(line, 0);
    var lowered := Lowered(CutWord(line, start), start);
    CutWord(lowered, WordStart(lowered, SaveAt(line, start)))
  }

  /** The text put in place of the request. */
  function ResponseTo(fs: F.FileSystem, r: Q.Request): string
    requires r.Get? ==> r.path != ""
  {
    if !r.Get? then F.UNIMPLEMENTED
    else if !Found(fs, r.path) then F.NOT_FOUND
    else
      var content := fs[FinalPath(r.path)].content;
      Headers(FinalPath(r.path), |content|) + content
  }

  predicate Missing(fs: F.FileSystem, r: Q.Request)
    requires r.Get? ==> r.path != ""
  {
    r.Get? && !Found(fs, r.path)
  }

  /** What `get_response_size` returns: for a missing file the length of the other error text. */
  function ReportedSize(fs: F.FileSystem, r: Q.Request): nat
    requires r.Get? ==> r.path != ""
  {
    if Missing(fs, r) then |F.UNIMPLEMENTED| else |ResponseTo(fs, r)|
  }

  /** The file name fits `final_path`, and the response to a file that is there fits the buffer, each with its NUL. */
  predicate Fits(fs: F.FileSystem, path: string)
    requires path != ""
  {
    var file := FinalPath(path);
    && |file| < PATH_SIZE
    && (Found(fs, path) ==> |Headers(file, |fs[file].content|)| + |fs[file].content| < READ_SIZE)
  }

  /** Requests the program is defined for. */
  predicate Answerable(fs: F.FileSystem, r: Q.Request) {
    !r.Crash? && (r.Get? ==> r.path != "" && Fits(fs, r.path))
  }

  lemma ErrorLengths()
    ensures |F.UNIMPLEMENTED| == 264 && |F.NOT_FOUND| == 226
  {
  }

  lemma AnswerFits(fs: F.FileSystem, r: Q.Request)
    requires Answerable(fs, r)
    ensures |ResponseTo(fs, r)| < READ_SIZE && ReportedSize(fs, r) <= READ_SIZE
  {
    ErrorLengths();
  }

  /** The buffer that holds a response, and the size reported for it. */
  datatype Response = Response(content: string, size: nat)

  /** `handle_request` on a text buffer, as a value. `None` is undefined behaviour: a NULL token is dereferenced, or a copy
      runs out of its array. */
  function Respond(fs: F.FileSystem, b: string): (r: Option<Response>)
    ensures r.Some? ==> |r.value.content| == |b| && r.value.size <= |b|
  {
    if |b| == READ_SIZE && '\0' in b && Answerable(fs, RequestOf(b)) then
      AnswerFits(fs, RequestOf(b));
      Some(Response(Copied(Parsed(b), 0, ResponseTo(fs, RequestOf(b))), ReportedSize(fs, RequestOf(b))))
    else None
  }

  // ----- Building -----

  /** `text` stands in front of what the buffer held. */
  ghost predicate Written(before: string, b: string, text: string) {
    |b| == |before| && |text| < |b| && b[..|text|] == text && b[|text| + 1..] == before[|text| + 1..]
  }

  /** The same, and the C string at the cursor is empty. */
  ghost predicate Built(before: string, b: string, cursor: nat, text: string) {
    cursor == |text| < |before| && b == Copied(before, 0, text)
  }

  lemma CopyBuilds(before: string, b: string, text: string, piece: string)
    requires |text| + |piece| < |b| && Written(before, b, text)
    ensures Copied(b, |text|, piece) == Copied(before, 0, text + piece)
  {
    var c := Copied(b, |text|, piece);
    assert before[..0] == "" && before[0..] == before;
    assert c[..|text| + |piece|] == text + piece;
    assert b[|text| + |piece| + 1..] == before[|text| + |piece| + 1..] by {
      TailOfTail(b, |text| + 1, |piece|);
      TailOfTail(before, |text| + 1, |piece|);
    }
  }

  lemma TailOfTail(s: string, i: nat, j: nat)
    requires i + j <= |s|
    ensures s[i + j..] == s[i..][j..]
  {
  }

  lemma BuiltIsWritten(before: string, b: string, text: string)
    requires |text| < |before| && b == Copied(before, 0, text)
    ensures Written(before, b, text) && b[|text|] == '\0'
  {
    assert before[..0] == "";
  }

  lemma OkHeaderIsFree()
    ensures Free(OK_HEADER, '\0')
  {
    assert Free("HTTP/1.0 200 OK\r\n", '\0') && Free("Server: zerohttpd/0.1\r\n", '\0');
  }

  lemma TypeLineIsFree(ext: string)
    ensures Free(ContentTypeLine(ext), '\0')
  {
    MimeIsName(ext);
    assert Free("Content-Type: ", '\0') && Free("\r\n", '\0');
  }

  lemma LengthLineIsFree(n: nat)
    ensures Free(ContentLengthLine(n), '\0')
  {
    assert Free("content-length: ", '\0') && Free("\r\n", '\0') && Free(Decimal(n), '\0');
  }

  /** An array that holds the name of a file. */
  predicate Names(b: string, name: string) { '\0' in b && Q.CString(b) == name }

  lemma CopyNames(b: string, name: string)
    requires |name| < |b| && Free(name, '\0')
    ensures Names(Copied(b, 0, name), name)
  {
    var c := Copied(b, 0, name);
    CopiedStarts(b, name);
    StrlenOfPiece(c, 0, name);
    assert c[0..] == c;
  }

  /** Requests that `parse_request` gets through. */
  predicate Parses(r: Q.Request) {
    !r.Crash? && (r.Get? ==> r.path != "" && |FinalPath(r.path)| < PATH_SIZE)
  }

  /** The code `handle_request` returns. */
  function CodeOf(fs: F.FileSystem, r: Q.Request): Code
    requires r.Get? ==> r.path != ""
  {
    if !r.Get? then BadRequest else if Found(fs, r.path) then GetRequest else NotFound
  }

  /** What `parse_request` leaves behind: the code, the name of the file and its size. */
  predicate Resolved(fs: F.FileSystem, r: Q.Request, name: string, size: nat, code: Code)
    requires r.Get? ==> r.path != ""
  {
    && code == CodeOf(fs, r)
    && (r.Get? ==> Names(name, FinalPath(r.path)))
    && (code == GetRequest ==> size == |fs[FinalPath(r.path)].content|)
  }

  lemma ResponseOf(fs: F.FileSystem, b: string, response: string)
    requires Respond(fs, b).Some? && response == ResponseTo(fs, RequestOf(b))
    ensures |response| < |b| && Respond(fs, b) == Some(Response(Copied(Parsed(b), 0, response), ReportedSize(fs, RequestOf(b))))
  {
    AnswerFits(fs, RequestOf(b));
  }

  /** A method whose `ok` comes back false has dereferenced NULL or run out of an array, at the point where it returns. */
  class HttpConnection {
    var responsePointer: nat
    var responseSize: nat
    var contentSize: nat
    const finalPath: array<char>

    constructor ()
      ensures responsePointer == 0 && finalPath.Length == PATH_SIZE && fresh(finalPath)
    {
      responsePointer, responseSize, contentSize, finalPath := 0, 0, 0, new char[PATH_SIZE];
    }

    /** `response_pointer += strlen(response_pointer);`, after `piece` was copied there. */
    method AdvanceOver(buf: array<char>, ghost before: string, ghost text: string, ghost piece: string)
      requires responsePointer == |text| && |text| + |piece| < |before| && Free(piece, '\0')
      requires buf[..] == Copied(before, 0, text + piece)
      modifies this`responsePointer
      ensures Built(before, buf[..], responsePointer, text + piece)
    {
      BuiltIsWritten(before, buf[..], text + piece);
      assert buf[..][..|text| + |piece|][|text|..] == piece;
      assert buf[..][|text|..|text| + |piece|] == piece;
      StrlenOfPiece(buf[..], |text|, piece);
      assert buf[|text|..] == buf[..][|text|..];
      var n := Strlen(buf, responsePointer);
      responsePointer := responsePointer + n;
    }

    /** `strcpy(response_pointer, piece); response_pointer += strlen(response_pointer);` */
    method Append(buf: array<char>, piece: string, ghost before: string, ghost text: string) returns (ok: bool)
      requires responsePointer == |text| && Free(piece, '\0')
      requires Written(before, buf[..], text)
      modifies buf, this`responsePointer
      ensures ok <==> |text| + |piece| < buf.Length
      ensures ok ==> Built(before, buf[..], responsePointer, text + piece)
    {
      ghost var b := buf[..];
      ok := Strcpy(buf, responsePointer, piece);
      if ok {
        CopyBuilds(before, b, text, piece);
        AdvanceOver(buf, before, text, piece);
      }
    }

    method AddContentType(buf: array<char>, ghost name: string, ghost before: string, ghost text: string)
      returns (ok: bool)
      requires Names(finalPath[..], name) && finalPath != buf
      requires Built(before, buf[..], responsePointer, text)
      modifies buf, this`responsePointer
      ensures ok <==> |text| + |ContentTypeLine(FilenameExt(name))| < buf.Length
      ensures ok ==> Built(before, buf[..], responsePointer, text + ContentTypeLine(FilenameExt(name)))
    {
      assert finalPath[0..] == finalPath[..] && finalPath[..][0..] == finalPath[..];
      var file := TextAt(finalPath, 0);
      var fileExt := FilenameExt(file);
      ghost var b, line := buf[..], ContentTypeLine(fileExt);
      TypeLineIsFree(fileExt);
      BuiltIsWritten(before, b, text);
      var type_ := MimeType(fileExt);
      ok := true;
      if type_ != "" {
        ok := Strcpy(buf, responsePointer, "Content-Type: " + type_ + "\r\n");
        if ok {
          CopyBuilds(before, b, text, line);
        }
      } else {
        assert text + line == text;
      }
      if ok {
        AdvanceOver(buf, before, text, line);
      }
    }

    method AddContentLength(buf: array<char>, ghost before: string, ghost text: string) returns (ok: bool)
      requires Built(before, buf[..], responsePointer, text)
      modifies buf, this`responsePointer
      ensures ok <==> |text| + |ContentLengthLine(contentSize)| < buf.Length
      ensures ok ==> Built(before, buf[..], responsePointer, text + ContentLengthLine(contentSize))
    {
      LengthLineIsFree(contentSize);
      BuiltIsWritten(before, buf[..], text);
      ok := Append(buf, ContentLengthLine(contentSize), before, text);
    }

    method AddHeaders(buf: array<char>, ghost name: string) returns (ok: bool)
      requires responsePointer == 0 && 0 < buf.Length
      requires Names(finalPath[..], name) && finalPath != buf
      modifies buf, this`responsePointer
      ensures ok <==> |Headers(name, contentSize)| < buf.Length
      ensures ok ==> Built(old(buf[..]), buf[..], responsePointer, Headers(name, contentSize))
    {
      OkHeaderIsFree();
      ghost var before, type_, length := buf[..], ContentTypeLine(FilenameExt(name)), ContentLengthLine(contentSize);
      assert "" + OK_HEADER == OK_HEADER;
      ok := Append(buf, OK_HEADER, before, "");
      if !ok {
        return;
      }
      ok := AddContentType(buf, name, before, OK_HEADER);
      if !ok {
        return;
      }
      ok := AddContentLength(buf, before, OK_HEADER + type_);
      if !ok {
        return;
      }
      BuiltIsWritten(before, buf[..], OK_HEADER + type_ + length);
      ok := Append(buf, "\r\n", before, OK_HEADER + type_ + length);
    }

    /** The file is read behind the headers, at most `READ_SIZE` bytes of it; its bytes may be any, so the cursor moves by
        the count of the read. */
    method AddContent(buf: array<char>, fs: F.FileSystem, ghost name: string, ghost before: string, ghost text: string)
      returns (ok: bool)
      requires Built(before, buf[..], responsePointer, text) && buf.Length <= READ_SIZE
      requires Names(finalPath[..], name) && finalPath != buf && name in fs && fs[name].Regular?
      modifies buf, this`responsePointer
      ensures ok <==> |text| + |fs[name].content| < buf.Length
      ensures ok ==> Built(before, buf[..], responsePointer, text + fs[name].content)
    {
      assert finalPath[0..] == finalPath[..] && finalPath[..][0..] == finalPath[..];
      var file := TextAt(finalPath, 0);
      var content := fs[file].content;
      var ret := if |content| < READ_SIZE then |content| else READ_SIZE;
      ghost var b := buf[..];
      BuiltIsWritten(before, b, text);
      ok := Strcpy(buf, responsePointer, content[..ret]);
      if ok {
        assert content[..ret] == content;
        CopyBuilds(before, b, text, content);
        responsePointer := responsePointer + ret;
      }
    }

    /** `parse_request` on a NUL-terminated buffer: `ok` is false where a NULL token is used and where `strcpy` runs out of
        `final_path`. */
    method ParseRequest(buf: array<char>, fs: F.FileSystem) returns (ok: bool, code: Code)
      requires 0 < buf.Length <= READ_SIZE && '\0' in buf[..]
      requires finalPath.Length == PATH_SIZE && finalPath != buf
      modifies buf, finalPath, this`contentSize
      ensures ok <==> Parses(RequestOf(old(buf[..])))
      ensures ok ==> buf[..] == Parsed(old(buf[..]))
      ensures ok ==> Resolved(fs, RequestOf(old(buf[..])), finalPath[..], contentSize, code)
    {
      ghost var r := RequestOf(buf[..]);
      code := BadRequest;
      var verb, start;
      ok, verb, start := ParseTokens(buf, r);
      if ok {
        ok, code := Dispatch(buf, verb, start, fs, r);
      }
    }

    /** `strcmp(method, "get")` and what follows it; without a path, NULL is handed to `strlen`. */
    method Dispatch(buf: array<char>, verb: string, start: int, fs: F.FileSystem, ghost r: Q.Request)
      returns (ok: bool, code: Code)
      requires r.Get? ==> r.path != ""
      requires if verb != "get" then r.Unimplemented?
               else if start < 0 then r.Crash?
               else start < buf.Length && '\0' in buf[start..] && r == Q.Get(CStringAt(buf[..], start))
      requires finalPath.Length == PATH_SIZE && finalPath != buf
      modifies finalPath, this`contentSize
      ensures ok <==> Parses(r)
      ensures ok ==> Resolved(fs, r, finalPath[..], contentSize, code)
    {
      if verb != "get" {
        return true, BadRequest;
      }
      if start < 0 {
        return false, BadRequest;
      }
      ok, code := Resolve(buf, start, fs, r);
    }

    /** The method and the path; a negative `start` is NULL. */
    method ParseTokens(buf: array<char>, ghost r: Q.Request) returns (ok: bool, verb: string, start: int)
      requires 0 < buf.Length <= READ_SIZE && '\0' in buf[..] && r == RequestOf(buf[..])
      modifies buf
      ensures ok ==> buf[..] == Parsed(old(buf[..]))
      ensures if !ok then r.Crash?
              else if verb != "get" then r.Unimplemented?
              else if start < 0 then r.Crash?
              else start < buf.Length && '\0' in buf[start..] && r == Q.Get(CStringAt(buf[..], start))
    {
      ghost var request := buf[..];
      var rc := GetFirstLine(buf, READ_SIZE);
      FirstLineIsLine(request, Q.CString(buf[..]));
      assert buf[0..] == buf[..] && buf[..][0..] == buf[..];
      var save;
      ok, verb, save := LowerWord(buf, 0);
      start := -1;
      if ok {
        assert buf[save..] == buf[..][save..];
        start := NextWord(buf, save);
      }
    }

    /** What `stat` says about the file that the path at `start` names. */
    method Resolve(buf: array<char>, start: nat, fs: F.FileSystem, ghost r: Q.Request) returns (ok: bool, code: Code)
      requires start < buf.Length && '\0' in buf[start..] && r == Q.Get(CStringAt(buf[..], start)) && r.path != ""
      requires finalPath.Length == PATH_SIZE && finalPath != buf
      modifies finalPath, this`contentSize
      ensures ok <==> Parses(r)
      ensures ok ==> Resolved(fs, r, finalPath[..], contentSize, code)
    {
      code := NotFound;
      var path := TextAt(buf, start);
      ghost var b := finalPath[..];
      if path[|path| - 1] == '/' {
        ok := Strcpy(finalPath, 0, "index.html");
      } else {
        ok := Strcpy(finalPath, 0, path);
      }
      if !ok {
        return;
      }
      CopyNames(b, FinalPath(path));
      assert finalPath[0..] == finalPath[..] && finalPath[..][0..] == finalPath[..];
      var file := TextAt(finalPath, 0);
      if file !in fs {
        return;
      }
      if fs[file].Other? {
        return;
      }
      contentSize := |fs[file].content|;
      code := GetRequest;
    }

    /** `handle_request` on a NUL-terminated buffer: the response replaces the request. */
    method HandleRequest(buf: array<char>, fs: F.FileSystem) returns (ok: bool, code: Code)
      requires buf.Length == READ_SIZE && '\0' in buf[..]
      requires finalPath.Length == PATH_SIZE && finalPath != buf
      modifies buf, finalPath, this
      ensures ok <==> Respond(fs, old(buf[..])).Some?
      ensures ok ==>
                var b := old(buf[..]);
                Respond(fs, b) == Some(Response(buf[..], responseSize)) && code == CodeOf(fs, RequestOf(b))
    {
      ghost var b := buf[..];
      ghost var r := RequestOf(b);
      RespondsIff(fs, b);
      ok, code := ParseRequest(buf, fs);
      if ok {
        ok := WriteResponse(buf, fs, code, r, ResponseTo(fs, r), ReportedSize(fs, r));
        if ok {
          ResponseOf(fs, b, ResponseTo(fs, r));
        }
      }
    }

    /** The three branches behind `parse_request`. */
    method WriteResponse(buf: array<char>, fs: F.FileSystem, code: Code, ghost r: Q.Request, ghost response: string,
                         ghost size: nat) returns (ok: bool)
      requires buf.Length == READ_SIZE && finalPath != buf
      requires Parses(r) && response == ResponseTo(fs, r) && size == ReportedSize(fs, r)
      requires Resolved(fs, r, finalPath[..], contentSize, code)
      modifies buf, this`responsePointer, this`responseSize
      ensures ok <==> Answerable(fs, r)
      ensures ok ==> |response| < buf.Length && buf[..] == Copied(old(buf[..]), 0, response) && responseSize == size
    {
      ErrorLengths();
      ok := true;
      if code == BadRequest {
        PutText(buf, F.UNIMPLEMENTED, response);
        responseSize := |F.UNIMPLEMENTED|;
      } else if code == NotFound {
        PutText(buf, F.NOT_FOUND, response);
        responseSize := |F.UNIMPLEMENTED|;
      } else {
        ok := PutFile(buf, fs, FinalPath(r.path), response);
      }
    }

    /** The branch for a file that was found. */
    method PutFile(buf: array<char>, fs: F.FileSystem, ghost name: string, ghost response: string) returns (ok: bool)
      requires Names(finalPath[..], name) && finalPath != buf && name in fs && fs[name].Regular?
      requires contentSize == |fs[name].content| && response == Headers(name, contentSize) + fs[name].content
      requires 0 < buf.Length <= READ_SIZE
      modifies buf, this`responsePointer, this`responseSize
      ensures ok <==> |response| < buf.Length
      ensures ok ==> buf[..] == Copied(old(buf[..]), 0, response) && responseSize == |response|
    {
      ghost var before := buf[..];
      responsePointer := 0;
      ok := AddHeaders(buf, name);
      if !ok {
        return;
      }
      ok := AddContent(buf, fs, name, before, Headers(name, contentSize));
      if ok {
        responseSize := responsePointer;
      }
    }

    /** `strcpy(text_buffer, text)`. */
    method PutText(buf: array<char>, text: string, ghost response: string)
      requires text == response && |text| < buf.Length
      modifies buf
      ensures buf[..] == Copied(old(buf[..]), 0, response)
    {
      var fits := Strcpy(buf, 0, text);
    }
  }

  // ----- What the parser leaves -----

  /** In a buffer of at most `READ_SIZE` characters, what `GetFirstLine` leaves is the line the request is read from. */
  lemma FirstLineIsLine(b: string, line: string)
    requires |b| <= READ_SIZE && '\0' in b
    requires var text := Q.CString(b);
             line == if Q.FindCrlf(text) < |text| && Q.FindCrlf(text) < READ_SIZE then text[..Q.FindCrlf(text)] else text
    ensures line == LineOf(b)
  {
    var text := Q.CString(b);
    assert text[..|text|] == text;
  }

  /** A C string ends at the latest at a NUL behind its start. */
  lemma EndsBefore(b: string, at: nat, last: nat)
    requires at <= last < |b| && b[last] == '\0'
    ensures at + |CStringAt(b, at)| <= last
  {
    assert b[at..][last - at] == '\0';
  }

  lemma CutWordKeeps(b: string, pos: nat, n: nat)
    requires pos <= n < |b| && b[n] == '\0'
    ensures CutWord(b, pos)[n..] == b[n..] && SaveAt(b, pos) <= n
  {
    EndsBefore(b, pos, n);
  }

  lemma LoweredKeeps(b: string, at: nat, n: nat)
    requires at <= n < |b| && b[n] == '\0'
    ensures Lowered(b, at)[n..] == b[n..]
  {
    EndsBefore(b, at, n);
  }

  lemma SameEnd(b: string, c: string, n: nat)
    requires n < |b| == |c| && c[n..] == b[n..]
    ensures c[n] == b[n] && c[n + 1..] == b[n + 1..]
  {
    assert c[n..][0] == c[n] && b[n..][0] == b[n];
    assert c[n..][1..] == c[n + 1..] && b[n..][1..] == b[n + 1..];
  }

  /** Parsing leaves everything behind the first line as it was. */
  lemma ParsedKeepsRest(b: string)
    requires |b| <= READ_SIZE && '\0' in b
    ensures var n := |LineOf(b)|; n < |b| && Parsed(b)[n + 1..] == b[n + 1..]
  {
    var n, line := |LineOf(b)|, CutLine(b, READ_SIZE);
    CutLineEnds(b);
    EndsBefore(line, 0, n);
    var start := WordStart(line, 0);
    var cut := CutWord(line, start);
    CutWordKeeps(line, start, n);
    SameEnd(line, cut, n);
    var lowered := Lowered(cut, start);
    LoweredKeeps(cut, start, n);
    SameEnd(cut, lowered, n);
    EndsBefore(lowered, SaveAt(line, start), n);
    CutWordKeeps(lowered, WordStart(lowered, SaveAt(line, start)), n);
    SameEnd(lowered, Parsed(b), n);
  }

  lemma CutLineEnds(b: string)
    requires |b| <= READ_SIZE && '\0' in b
    ensures var n := |LineOf(b)|; n < |b| && CutLine(b, READ_SIZE)[n] == '\0' && CutLine(b, READ_SIZE)[n + 1..] == b[n + 1..]
  {
    assert Find(b, '\0') < |b|;
  }

  /** Exactly the requests for which the program is undefined: a token is missing, the file name does not fit its array, or
      the response does not fit the buffer. */
  lemma UndefinedIff(fs: F.FileSystem, b: string)
    requires |b| == READ_SIZE && '\0' in b
    ensures Respond(fs, b).None? <==>
            || (exists i, j :: Q.Bare(LineOf(b), i, j))
            || (RequestOf(b).Get? && !Fits(fs, RequestOf(b).path))
  {
    Q.CrashIff(LineOf(b));
  }

  // ----- What a client gets -----

  /** The size reported for a response is its length exactly when it is not the one for a missing file. */
  lemma SizeIsLengthIff(fs: F.FileSystem, b: string)
    requires Respond(fs, b).Some?
    ensures Respond(fs, b).value.size == |ResponseTo(fs, RequestOf(b))| <==> !Missing(fs, RequestOf(b))
  {
    ErrorLengths();
  }

  /** What may follow a request line in the C string: nothing, or a CRLF and anything. */
  predicate IsTail(tail: string) { Free(tail, '\0') && (tail == "" || "\r\n" <= tail) }

  lemma LineEnds(line: string, tail: string)
    requires Free(line, '\r') && IsTail(tail)
    ensures Q.FindCrlf(line + tail) == |line| && (line + tail)[..|line|] == line
  {
    if tail == "" {
      assert line + tail == line;
      assert forall k :: 0 <= k < |line| ==> line[k] in line;
    } else {
      assert line + tail == line + "\r\n" + tail[2..];
      Q.FindCrlfBehind(line, tail[2..]);
    }
  }

  /** The request in a buffer is what was formatted into it, whatever follows the line and the terminating NUL. */
  lemma RequestOfLine(verb: string, path: string, tail: string, junk: string)
    requires Q.IsToken(verb) && Q.IsToken(path) && IsTail(tail)
    ensures var b := Q.RequestLine(verb, path) + tail + ['\0'] + junk;
            '\0' in b && RequestOf(b) == if IsGet(verb) then Q.Get(path) else Q.Unimplemented
  {
    var line := Q.RequestLine(verb, path);
    var text := line + tail;
    var b := text + ['\0'] + junk;
    Q.LineIsFree(verb, path);
    assert Free(text, '\0');
    FindBehind(text, '\0', junk);
    assert b[|text|] == '\0' && Q.CString(b) == text;
    LineEnds(line, tail);
    Q.RequestRoundTrip(verb, path, "");
  }

  function TypeHeaders(ext: string): seq<R.Header> {
    if MimeType(ext) == "" then [] else [R.TypeHeader(MimeType(ext))]
  }

  lemma OkHeaderText()
    ensures OK_HEADER == "HTTP/1.0 200 OK" + "\r\n" + R.SERVER_STRING
  {
  }

  /** Without a content type: an extension that is not listed. */
  lemma ShortHeadersParse(n: nat, content: string)
    ensures R.ParseHead(R.SERVER_STRING + (ContentLengthLine(n) + ("\r\n" + content))) ==
            Some(R.Head([R.ServerHeader(), R.LengthHeader(n)], content))
  {
    R.BlankLine(content);
    R.LengthText(n);
    R.ServerText();
    R.HeaderLine(ContentLengthLine(n), R.LengthHeader(n), "\r\n" + content, R.Head([], content));
    R.HeaderLine(R.SERVER_STRING, R.ServerHeader(), ContentLengthLine(n) + ("\r\n" + content),
      R.Head([R.LengthHeader(n)] + [], content));
    assert [R.ServerHeader()] + ([R.LengthHeader(n)] + []) == [R.ServerHeader(), R.LengthHeader(n)];
  }

  lemma HeadersParse(path: string, n: nat, content: string)
    ensures var tail := ContentTypeLine(FilenameExt(path)) + (ContentLengthLine(n) + ("\r\n" + content));
            R.ParseHead(R.SERVER_STRING + tail) ==
            Some(R.Head([R.ServerHeader()] + TypeHeaders(FilenameExt(path)) + [R.LengthHeader(n)], content))
  {
    var ext := FilenameExt(path);
    if MimeType(ext) == "" {
      ShortHeadersParse(n, content);
      var length := ContentLengthLine(n) + ("\r\n" + content);
      assert "" + length == length;
      assert [R.ServerHeader()] + [] + [R.LengthHeader(n)] == [R.ServerHeader(), R.LengthHeader(n)];
    } else {
      R.HeadersParse(ext, n, content);
      var h := R.TypeHeader(MimeType(ext));
      assert [R.ServerHeader()] + [h] + [R.LengthHeader(n)] == [R.ServerHeader(), h, R.LengthHeader(n)];
    }
  }

  lemma Regrouped(a: string, b: string, c: string, d: string, e: string, f: string, g: string)
    ensures (a + b + c) + d + e + f + g == a + b + (c + (d + (e + (f + g))))
  {
  }

  lemma HeadersSplit(path: string, content: string)
    ensures var tail := ContentTypeLine(FilenameExt(path)) + (ContentLengthLine(|content|) + ("\r\n" + content));
            Headers(path, |content|) + content == "HTTP/1.0 200 OK" + "\r\n" + (R.SERVER_STRING + tail)
  {
    OkHeaderText();
    var type_, length := ContentTypeLine(FilenameExt(path)), ContentLengthLine(|content|);
    Regrouped("HTTP/1.0 200 OK", "\r\n", R.SERVER_STRING, type_, length, "\r\n", content);
  }

  lemma TextParses(path: string, content: string)
    ensures R.ParseResponse(Headers(path, |content|) + content) == Some(R.Response("HTTP/1.0", "200", "OK",
              [R.ServerHeader()] + TypeHeaders(FilenameExt(path)) + [R.LengthHeader(|content|)], content))
  {
    HeadersParse(path, |content|, content);
    HeadersSplit(path, content);
    var tail := ContentTypeLine(FilenameExt(path)) + (ContentLengthLine(|content|) + ("\r\n" + content));
    R.OkParses(R.SERVER_STRING + tail,
      R.Head([R.ServerHeader()] + TypeHeaders(FilenameExt(path)) + [R.LengthHeader(|content|)], content));
  }

  lemma SentText(fs: F.FileSystem, b: string)
    requires Respond(fs, b).Some? && !Missing(fs, RequestOf(b))
    ensures var r := Respond(fs, b).value; r.content[..r.size] == ResponseTo(fs, RequestOf(b))
  {
    CopiedStarts(Parsed(b), ResponseTo(fs, RequestOf(b)));
  }

  lemma CopiedStarts(b: string, text: string)
    requires |text| < |b|
    ensures Copied(b, 0, text)[..|text|] == text
  {
    assert b[..0] == "";
  }

  /** `text` was sent, its NUL, and then what lies behind it in `b`, `extra` bytes beyond the text in all. */
  predicate Trailed(text: string, b: string, extra: nat, sent: string) {
    0 < extra && |text| + extra <= |b| && sent == text + ['\0'] + b[|text| + 1..|text| + extra]
  }

  lemma CopiedTrails(b: string, text: string, extra: nat, sent: string)
    requires 0 < extra && |text| + extra <= |b| && sent == Copied(b, 0, text)[..|text| + extra]
    ensures Trailed(text, b, extra, sent)
  {
    assert b[..0] == "";
  }

  lemma RespondsIff(fs: F.FileSystem, b: string)
    requires |b| == READ_SIZE && '\0' in b
    ensures Respond(fs, b).Some? <==> Answerable(fs, RequestOf(b))
  {
  }

  /** What is sent for a file parses into the file. */
  lemma FileSent(fs: F.FileSystem, b: string, path: string)
    requires path != "" && RequestOf(b) == Q.Get(path) && Respond(fs, b).Some? && Found(fs, path)
    ensures var r, file := Respond(fs, b).value, FinalPath(path);
            var content := fs[file].content;
            R.ParseResponse(r.content[..r.size]) == Some(R.Response("HTTP/1.0", "200", "OK",
              [R.ServerHeader()] + TypeHeaders(FilenameExt(file)) + [R.LengthHeader(|content|)], content))
  {
    SentText(fs, b);
    TextParses(FinalPath(path), fs[FinalPath(path)].content);
  }

  lemma MissingSize(fs: F.FileSystem, b: string)
    requires Respond(fs, b).Some? && Missing(fs, RequestOf(b))
    ensures Respond(fs, b).value.size == |ResponseTo(fs, RequestOf(b))| + 38 <= |b|
  {
    ErrorLengths();
  }

  lemma ResponseTrails(parsed: string, text: string, r: Response, sent: string)
    requires |text| + 38 == r.size <= |parsed| && r.content == Copied(parsed, 0, text) && sent == r.content[..r.size]
    ensures Trailed(text, parsed, 38, sent)
  {
    CopiedTrails(parsed, text, 38, sent);
  }

  lemma MissingContent(fs: F.FileSystem, b: string, text: string)
    requires Respond(fs, b).Some? && Missing(fs, RequestOf(b)) && text == ResponseTo(fs, RequestOf(b))
    ensures |text| + 38 <= |b| && Respond(fs, b).value.content == Copied(Parsed(b), 0, text)
  {
    MissingSize(fs, b);
    ResponseOf(fs, b, text);
  }

  lemma MissingSent(fs: F.FileSystem, b: string, text: string, sent: string)
    requires Respond(fs, b).Some? && Missing(fs, RequestOf(b)) && text == ResponseTo(fs, RequestOf(b))
    requires var r := Respond(fs, b).value; sent == r.content[..r.size]
    ensures Trailed(text, Parsed(b), 38, sent)
  {
    MissingSize(fs, b);
    MissingContent(fs, b, text);
    ResponseTrails(Parsed(b), text, Respond(fs, b).value, sent);
  }

  lemma MissingParses(b: string, sent: string)
    requires Trailed(F.NOT_FOUND, b, 38, sent)
    ensures var more := b[|F.NOT_FOUND| + 1..|F.NOT_FOUND| + 38];
            R.ParseResponse(sent) == Some(R.Response("HTTP/1.0", "404", "Not Found", [F.PageHeader()],
              F.NOT_FOUND_PAGE + (['\0'] + more)))
  {
    var more := b[|F.NOT_FOUND| + 1..|F.NOT_FOUND| + 38];
    assert sent == F.NOT_FOUND + (['\0'] + more);
    F.NotFoundParses(['\0'] + more);
  }

  lemma OtherMethodParses(sent: string)
    requires sent == F.UNIMPLEMENTED
    ensures R.ParseResponse(sent) ==
            Some(R.Response("HTTP/1.0", "400", "Bad Request", [F.PageHeader()], F.UNIMPLEMENTED_PAGE))
  {
    F.UnimplementedParses("");
    assert sent + "" == sent && F.UNIMPLEMENTED_PAGE + "" == F.UNIMPLEMENTED_PAGE;
  }

  /** `file` is what `path` names: the one index file for every path that ends in a slash, or the path itself. */
  predicate IsFileOf(file: string, path: string) {
    if path != "" && path[|path| - 1] == '/' then file == "index.html" else file == path
  }

  /** Whatever is in the buffer: the status sent is 200 exactly for a GET of a file that is there. For any other GET it is
      404, with a NUL and 37 bytes of the buffer behind the page, and for any other method 400. The code returned agrees. */
  lemma StatusSent(fs: F.FileSystem, b: string, file: string, sent: string)
    requires Respond(fs, b).Some? && (RequestOf(b).Get? ==> IsFileOf(file, RequestOf(b).path))
    requires var r := Respond(fs, b).value; sent == r.content[..r.size]
    ensures var r, response := RequestOf(b), R.ParseResponse(sent);
            && R.StatusCode(sent) == Some(if !r.Get? then "400" else if F.IsThere(fs, file) then "200" else "404")
            && CodeOf(fs, r) == (if !r.Get? then BadRequest else if F.IsThere(fs, file) then GetRequest else NotFound)
            && (r.Get? && !F.IsThere(fs, file) ==>
                  && Trailed(F.NOT_FOUND, Parsed(b), 38, sent)
                  && response == Some(R.Response("HTTP/1.0", "404", "Not Found", [F.PageHeader()],
                       F.NOT_FOUND_PAGE + (['\0'] + Parsed(b)[|F.NOT_FOUND| + 1..|F.NOT_FOUND| + 38]))))
            && (!r.Get? ==>
                  response == Some(R.Response("HTTP/1.0", "400", "Bad Request", [F.PageHeader()], F.UNIMPLEMENTED_PAGE)))
  {
    var r := RequestOf(b);
    if !r.Get? {
      SentText(fs, b);
      OtherMethodParses(sent);
    } else if F.IsThere(fs, file) {
      FileSent(fs, b, r.path);
    } else {
      MissingSent(fs, b, F.NOT_FOUND, sent);
      MissingParses(Parsed(b), sent);
    }
    R.CodeOfParsed(sent);
  }

  lemma TypeHeadersIff(ext: string)
    ensures TypeHeaders(ext) == [] <==> !IsListed(ext)
    ensures forall mime :: IsTypeOf(mime, ext) ==> TypeHeaders(ext) == [R.TypeHeader(mime)]
  {
    MimeIsType(ext);
    forall mime | IsTypeOf(mime, ext) ensures TypeHeaders(ext) == [R.TypeHeader(mime)] {
      R.TypeIsListed(mime, ext);
    }
  }

  /** A well-formed GET request in a buffer is answered exactly when the file name and the response fit. For a file that is
      there the bytes then sent from the buffer parse into the length and the bytes of that file, and a content type exactly
      when the extension is listed as it stands. */
  lemma InPlaceRoundTrip(
      fs: F.FileSystem, b: string, verb: string, path: string, tail: string, junk: string, file: string)
    requires Q.IsToken(verb) && IsGet(verb) && Q.IsToken(path) && IsTail(tail) && IsFileOf(file, path)
    requires b == Q.RequestLine(verb, path) + tail + ['\0'] + junk && |b| == READ_SIZE
    ensures RequestOf(b) == Q.Get(path) && (Respond(fs, b).Some? <==> Fits(fs, path))
    ensures F.IsThere(fs, file) && Fits(fs, path) ==>
      var r := Respond(fs, b).value;
      var content, ext := fs[file].content, FilenameExt(file);
      && R.ParseResponse(r.content[..r.size]) == Some(R.Response("HTTP/1.0", "200", "OK",
           [R.ServerHeader()] + TypeHeaders(ext) + [R.LengthHeader(|content|)], content))
      && ParseDecimal(R.LengthHeader(|content|).value) == |content|
      && (TypeHeaders(ext) == [] <==> !IsListed(ext))
      && (forall mime :: IsTypeOf(mime, ext) ==> TypeHeaders(ext) == [R.TypeHeader(mime)])
  {
    RequestOfLine(verb, path, tail, junk);
    RespondsIff(fs, b);
    if F.IsThere(fs, file) && Fits(fs, path) {
      FileSent(fs, b, path);
      DecimalRoundTrip(|fs[file].content|);
      TypeHeadersIff(FilenameExt(file));
    }
  }
}
