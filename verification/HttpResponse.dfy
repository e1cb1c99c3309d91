/** The response of `demo/uring_server.c` to a request for a file: six buffers sent by one vectored write, read back by
    a parser for the Full-Response of HTTP/1.0, sections 6, 7 and 10 of RFC 1945. */
module HttpResponse {
  import opened CText
  import opened Options
  import Q = HttpRequest

  const STATUS_LINE: string := "HTTP/1.0 200 OK\r\n"
  const SERVER_STRING: string := "Server: zerohttpd/0.1\r\n"

  /** The size of `final_path` and of `small_case_path`. */
  const PATH_SIZE: nat := 1024

  /** The buffers of the vector: status line, server, content type, content length, blank line, file. For an extension
      that is not listed `send_headers` copies the C string its uninitialised buffer happens to hold; `junk` are the
      contents of that buffer. */
  function Buffers(path: string, content: string, junk: string): (iov: seq<string>)
    ensures |iov| == 6
  {
    var line := ContentTypeLine(FilenameExt(Lower(path)));
    [STATUS_LINE, SERVER_STRING, if line == "" then Q.CString(junk) else line, ContentLengthLine(|content|), "\r\n", content]
  }

  function Joined(iov: seq<string>): string {
    if iov == [] then "" else iov[0] + Joined(iov[1..])
  }

  /** The C string in `send_buffer` behind the chain of comparisons, or `None` when no NUL ends it. */
  function TypeLine(fileExt: string, junk: string): Option<string> {
    if ContentTypeLine(fileExt) != "" then Some(ContentTypeLine(fileExt))
    else if '\0' in junk then Some(Q.CString(junk))
    else None
  }

  /** Nothing runs out of its array: the path fits `small_case_path`, and `strlen` finds a NUL in `send_buffer`. */
  predicate Sendable(path: string, junk: string) {
    |path| < PATH_SIZE && TypeLine(FilenameExt(Lower(path)), junk).Some?
  }

  /** The chain of comparisons on the extension. */
  method PickContentType(fileExt: string, junk: string) returns (sendBuffer: Option<string>)
    ensures sendBuffer == TypeLine(fileExt, junk)
  {
    sendBuffer := if '\0' in junk then Some(Q.CString(junk)) else None;
    if "jpg" == fileExt { sendBuffer := Some("Content-Type: " + "image/jpeg" + "\r\n"); }
    if "jpeg" == fileExt { sendBuffer := Some("Content-Type: " + "image/jpeg" + "\r\n"); }
    if "png" == fileExt { sendBuffer := Some("Content-Type: " + "image/png" + "\r\n"); }
    if "gif" == fileExt { sendBuffer := Some("Content-Type: " + "image/gif" + "\r\n"); }
    if "htm" == fileExt { sendBuffer := Some("Content-Type: " + "text/html" + "\r\n"); }
    if "html" == fileExt { sendBuffer := Some("Content-Type: " + "text/html" + "\r\n"); }
    if "js" == fileExt { sendBuffer := Some("Content-Type: " + "application/javascript" + "\r\n"); }
    if "css" == fileExt { sendBuffer := Some("Content-Type: " + "text/css" + "\r\n"); }
    if "txt" == fileExt { sendBuffer := Some("Content-Type: " + "text/plain" + "\r\n"); }
  }

  /** `send_headers`: five buffers, each a copy of exactly the text without its NUL. A path that is too long runs out of
      `small_case_path`, and a `send_buffer` without a NUL is read past its end; nothing is known of what follows. */
  method SendHeaders(path: string, content: string, junk: string, iov: array<string>) returns (fits: bool)
    requires iov.Length >= 5
    modifies iov
    ensures fits <==> Sendable(path, junk)
    ensures fits ==> iov[..5] == Buffers(path, content, junk)[..5]
    ensures iov[5..] == old(iov[5..])
  {
    fits := |path| < PATH_SIZE;
    if !fits {
      return;
    }
    iov[0] := STATUS_LINE;
    iov[1] := SERVER_STRING;
    var typeLine := PickContentType(FilenameExt(Lower(path)), junk);
    if typeLine.None? {
      return false;
    }
    iov[2] := typeLine.value;
    var sendBuffer := "content-length: " + Decimal(|content|) + "\r\n";
    iov[3] := sendBuffer;
    sendBuffer := "\r\n";
    iov[4] := sendBuffer;
  }

  /** The file branch of `handle_get_method`; `read` returns the whole file. */
  method BuildResponse(path: string, content: string, junk: string) returns (fits: bool, iov: array<string>)
    ensures fits <==> Sendable(path, junk)
    ensures fits ==> iov[..] == Buffers(path, content, junk)
  {
    iov := new string[6](_ => "");
    fits := SendHeaders(path, content, junk, iov);
    iov[5] := content;
    assert iov[..] == iov[..5] + [iov[5]];
  }

  // ----- The parser -----

  datatype Split = Split(line: string, rest: string)

  datatype Header = Header(name: string, value: string)

  datatype Head = Head(headers: seq<Header>, body: string)

  datatype Response = Response(version: string, status: string, reason: string, headers: seq<Header>, body: string)

  /** A line up to CRLF, and what follows. */
  function NextLine(s: string): Option<Split> {
    var i := Find(s, '\r');
    if i + 1 < |s| && s[i + 1] == '\n' then Some(Split(s[..i], s[i + 2..])) else None
  }

  /** A text up to `c`, and what follows. */
  function SplitAt(s: string, c: char): Option<Split> {
    var i := Find(s, c);
    if i < |s| then Some(Split(s[..i], s[i + 1..])) else None
  }

  function TrimLeft(s: string): string
    decreases |s|
  {
    if s != [] && (s[0] == ' ' || s[0] == '\t') then TrimLeft(s[1..]) else s
  }

  /** Header lines up to the blank line. */
  function ParseHead(s: string): Option<Head>
    decreases |s|
  {
    match NextLine(s)
    case None => None
    case Some(Split(line, rest)) =>
      if line == "" then Some(Head([], rest))
      else match SplitAt(line, ':')
        case None => None
        case Some(Split(name, value)) =>
          match ParseHead(rest)
          case None => None
          case Some(Head(headers, body)) => Some(Head([Header(name, TrimLeft(value))] + headers, body))
  }

  function ParseResponse(s: string): Option<Response> {
    match NextLine(s)
    case None => None
    case Some(Split(line, rest)) =>
      match SplitAt(line, ' ')
      case None => None
      case Some(Split(version, tail)) =>
        match SplitAt(tail, ' ')
        case None => None
        case Some(Split(status, reason)) =>
          match ParseHead(rest)
          case None => None
          case Some(Head(headers, body)) => Some(Response(version, status, reason, headers, body))
  }

  /** The status code of a Status-Line. */
  function StatusCode(s: string): Option<string> {
    match NextLine(s)
    case None => None
    case Some(Split(line, _)) =>
      match SplitAt(line, ' ')
      case None => None
      case Some(Split(_, tail)) =>
        match SplitAt(tail, ' ')
        case None => None
        case Some(Split(status, _)) => Some(status)
  }

  lemma CodeOfParsed(s: string)
    requires ParseResponse(s).Some?
    ensures StatusCode(s) == Some(ParseResponse(s).value.status)
  {
  }

  // ----- The round trip -----

  lemma NextLineOf(line: string, rest: string)
    requires Free(line, '\r')
    ensures NextLine(line + "\r\n" + rest) == Some(Split(line, rest))
  {
    var s := line + "\r\n" + rest;
    assert s == line + ['\r'] + ("\n" + rest);
    FindBehind(line, '\r', "\n" + rest);
    assert s[|line| + 1] == '\n' && s[..|line|] == line && s[|line| + 2..] == rest;
  }

  lemma SplitAtOf(a: string, c: char, b: string)
    requires Free(a, c)
    ensures SplitAt(a + [c] + b, c) == Some(Split(a, b))
  {
    FindBehind(a, c, b);
    var s := a + [c] + b;
    assert s[..|a|] == a && s[|a| + 1..] == b;
  }

  /** One header line splits into its name and its value. */
  lemma HeaderSplits(name: string, value: string)
    requires Free(name, ':') && value != [] && value[0] != ' ' && value[0] != '\t'
    ensures var s := SplitAt(name + ": " + value, ':');
            s.Some? && s.value.line == name && TrimLeft(s.value.rest) == value
  {
    assert name + ": " + value == name + [':'] + (" " + value);
    SplitAtOf(name, ':', " " + value);
    assert (" " + value)[1..] == value;
  }

  /** `text` is a header line that names `h` and ends in CRLF. */
  ghost predicate HeaderText(text: string, h: Header) {
    && text == h.name + ": " + h.value + "\r\n"
    && Free(h.name, ':') && Free(h.name, '\r') && Free(h.value, '\r')
    && h.name != "" && h.value != "" && h.value[0] != ' ' && h.value[0] != '\t'
  }

  /** One header line in front of parsed headers. */
  lemma HeaderLine(text: string, h: Header, rest: string, head: Head)
    requires HeaderText(text, h) && ParseHead(rest) == Some(head)
    ensures ParseHead(text + rest) == Some(Head([h] + head.headers, head.body))
  {
    var line := h.name + ": " + h.value;
    assert text + rest == line + "\r\n" + rest;
    NextLineOf(line, rest);
    HeaderSplits(h.name, h.value);
  }

  lemma BlankLine(body: string)
    ensures ParseHead("\r\n" + body) == Some(Head([], body))
  {
    NextLineOf("", body);
    assert "" + "\r\n" + body == "\r\n" + body;
  }

  /** Three header lines, a blank line and a body. */
  lemma ThreeHeaders(a: string, b: string, c: string, h: Header, i: Header, j: Header, body: string)
    requires HeaderText(a, h) && HeaderText(b, i) && HeaderText(c, j)
    ensures ParseHead(a + (b + (c + ("\r\n" + body)))) == Some(Head([h, i, j], body))
  {
    BlankLine(body);
    HeaderLine(c, j, "\r\n" + body, Head([], body));
    HeaderLine(b, i, c + ("\r\n" + body), Head([j] + [], body));
    HeaderLine(a, h, b + (c + ("\r\n" + body)), Head([i] + ([j] + []), body));
    assert [h] + ([i] + ([j] + [])) == [h, i, j];
  }

  lemma StatusLineSplits(version: string, status: string, reason: string)
    requires Free(version, ' ') && Free(status, ' ')
    ensures SplitAt(version + " " + status + " " + reason, ' ') == Some(Split(version, status + " " + reason))
    ensures SplitAt(status + " " + reason, ' ') == Some(Split(status, reason))
  {
    assert version + " " + status + " " + reason == version + [' '] + (status + " " + reason);
    SplitAtOf(version, ' ', status + " " + reason);
    SplitAtOf(status, ' ', reason);
  }

  lemma StatusSplits(line: string, version: string, status: string, reason: string, rest: string, head: Head)
    requires Free(version, ' ') && Free(status, ' ') && Free(line, '\r')
    requires line == version + " " + status + " " + reason && ParseHead(rest) == Some(head)
    ensures ParseResponse(line + "\r\n" + rest) == Some(Response(version, status, reason, head.headers, head.body))
  {
    NextLineOf(line, rest);
    StatusLineSplits(version, status, reason);
  }

  lemma CodeSplits(line: string, version: string, status: string, reason: string, rest: string)
    requires Free(version, ' ') && Free(status, ' ') && Free(line, '\r')
    requires line == version + " " + status + " " + reason
    ensures StatusCode(line + "\r\n" + rest) == Some(status)
  {
    NextLineOf(line, rest);
    StatusLineSplits(version, status, reason);
  }

  lemma JoinedSix(s: seq<string>)
    requires |s| == 6
    ensures Joined(s) == s[0] + (s[1] + (s[2] + (s[3] + (s[4] + s[5]))))
  {
    assert Joined(s[5..]) == s[5] + Joined(s[6..]) == s[5];
    assert s[4..][1..] == s[5..] && Joined(s[4..]) == s[4] + s[5];
    assert s[3..][1..] == s[4..] && Joined(s[3..]) == s[3] + (s[4] + s[5]);
    assert s[2..][1..] == s[3..] && Joined(s[2..]) == s[2] + (s[3] + (s[4] + s[5]));
    assert s[1..][1..] == s[2..] && Joined(s[1..]) == s[1] + (s[2] + (s[3] + (s[4] + s[5])));
    assert s[0..][1..] == s[1..] && s[0..] == s;
  }

  function ServerHeader(): Header { Header("Server", "zerohttpd/0.1") }

  function TypeHeader(mime: string): Header { Header("Content-Type", mime) }

  function LengthHeader(n: nat): Header { Header("content-length", Decimal(n)) }

  lemma ServerText()
    ensures HeaderText(SERVER_STRING, ServerHeader())
  {
    assert "Server" + ": " + "zerohttpd/0.1" + "\r\n" == "Server: zerohttpd/0.1\r\n";
  }

  lemma TypeLineText(mime: string)
    ensures "Content-Type: " + mime + "\r\n" == TypeHeader(mime).name + ": " + mime + "\r\n"
    ensures Free(TypeHeader(mime).name, ':') && Free(TypeHeader(mime).name, '\r') && TypeHeader(mime).name != ""
  {
    assert "Content-Type" + ": " == "Content-Type: ";
  }

  lemma TypeText(ext: string)
    requires MimeType(ext) != ""
    ensures HeaderText(ContentTypeLine(ext), TypeHeader(MimeType(ext)))
  {
    var mime := MimeType(ext);
    MimeIsName(ext);
    assert mime[0] in mime;
    TypeLineText(mime);
  }

  lemma LengthText(n: nat)
    ensures HeaderText(ContentLengthLine(n), LengthHeader(n))
  {
    assert "content-length" + ": " == "content-length: ";
  }

  lemma StatusText()
    ensures "HTTP/1.0 200 OK" == "HTTP/1.0" + " " + "200" + " " + "OK"
    ensures Free("HTTP/1.0", ' ') && Free("200", ' ') && Free("HTTP/1.0 200 OK", '\r')
  {
  }

  /** The status line of a successful response, in front of parsed headers. */
  lemma OkParses(rest: string, head: Head)
    requires ParseHead(rest) == Some(head)
    ensures ParseResponse("HTTP/1.0 200 OK" + "\r\n" + rest) ==
            Some(Response("HTTP/1.0", "200", "OK", head.headers, head.body))
  {
    StatusText();
    StatusSplits("HTTP/1.0 200 OK", "HTTP/1.0", "200", "OK", rest, head);
  }

  /** The headers of a response to a file of `n` bytes, in its own buffers. */
  lemma HeadersParse(ext: string, n: nat, content: string)
    requires MimeType(ext) != ""
    ensures ParseHead(SERVER_STRING + (ContentTypeLine(ext) + (ContentLengthLine(n) + ("\r\n" + content))))
            == Some(Head([ServerHeader(), TypeHeader(MimeType(ext)), LengthHeader(n)], content))
  {
    ServerText();
    TypeText(ext);
    LengthText(n);
    ThreeHeaders(SERVER_STRING, ContentTypeLine(ext), ContentLengthLine(n),
      ServerHeader(), TypeHeader(MimeType(ext)), LengthHeader(n), content);
  }

  lemma JoinedBuffers(path: string, content: string, junk: string, line: string)
    requires line == Buffers(path, content, junk)[2]
    ensures Joined(Buffers(path, content, junk)) == "HTTP/1.0 200 OK" + "\r\n" + (SERVER_STRING +
              (line + (ContentLengthLine(|content|) + ("\r\n" + content))))
  {
    JoinedSix(Buffers(path, content, junk));
    assert STATUS_LINE == "HTTP/1.0 200 OK" + "\r\n";
  }

  /** Whatever the file, if its lower-cased name ends in a listed extension, a client that joins the six buffers and parses
      them recovers status 200, the content type of that extension, the length of the file and the file itself. */
  lemma ResponseRoundTrip(path: string, content: string, junk: string, mime: string)
    requires IsTypeOf(mime, FilenameExt(Lower(path)))
    ensures ParseDecimal(LengthHeader(|content|).value) == |content|
    ensures ParseResponse(Joined(Buffers(path, content, junk))) == Some(Response(
              "HTTP/1.0", "200", "OK", [ServerHeader(), TypeHeader(mime), LengthHeader(|content|)], content))
  {
    var ext := FilenameExt(Lower(path));
    MimeIsType(ext);
    TypeIsListed(mime, ext);
    DecimalRoundTrip(|content|);
    JoinedBuffers(path, content, junk, ContentTypeLine(ext));
    HeadersParse(ext, |content|, content);
    OkParses(SERVER_STRING + (ContentTypeLine(ext) + (ContentLengthLine(|content|) + ("\r\n" + content))),
      Head([ServerHeader(), TypeHeader(mime), LengthHeader(|content|)], content));
  }

  lemma TypeIsListed(mime: string, ext: string)
    requires IsTypeOf(mime, ext)
    ensures IsListed(ext) && MimeType(ext) == mime && mime != ""
  {
    MimeIsType(ext);
  }

  /** Whatever the buffers hold, the status is 200. */
  lemma BuffersStatus(path: string, content: string, junk: string)
    ensures StatusCode(Joined(Buffers(path, content, junk))) == Some("200")
  {
    var line := Buffers(path, content, junk)[2];
    JoinedBuffers(path, content, junk, line);
    StatusText();
    CodeSplits("HTTP/1.0 200 OK", "HTTP/1.0", "200", "OK",
      SERVER_STRING + (line + (ContentLengthLine(|content|) + ("\r\n" + content))));
  }

  /** The headers around what the uninitialised buffer holds, when that is a header line. */
  lemma JunkHeaders(junk: string, h: Header, n: nat, content: string)
    requires HeaderText(Q.CString(junk), h)
    ensures ParseHead(SERVER_STRING + (Q.CString(junk) + (ContentLengthLine(n) + ("\r\n" + content)))) ==
            Some(Head([ServerHeader(), h, LengthHeader(n)], content))
  {
    ServerText();
    LengthText(n);
    ThreeHeaders(SERVER_STRING, Q.CString(junk), ContentLengthLine(n), ServerHeader(), h, LengthHeader(n), content);
  }

  /** For an extension that is not listed a client is sent a header the program never wrote: any that the uninitialised
      buffer happens to hold. */
  lemma JunkIsSent(path: string, content: string, junk: string, h: Header)
    requires !IsListed(FilenameExt(Lower(path))) && HeaderText(Q.CString(junk), h)
    ensures ParseResponse(Joined(Buffers(path, content, junk))) == Some(Response(
              "HTTP/1.0", "200", "OK", [ServerHeader(), h, LengthHeader(|content|)], content))
  {
    JoinedBuffers(path, content, junk, Q.CString(junk));
    JunkHeaders(junk, h, |content|, content);
    OkParses(SERVER_STRING + (Q.CString(junk) + (ContentLengthLine(|content|) + ("\r\n" + content))),
      Head([ServerHeader(), h, LengthHeader(|content|)], content));
  }

  /** A status line, one header, a blank line and a body. */
  lemma PageParses(text: string, line: string, version: string, status: string, reason: string, header: string,
                   h: Header, body: string)
    requires text == line + "\r\n" + (header + ("\r\n" + body)) && line == version + " " + status + " " + reason
    requires Free(version, ' ') && Free(status, ' ') && Free(line, '\r') && HeaderText(header, h)
    ensures ParseResponse(text) == Some(Response(version, status, reason, [h], body))
    ensures StatusCode(text) == Some(status)
  {
    BlankLine(body);
    HeaderLine(header, h, "\r\n" + body, Head([], body));
    assert [h] + [] == [h];
    StatusSplits(line, version, status, reason, header + ("\r\n" + body), Head([h], body));
    CodeSplits(line, version, status, reason, header + ("\r\n" + body));
  }
}
