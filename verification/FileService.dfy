/** From a request to the bytes of a file and back: `demo/uring_server.c` seen from the client. */
module FileService {
  import opened CText
  import opened Options
  import Q = HttpRequest
  import R = HttpResponse

  datatype Node = Regular(content: string) | Other

  type FileSystem = map<string, Node>

  const UNIMPLEMENTED_PAGE: string :=
    "<html>" + "<head>" + "<title>ZeroHTTPd: Unimplemented</title>" + "</head>" + "<body>" +
    "<h1>Bad Request (Unimplemented)</h1>" +
    "<p>Your client sent a request ZeroHTTPd did not understand and it is probably not your fault.</p>" +
    "</body>" + "</html>"

  const NOT_FOUND_PAGE: string :=
    "<html>" + "<head>" + "<title>ZeroHTTPd: Not Found</title>" + "</head>" + "<body>" + "<h1>Not Found (404)</h1>" +
    "<p>Your client is asking for an object that was not found on this server.</p>" + "</body>" + "</html>"

  const UNIMPLEMENTED: string :=
    "HTTP/1.0 400 Bad Request\r\n" + "Content-type: text/html\r\n" + "\r\n" + UNIMPLEMENTED_PAGE

  const NOT_FOUND: string :=
    "HTTP/1.0 404 Not Found\r\n" + "Content-type: text/html\r\n" + "\r\n" + NOT_FOUND_PAGE

  /** The file a path stands for: a path that ends in a slash means the index file. */
  function FinalPath(path: string): string
    requires path != ""
  {
    "public" + path + if path[|path| - 1] == '/' then "index.html" else ""
  }

  /** What becomes of a request: the program ends, is undefined, or queues the write of these buffers. */
  datatype Outcome = Exits | Undefined | Sends(iov: seq<string>)

  /** The name of the file fits `final_path` with its NUL. */
  predicate PathFits(path: string)
    requires path != ""
  {
    |FinalPath(path)| < R.PATH_SIZE
  }

  predicate IsThere(fs: FileSystem, file: string) { file in fs && fs[file].Regular? }

  predicate Found(fs: FileSystem, path: string)
    requires path != ""
  {
    IsThere(fs, FinalPath(path))
  }

  /** `handle_get_method`; a path that is too long runs out of `final_path`, and for a file whose extension is not listed
      the type line is read from an uninitialised buffer, `junk`. */
  function AnswerGet(fs: FileSystem, path: string, junk: string): Outcome
    requires path != ""
  {
    if !PathFits(path) then Undefined
    else if !Found(fs, path) then Sends([NOT_FOUND])
    else if !R.Sendable(FinalPath(path), junk) then Undefined
    else Sends(R.Buffers(FinalPath(path), fs[FinalPath(path)].content, junk))
  }

  /** `handle_http_method`; a NULL token is dereferenced, or an answer is queued. */
  function Answer(fs: FileSystem, r: Q.Request, junk: string): Outcome
    requires r.Get? ==> r.path != ""
  {
    match r
    case Crash => Undefined
    case Unimplemented => Sends([UNIMPLEMENTED])
    case Get(path) => AnswerGet(fs, path, junk)
  }

  /** `handle_client_request` on what was read into a buffer. */
  function Serve(fs: FileSystem, src: string, junk: string): Outcome {
    match Q.ReadingOf(src)
    case Malformed => Exits
    case Read(r) => Answer(fs, r, junk)
  }

  method HandleGetMethod(path: string, fs: FileSystem, junk: string) returns (o: Outcome)
    requires path != ""
    ensures o == AnswerGet(fs, path, junk)
  {
    var finalPath := "public" + path;
    assert finalPath + "" == finalPath;
    if path[|path| - 1] == '/' {
      finalPath := finalPath + "index.html";
    }
    assert finalPath == FinalPath(path);
    if |finalPath| >= R.PATH_SIZE {
      return Undefined;
    }
    if finalPath !in fs || fs[finalPath].Other? {
      return Sends([NOT_FOUND]);
    }
    var fits, iov := R.BuildResponse(finalPath, fs[finalPath].content, junk);
    o := if fits then Sends(iov[..]) else Undefined;
  }

  method HandleClientRequest(src: string, fs: FileSystem, junk: string) returns (o: Outcome)
    requires Q.LINE_SIZE < |src|
    ensures o == Serve(fs, src, junk)
  {
    var reading := Q.ReadRequest(src);
    match reading {
      case Malformed => o := Exits;
      case Read(Crash) => o := Undefined;
      case Read(Unimplemented) => o := Sends([UNIMPLEMENTED]);
      case Read(Get(path)) => o := HandleGetMethod(path, fs, junk);
    }
  }

  /** A file that is there, with an extension that is not listed, while no NUL is in the uninitialised buffer. */
  predicate RunsOn(fs: FileSystem, path: string, junk: string)
    requires path != ""
  {
    Found(fs, path) && !IsListed(FilenameExt(Lower(FinalPath(path)))) && '\0' !in junk
  }

  /** Texts the program is undefined for. The line has not the tokens it needs, the path does not fit, or the type line has
      no end. */
  ghost predicate Unanswerable(fs: FileSystem, src: string, junk: string) {
    && Q.FindCrlf(src) < Q.LINE_SIZE
    && var r := Q.ParseLine(Q.LineOf(src));
       (exists i, j :: Q.Bare(Q.LineOf(src), i, j)) || (r.Get? && (!PathFits(r.path) || RunsOn(fs, r.path, junk)))
  }

  lemma SendableIff(fs: FileSystem, path: string, junk: string)
    requires path != "" && PathFits(path) && Found(fs, path)
    ensures R.Sendable(FinalPath(path), junk) <==> !RunsOn(fs, path, junk)
  {
    assert ContentTypeLine(FilenameExt(Lower(FinalPath(path)))) == "" <==>
           MimeType(FilenameExt(Lower(FinalPath(path)))) == "";
  }

  lemma AnswerIff(fs: FileSystem, path: string, junk: string)
    requires path != ""
    ensures !AnswerGet(fs, path, junk).Exits?
    ensures AnswerGet(fs, path, junk).Undefined? <==> !PathFits(path) || RunsOn(fs, path, junk)
  {
    if PathFits(path) && Found(fs, path) { SendableIff(fs, path, junk); }
  }

  lemma RequestIff(fs: FileSystem, r: Q.Request, junk: string)
    requires r.Get? ==> r.path != ""
    ensures !Answer(fs, r, junk).Exits?
    ensures Answer(fs, r, junk).Undefined? <==> r.Crash? || (r.Get? && (!PathFits(r.path) || RunsOn(fs, r.path, junk)))
  {
    if r.Get? { AnswerIff(fs, r.path, junk); }
  }

  /** Exactly when the program ends, on a line that is too long, or is undefined. */
  lemma ServeIff(fs: FileSystem, src: string, junk: string)
    ensures Serve(fs, src, junk).Exits? <==> Q.FindCrlf(src) >= Q.LINE_SIZE
    ensures Serve(fs, src, junk).Undefined? <==> Unanswerable(fs, src, junk)
  {
    var line := Q.LineOf(src);
    Q.CrashIff(line);
    RequestIff(fs, Q.ParseLine(line), junk);
  }

  /** The response that a client can read out of the buffers: the file, its length and its type. */
  predicate ParsesInto(iov: seq<string>, mime: string, content: string) {
    R.ParseResponse(R.Joined(iov)) == Some(R.Response("HTTP/1.0", "200", "OK",
      [R.ServerHeader(), R.TypeHeader(mime), R.LengthHeader(|content|)], content))
  }

  /** `file` is the file below `public` that `path` names: the index of a directory, or itself. */
  predicate IsFileOf(file: string, path: string) {
    if path != "" && path[|path| - 1] == '/' then file == "public" + (path + "index.html") else file == "public" + path
  }

  lemma FileIsFinal(file: string, path: string)
    requires path != "" && IsFileOf(file, path)
    ensures file == FinalPath(path)
  {
    assert "public" + path + "" == "public" + path;
    assert "public" + path + "index.html" == "public" + (path + "index.html");
  }

  lemma FoundAnswer(fs: FileSystem, path: string, junk: string)
    requires path != "" && PathFits(path) && Found(fs, path) && IsListed(FilenameExt(Lower(FinalPath(path))))
    ensures AnswerGet(fs, path, junk) == Sends(R.Buffers(FinalPath(path), fs[FinalPath(path)].content, junk))
  {
    SendableIff(fs, path, junk);
  }

  lemma LineServed(fs: FileSystem, verb: string, path: string, rest: string, junk: string)
    requires Q.IsToken(verb) && Q.IsToken(path)
    ensures var src := Q.RequestLine(verb, path) + "\r\n" + rest;
            && Q.FindCrlf(src) == |Q.RequestLine(verb, path)|
            && Q.ParseLine(Q.LineOf(src)) == (if IsGet(verb) then Q.Get(path) else Q.Unimplemented)
            && Serve(fs, src, junk) ==
               if |Q.RequestLine(verb, path)| >= Q.LINE_SIZE then Exits
               else Answer(fs, if IsGet(verb) then Q.Get(path) else Q.Unimplemented, junk)
  {
    Q.RequestRoundTrip(verb, path, rest);
  }

  /** A client that asks for a file with a well-formed GET request, whatever the case of the method and whatever follows the
      line in the buffer, gets back what it can parse into that file exactly when the line and the path fit their arrays. */
  lemma GetReturnsFile(
      fs: FileSystem, verb: string, path: string, rest: string, junk: string, file: string, mime: string)
    requires Q.IsToken(verb) && IsGet(verb) && Q.IsToken(path) && IsFileOf(file, path)
    requires IsThere(fs, file) && IsTypeOf(mime, FilenameExt(Lower(file)))
    ensures var o, line := Serve(fs, Q.RequestLine(verb, path) + "\r\n" + rest, junk), Q.RequestLine(verb, path);
            && (o.Undefined? <==> |line| < Q.LINE_SIZE && |file| >= R.PATH_SIZE)
            && (o.Exits? <==> |line| >= Q.LINE_SIZE)
            && (|line| < Q.LINE_SIZE && |file| < R.PATH_SIZE <==> o.Sends? && ParsesInto(o.iov, mime, fs[file].content))
  {
    FileIsFinal(file, path);
    LineServed(fs, verb, path, rest, junk);
    R.TypeIsListed(mime, FilenameExt(Lower(file)));
    if PathFits(path) { FoundAnswer(fs, path, junk); }
    R.ResponseRoundTrip(file, fs[file].content, junk, mime);
  }

  // ----- Which status a client gets -----

  function PageHeader(): R.Header { R.Header("Content-type", "text/html") }

  lemma PageHeaderText()
    ensures R.HeaderText("Content-type: text/html\r\n", PageHeader())
  {
    assert "Content-type" + ": " == "Content-type: ";
    assert "Content-type: " + "text/html" + "\r\n" == "Content-type: text/html\r\n";
    assert Free("Content-type", ':') && Free("Content-type", '\r') && Free("text/html", '\r');
  }

  lemma Regrouped(a: string, b: string, c: string, page: string, more: string)
    ensures a + b + c + page + more == a + (b + (c + (page + more)))
  {
  }

  lemma BadRequestLine()
    ensures "HTTP/1.0 400 Bad Request\r\n" == "HTTP/1.0 400 Bad Request" + "\r\n"
    ensures "HTTP/1.0 400 Bad Request" == "HTTP/1.0" + " " + "400" + " " + "Bad Request"
    ensures Free("HTTP/1.0", ' ') && Free("400", ' ') && Free("HTTP/1.0 400 Bad Request", '\r')
  {
  }

  lemma NotFoundLine()
    ensures "HTTP/1.0 404 Not Found\r\n" == "HTTP/1.0 404 Not Found" + "\r\n"
    ensures "HTTP/1.0 404 Not Found" == "HTTP/1.0" + " " + "404" + " " + "Not Found"
    ensures Free("HTTP/1.0", ' ') && Free("404", ' ') && Free("HTTP/1.0 404 Not Found", '\r')
  {
  }

  /** The answer to a method other than GET, whatever follows it. */
  lemma UnimplementedParses(more: string)
    ensures R.ParseResponse(UNIMPLEMENTED + more) ==
            Some(R.Response("HTTP/1.0", "400", "Bad Request", [PageHeader()], UNIMPLEMENTED_PAGE + more))
    ensures R.StatusCode(UNIMPLEMENTED + more) == Some("400")
  {
    BadRequestLine();
    PageHeaderText();
    Regrouped("HTTP/1.0 400 Bad Request\r\n", "Content-type: text/html\r\n", "\r\n", UNIMPLEMENTED_PAGE, more);
    R.PageParses(UNIMPLEMENTED + more, "HTTP/1.0 400 Bad Request", "HTTP/1.0", "400", "Bad Request",
      "Content-type: text/html\r\n", PageHeader(), UNIMPLEMENTED_PAGE + more);
  }

  /** The answer to a GET of a file that is not there, whatever follows it. */
  lemma NotFoundParses(more: string)
    ensures R.ParseResponse(NOT_FOUND + more) ==
            Some(R.Response("HTTP/1.0", "404", "Not Found", [PageHeader()], NOT_FOUND_PAGE + more))
    ensures R.StatusCode(NOT_FOUND + more) == Some("404")
  {
    NotFoundLine();
    PageHeaderText();
    Regrouped("HTTP/1.0 404 Not Found\r\n", "Content-type: text/html\r\n", "\r\n", NOT_FOUND_PAGE, more);
    R.PageParses(NOT_FOUND + more, "HTTP/1.0 404 Not Found", "HTTP/1.0", "404", "Not Found",
      "Content-type: text/html\r\n", PageHeader(), NOT_FOUND_PAGE + more);
  }

  lemma JoinedOne(text: string)
    ensures R.Joined([text]) == text
  {
    assert [text][1..] == [] && R.Joined([]) == "" && text + "" == text;
  }

  /** The status of the answer, and how many buffers it has. */
  predicate IsAnswered(iov: seq<string>, code: string, buffers: nat) {
    |iov| == buffers && R.StatusCode(R.Joined(iov)) == Some(code)
  }

  lemma UnimplementedAnswered()
    ensures IsAnswered([UNIMPLEMENTED], "400", 1)
    ensures R.ParseResponse(R.Joined([UNIMPLEMENTED])) ==
            Some(R.Response("HTTP/1.0", "400", "Bad Request", [PageHeader()], UNIMPLEMENTED_PAGE))
  {
    JoinedOne(UNIMPLEMENTED);
    UnimplementedParses("");
    assert UNIMPLEMENTED + "" == UNIMPLEMENTED && UNIMPLEMENTED_PAGE + "" == UNIMPLEMENTED_PAGE;
  }

  lemma NotFoundAnswered()
    ensures IsAnswered([NOT_FOUND], "404", 1)
    ensures R.ParseResponse(R.Joined([NOT_FOUND])) ==
            Some(R.Response("HTTP/1.0", "404", "Not Found", [PageHeader()], NOT_FOUND_PAGE))
  {
    JoinedOne(NOT_FOUND);
    NotFoundParses("");
    assert NOT_FOUND + "" == NOT_FOUND && NOT_FOUND_PAGE + "" == NOT_FOUND_PAGE;
  }

  lemma GetAnswered(fs: FileSystem, path: string, file: string, junk: string)
    requires path != "" && IsFileOf(file, path) && AnswerGet(fs, path, junk).Sends?
    ensures var iov := AnswerGet(fs, path, junk).iov;
            if IsThere(fs, file) then IsAnswered(iov, "200", 6)
            else iov == [NOT_FOUND] && IsAnswered(iov, "404", 1)
  {
    FileIsFinal(file, path);
    if Found(fs, path) {
      R.BuffersStatus(file, fs[file].content, junk);
    } else {
      NotFoundAnswered();
    }
  }

  lemma StatusOfAnswer(fs: FileSystem, r: Q.Request, file: string, junk: string)
    requires r.Get? ==> r.path != "" && IsFileOf(file, r.path)
    requires Answer(fs, r, junk).Sends?
    ensures var iov := Answer(fs, r, junk).iov;
            if !r.Get? then IsAnswered(iov, "400", 1)
            else if IsThere(fs, file) then IsAnswered(iov, "200", 6)
            else IsAnswered(iov, "404", 1)
  {
    if r.Get? { GetAnswered(fs, r.path, file, junk); } else { UnimplementedAnswered(); }
  }

  /** Whatever text was read: the status of the answer is 200, in six buffers, exactly for a GET of a file that is there; it
      is 404 for a GET of any other, and 400 for any other method. */
  lemma StatusOfText(fs: FileSystem, src: string, junk: string, file: string)
    requires Serve(fs, src, junk).Sends?
    requires var r := Q.ParseLine(Q.LineOf(src)); r.Get? ==> IsFileOf(file, r.path)
    ensures var iov, r := Serve(fs, src, junk).iov, Q.ParseLine(Q.LineOf(src));
            && (r.Get? || r.Unimplemented?)
            && if !r.Get? then IsAnswered(iov, "400", 1)
               else if IsThere(fs, file) then IsAnswered(iov, "200", 6)
               else IsAnswered(iov, "404", 1)
  {
    StatusOfAnswer(fs, Q.ParseLine(Q.LineOf(src)), file, junk);
  }

  /** A formatted request that is answered. */
  lemma StatusOfRequest(fs: FileSystem, verb: string, path: string, rest: string, junk: string, file: string)
    requires Q.IsToken(verb) && Q.IsToken(path) && IsFileOf(file, path)
    requires Serve(fs, Q.RequestLine(verb, path) + "\r\n" + rest, junk).Sends?
    ensures var iov := Serve(fs, Q.RequestLine(verb, path) + "\r\n" + rest, junk).iov;
            var response := R.ParseResponse(R.Joined(iov));
            && (R.StatusCode(R.Joined(iov)) == Some("200") <==> IsGet(verb) && IsThere(fs, file))
            && (IsGet(verb) && !IsThere(fs, file) ==>
                  response == Some(R.Response("HTTP/1.0", "404", "Not Found", [PageHeader()], NOT_FOUND_PAGE)))
            && (!IsGet(verb) ==>
                  response == Some(R.Response("HTTP/1.0", "400", "Bad Request", [PageHeader()], UNIMPLEMENTED_PAGE)))
  {
    LineServed(fs, verb, path, rest, junk);
    var r := if IsGet(verb) then Q.Get(path) else Q.Unimplemented;
    StatusOfAnswer(fs, r, file, junk);
    if !IsGet(verb) {
      UnimplementedAnswered();
    } else if !IsThere(fs, file) {
      GetAnswered(fs, path, file, junk);
      NotFoundAnswered();
    }
  }
}
