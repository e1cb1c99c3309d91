/** How `demo/uring_server.c` reads a request: the first line is copied out of the read buffer and split into tokens. */
module HttpRequest {
  import opened CText
  import opened Options

  // ----- The first line -----

  /** The position of the first CRLF, or the length. */
  function FindCrlf(s: string): (i: nat)
    ensures i <= |s|
    ensures i < |s| ==> i + 1 < |s| && s[i] == '\r' && s[i + 1] == '\n'
    ensures forall j :: 0 <= j < i && j + 1 < |s| ==> !(s[j] == '\r' && s[j + 1] == '\n')
  {
    if |s| < 2 then |s|
    else if s[0] == '\r' && s[1] == '\n' then 0
    else 1 + FindCrlf(s[1..])
  }

  lemma FindCrlfBehind(line: string, rest: string)
    requires Free(line, '\r')
    ensures FindCrlf(line + "\r\n" + rest) == |line|
  {
    var s := line + "\r\n" + rest;
    assert s[|line|] == '\r' && s[|line| + 1] == '\n';
    assert forall j :: 0 <= j < |line| ==> s[j] == line[j] && line[j] in line;
  }

  /** `get_line`: 0 when a CRLF starts before the end of `dest`, which then holds the text before the first one. */
  method GetLine(src: string, dest: array<char>) returns (rc: int)
    requires dest.Length < |src|
    modifies dest
    ensures rc == 0 <==> FindCrlf(src) < dest.Length
    ensures rc == 0 ==> var k := FindCrlf(src);
                        dest[..k] == src[..k] && dest[k] == '\0' && dest[k + 1..] == old(dest[k + 1..])
    ensures rc != 0 ==> dest[..] == src[..dest.Length]
  {
    var i := 0;
    while i < dest.Length
      invariant i <= dest.Length && i <= FindCrlf(src)
      invariant forall j :: 0 <= j < i ==> dest[j] == src[j]
      invariant forall j :: i <= j < dest.Length ==> dest[j] == old(dest[j])
    {
      dest[i] := src[i];
      if src[i] == '\r' && src[i + 1] == '\n' {
        dest[i] := '\0';
        assert i == FindCrlf(src);
        return 0;
      }
      i := i + 1;
    }
    rc := 1;
  }

  // ----- Tokens -----

  /** The text of a NUL-terminated array. */
  function CString(s: string): string { s[..Find(s, '\0')] }

  datatype Token = Token(text: string, rest: string)

  /** The spaces in front of the first other character. */
  function Spaces(s: string): (n: nat)
    ensures n <= |s|
    ensures forall i :: 0 <= i < n ==> s[i] == ' '
    ensures n < |s| ==> s[n] != ' '
  {
    if s != [] && s[0] == ' ' then 1 + Spaces(s[1..]) else 0
  }

  /** `strtok_r(s, " ", &rest)`. */
  function NextToken(s: string): (t: Option<Token>)
    ensures t.Some? ==> t.value.text != "" && Free(t.value.text, ' ')
    ensures t.None? <==> forall c :: c in s ==> c == ' '
  {
    var u := s[Spaces(s)..];
    if u == "" then
      assert s[..Spaces(s)] == s;
      None
    else
      assert u[0] in s;
      Some(FirstWord(u))
  }

  /** The part of a C string up to its first space, and what follows that. */
  function FirstWord(u: string): (t: Token)
    ensures Free(t.text, ' ') && (u != "" && u[0] != ' ' ==> t.text != "")
  {
    var n := Find(u, ' ');
    Token(u[..n], if n < |u| then u[n + 1..] else "")
  }

  lemma FirstWordOf(text: string, rest: string)
    requires Free(text, ' ')
    ensures FirstWord(text + " " + rest) == Token(text, rest) && FirstWord(text) == Token(text, "")
  {
    var u := text + " " + rest;
    FindBehind(text, ' ', rest);
    assert u == text + [' '] + rest && u[..|text|] == text && u[|text| + 1..] == rest;
    FindNothing(text, ' ');
    assert text[..|text|] == text;
  }

  lemma NextTokenOf(t: string, rest: string)
    requires t != "" && Free(t, ' ')
    ensures NextToken(t + " " + rest) == Some(Token(t, rest))
  {
    var s := t + " " + rest;
    assert t[0] in t && s[0] == t[0];
    assert Spaces(s) == 0 && s[0..] == s;
    assert s == t + [' '] + rest;
    FindBehind(t, ' ', rest);
    assert s[..|t|] == t && s[|t| + 1..] == rest;
  }

  /** `t` is the first token of `s` and starts at `i`. */
  predicate IsTokenAt(s: string, i: nat, t: Token) {
    var end := i + |t.text|;
    && t.text != "" && Free(t.text, ' ') && end <= |s| && Blank(s[..i]) && s[i..end] == t.text
    && (if end == |s| then t.rest == "" else s[end] == ' ' && t.rest == s[end + 1..])
  }

  /** A token that starts at `i` splits the string behind its blanks. */
  lemma TokenSplits(s: string, i: nat, t: Token)
    requires IsTokenAt(s, i, t)
    ensures s[i..] == if i + |t.text| == |s| then t.text else t.text + " " + t.rest
    ensures s[i] != ' '
  {
    assert s[i] == s[i..i + |t.text|][0] == t.text[0] && t.text[0] in t.text;
  }

  lemma TokenIsAt(s: string)
    requires NextToken(s).Some?
    ensures IsTokenAt(s, Spaces(s), NextToken(s).value)
  {
    var i, t := Spaces(s), NextToken(s).value;
    assert t == FirstWord(s[i..]);
    assert s[i..i + |t.text|] == s[i..][..|t.text|];
    BlankIff(s[..i]);
    if i + |t.text| < |s| {
      assert s[i + |t.text|] == s[i..][|t.text|] && s[i..][|t.text| + 1..] == s[i + |t.text| + 1..];
    }
  }

  lemma TokenAtIsFirst(s: string, i: nat, t: Token)
    requires IsTokenAt(s, i, t)
    ensures NextToken(s) == Some(t)
  {
    TokenSplits(s, i, t);
    SpacesAre(s, i);
    FirstWordOf(t.text, t.rest);
  }

  /** What the method and the path of a request line come to. A NULL token is dereferenced. */
  datatype Request = Get(path: string) | Unimplemented | Crash

  /** `handle_http_method`, up to the call that answers. */
  function ParseLine(line: string): (r: Request)
    ensures r.Get? ==> r.path != "" && Free(r.path, ' ')
  {
    match NextToken(line)
    case None => Crash
    case Some(Token(verb, rest)) =>
      if Lower(verb) != "get" then Unimplemented
      else match NextToken(rest)
        case None => Crash
        case Some(Token(path, _)) => Get(path)
  }

  predicate Blank(s: string) { forall c :: c in s ==> c == ' ' }

  /** Between blanks, the line holds nothing but the word `get` in any case, or nothing at all. */
  predicate Bare(line: string, i: nat, j: nat) {
    i <= j <= |line| && Blank(line[..i]) && Blank(line[j..]) && (i == j || IsGet(line[i..j]))
  }

  lemma BlankIff(s: string)
    ensures Blank(s) <==> forall k :: 0 <= k < |s| ==> s[k] == ' '
  {
    assert forall k :: 0 <= k < |s| ==> s[k] in s;
  }

  lemma BlankAt(s: string)
    requires Blank(s)
    ensures forall k :: 0 <= k < |s| ==> s[k] == ' '
  {
    assert forall k :: 0 <= k < |s| ==> s[k] in s;
  }

  lemma SpacesAre(s: string, n: nat)
    requires n < |s| && Blank(s[..n]) && s[n] != ' '
    ensures Spaces(s) == n
  {
    BlankAt(s[..n]);
    forall k | 0 <= k < n ensures s[k] == ' ' { assert s[..n][k] == ' '; }
  }

  lemma FindNothing(s: string, c: char)
    requires Free(s, c)
    ensures Find(s, c) == |s|
  {
    assert forall k :: 0 <= k < |s| ==> s[k] in s;
  }

  /** A word between blanks is the first token, and nothing follows it. */
  lemma OnlyToken(line: string, i: nat, j: nat)
    requires i < j <= |line| && Blank(line[..i]) && Blank(line[j..]) && Free(line[i..j], ' ')
    ensures NextToken(line).Some? && NextToken(line).value.text == line[i..j] && Blank(NextToken(line).value.rest)
  {
    var u := line[i..];
    assert line[i] == line[i..j][0];
    SpacesAre(line, i);
    if j < |line| {
      BlankAt(line[j..]);
      assert line[j] == line[j..][0] == ' ';
      assert u == line[i..j] + [' '] + line[j + 1..];
      FindBehind(line[i..j], ' ', line[j + 1..]);
      assert line[j..] == [line[j]] + line[j + 1..];
    } else {
      assert u == line[i..j];
      FindNothing(u, ' ');
    }
  }

  lemma GetIsFree(verb: string)
    requires IsGet(verb)
    ensures Free(verb, ' ') && verb != "" && Lower(verb) == "get"
  {
    LowerIsGet(verb);
  }

  lemma BareGetCrashes(line: string, i: nat, j: nat)
    requires Bare(line, i, j) && i < j
    ensures ParseLine(line).Crash?
  {
    GetIsFree(line[i..j]);
    OnlyToken(line, i, j);
  }

  lemma LoneTokenIsBare(line: string, i: nat, t: Token)
    requires IsTokenAt(line, i, t) && IsGet(t.text) && Blank(t.rest)
    ensures Bare(line, i, i + |t.text|)
  {
    var j := i + |t.text|;
    if j < |line| { assert line[j..] == [' '] + t.rest; }
  }

  lemma CrashIsBareGet(line: string)
    requires ParseLine(line).Crash? && NextToken(line).Some?
    ensures Bare(line, Spaces(line), Spaces(line) + |NextToken(line).value.text|)
  {
    TokenIsAt(line);
    LowerIsGet(NextToken(line).value.text);
    LoneTokenIsBare(line, Spaces(line), NextToken(line).value);
  }

  lemma CrashIsBare(line: string)
    requires ParseLine(line).Crash?
    ensures exists i, j :: Bare(line, i, j)
  {
    if NextToken(line).None? {
      assert Bare(line, |line|, |line|);
    } else {
      CrashIsBareGet(line);
    }
  }

  lemma BareCrashes(line: string, i: nat, j: nat)
    requires Bare(line, i, j)
    ensures ParseLine(line).Crash?
  {
    if i < j { BareGetCrashes(line, i, j); } else { assert line == line[..i] + line[j..]; }
  }

  /** The program dereferences a token that is not there exactly for these lines. */
  lemma CrashIff(line: string)
    ensures ParseLine(line).Crash? <==> exists i, j :: Bare(line, i, j)
  {
    if ParseLine(line).Crash? { CrashIsBare(line); }
    if i: nat, j: nat :| Bare(line, i, j) { BareCrashes(line, i, j); }
  }

  /** Blanks, the word `get` in any case at `i`, blanks, the path at `j`, and then nothing or a blank. */
  predicate IsGetLine(line: string, i: nat, j: nat, path: string) {
    && i + 3 < j <= |line| && Blank(line[..i]) && IsGet(line[i..i + 3]) && Blank(line[i + 3..j])
    && path != "" && Free(path, ' ') && j + |path| <= |line| && line[j..j + |path|] == path
    && (j + |path| < |line| ==> line[j + |path|] == ' ')
  }

  /** Behind the method come a blank and the rest `line[k..]`, whose blanks reach from `k` to `j`. */
  lemma BlankJoins(s: string, k: nat, j: nat)
    requires 0 < k <= j <= |s|
    ensures Blank(s[k - 1..j]) <==> s[k - 1] == ' ' && Blank(s[k..][..j - k])
  {
    var a, b := s[k - 1..j], s[k..][..j - k];
    BlankIff(a);
    BlankIff(b);
    assert a[0] == s[k - 1] && forall x :: 0 <= x < |b| ==> b[x] == a[x + 1];
  }

  /** A path in the rest of a line is a path in the line. */
  lemma PathInRest(line: string, k: nat, j: nat, path: string)
    requires k <= j && j + |path| <= |line|
    ensures line[k..][j - k..j - k + |path|] == line[j..j + |path|]
    ensures j + |path| < |line| ==> line[k..][j - k + |path|] == line[j + |path|]
    ensures j + |path| < |line| ==> line[k..][j - k + |path| + 1..] == line[j + |path| + 1..]
  {
  }

  lemma VerbOfLine(line: string, i: nat, j: nat, path: string)
    requires IsGetLine(line, i, j, path)
    ensures NextToken(line) == Some(Token(line[i..i + 3], line[i + 4..]))
  {
    GetIsFree(line[i..i + 3]);
    BlankJoins(line, i + 4, j);
    TokenAtIsFirst(line, i, Token(line[i..i + 3], line[i + 4..]));
  }

  lemma PathOfLine(line: string, i: nat, j: nat, path: string)
    requires IsGetLine(line, i, j, path)
    ensures NextToken(line[i + 4..]).Some? && NextToken(line[i + 4..]).value.text == path
  {
    var k, end := i + 4, j + |path|;
    BlankJoins(line, k, j);
    PathInRest(line, k, j, path);
    TokenAtIsFirst(line[k..], j - k, Token(path, if end < |line| then line[end + 1..] else ""));
  }

  lemma LineIsGet(line: string, i: nat, j: nat, path: string)
    requires IsGetLine(line, i, j, path)
    ensures ParseLine(line) == Get(path)
  {
    LowerIsGet(line[i..i + 3]);
    VerbOfLine(line, i, j, path);
    PathOfLine(line, i, j, path);
  }

  lemma TokensAreGet(line: string, i: nat, t: Token, n: nat, u: Token)
    requires IsTokenAt(line, i, t) && IsGet(t.text) && IsTokenAt(t.rest, n, u)
    ensures IsGetLine(line, i, i + 4 + n, u.text)
  {
    var k, j := i + 4, i + 4 + n;
    assert t.rest == line[k..];
    BlankJoins(line, k, j);
    PathInRest(line, k, j, u.text);
  }

  lemma GetHasLine(line: string, path: string)
    requires ParseLine(line) == Get(path)
    ensures exists i, j :: IsGetLine(line, i, j, path)
  {
    var t := NextToken(line).value;
    TokenIsAt(line);
    TokenIsAt(t.rest);
    LowerIsGet(t.text);
    TokensAreGet(line, Spaces(line), t, Spaces(t.rest), NextToken(t.rest).value);
  }

  /** Exactly the lines that ask for a path. With `CrashIff` this says what becomes of every line. */
  lemma GetIff(line: string, path: string)
    ensures ParseLine(line) == Get(path) <==> exists i, j :: IsGetLine(line, i, j, path)
  {
    if ParseLine(line) == Get(path) { GetHasLine(line, path); }
    if i: nat, j: nat :| IsGetLine(line, i, j, path) { LineIsGet(line, i, j, path); }
  }

  /** What is made of the text read: `Malformed` is the call of `exit`. */
  datatype Reading = Malformed | Read(request: Request)

  const LINE_SIZE: nat := 1024

  /** The line `get_line` copies, up to a NUL in it. */
  function LineOf(src: string): (line: string)
    ensures line <= src[..FindCrlf(src)] && Free(line, '\0')
    ensures |line| == FindCrlf(src) || src[|line|] == '\0'
  {
    var head := src[..FindCrlf(src)];
    assert head <= head + ['\0'] && (head + ['\0'])[|head|] == '\0';
    CString(head + ['\0'])
  }

  function ReadingOf(src: string): Reading {
    if FindCrlf(src) < LINE_SIZE then Read(ParseLine(LineOf(src))) else Malformed
  }

  /** `handle_client_request` and `handle_http_method`, up to the call that answers. */
  method ReadRequest(src: string) returns (r: Reading)
    requires LINE_SIZE < |src|
    ensures r == ReadingOf(src)
  {
    var line := new char[LINE_SIZE];
    var rc := GetLine(src, line);
    if rc != 0 {
      return Malformed;
    }
    ghost var k := FindCrlf(src);
    CStringPrefix(src[..k] + ['\0'], line[k + 1..]);
    assert line[..] == src[..k] + ['\0'] + line[k + 1..];
    r := Read(ParseLine(CString(line[..])));
  }

  lemma CStringPrefix(s: string, more: string)
    requires '\0' in s
    ensures CString(s + more) == CString(s)
  {
    var i, j := Find(s, '\0'), Find(s + more, '\0');
    assert i < |s| && (s + more)[i] == '\0';
    assert forall x :: 0 <= x < i ==> (s + more)[x] == s[x];
  }

  predicate IsToken(t: string) { t != "" && Free(t, ' ') && Free(t, '\r') && Free(t, '\n') && Free(t, '\0') }

  /** The Request-Line of section 5.1 of RFC 1945. */
  function RequestLine(verb: string, path: string): string { verb + " " + (path + " " + "HTTP/1.0") }

  lemma LineTokens(verb: string, path: string)
    requires IsToken(verb) && IsToken(path)
    ensures NextToken(RequestLine(verb, path)) == Some(Token(verb, path + " " + "HTTP/1.0"))
    ensures NextToken(path + " " + "HTTP/1.0") == Some(Token(path, "HTTP/1.0"))
  {
    NextTokenOf(verb, path + " " + "HTTP/1.0");
    NextTokenOf(path, "HTTP/1.0");
  }

  lemma LineIsFree(verb: string, path: string)
    requires IsToken(verb) && IsToken(path)
    ensures Free(RequestLine(verb, path), '\r') && Free(RequestLine(verb, path), '\0')
  {
    assert Free("HTTP/1.0", '\r') && Free("HTTP/1.0", '\0');
  }

  /** Any method and path survive formatting a request line and reading it back, whatever follows it in the buffer; the
      method is compared without regard to case. */
  lemma RequestRoundTrip(verb: string, path: string, rest: string)
    requires IsToken(verb) && IsToken(path)
    ensures var src := RequestLine(verb, path) + "\r\n" + rest;
            && FindCrlf(src) == |RequestLine(verb, path)|
            && LineOf(src) == RequestLine(verb, path)
            && NextToken(RequestLine(verb, path)) == Some(Token(verb, path + " " + "HTTP/1.0"))
            && ParseLine(RequestLine(verb, path)) == if IsGet(verb) then Get(path) else Unimplemented
  {
    var line := RequestLine(verb, path);
    var src := line + "\r\n" + rest;
    LineIsFree(verb, path);
    FindCrlfBehind(line, rest);
    assert src[..|line|] == line;
    assert line + ['\0'] == line + ['\0'] + "";
    FindBehind(line, '\0', "");
    LineTokens(verb, path);
    LowerIsGet(verb);
  }
}
