/** C strings in a character array, as the functions of `<string.h>` and the helpers built on them change them in place. */
module CBuffer {
  import opened CText
  import opened Options
  import Q = HttpRequest

  /** The C string that starts at `at`. */
  function CStringAt(b: string, at: nat): string
    requires at <= |b|
  {
    Q.CString(b[at..])
  }

  /** `strcpy(b + at, s)`. */
  function Copied(b: string, at: nat, s: string): (r: string)
    requires at + |s| < |b|
    ensures |r| == |b|
  {
    b[..at] + s + ['\0'] + b[at + |s| + 1..]
  }

  /** `strtolower(b + at)`. */
  function Lowered(b: string, at: nat): (r: string)
    requires at <= |b|
    ensures |r| == |b|
  {
    var text := CStringAt(b, at);
    b[..at] + Lower(text) + b[at + |text|..]
  }

  /** `get_first_line(b, maxLength)`. */
  function CutLine(b: string, maxLength: nat): (r: string)
    ensures |r| == |b|
  {
    var text := Q.CString(b);
    var k := Q.FindCrlf(text);
    if k < |text| && k < maxLength then b[k := '\0'] else b
  }

  /** Where the next token of the C string at `at` starts, or where that string ends. */
  function WordStart(b: string, at: nat): (pos: nat)
    requires at <= |b|
    ensures at <= pos <= at + |CStringAt(b, at)| <= |b|
  {
    at + Q.Spaces(CStringAt(b, at))
  }

  /** Where the token that starts at `pos` ends. */
  function WordEnd(b: string, pos: nat): (end: nat)
    requires pos <= |b|
    ensures pos <= end <= pos + |CStringAt(b, pos)| <= |b|
  {
    pos + Find(CStringAt(b, pos), ' ')
  }

  predicate EndsInSpace(b: string, pos: nat)
    requires pos <= |b|
  {
    WordEnd(b, pos) < pos + |CStringAt(b, pos)|
  }

  /** The buffer once the token at `pos` is ended by a NUL, and where `strtok_r` goes on. */
  function CutWord(b: string, pos: nat): (r: string)
    requires pos <= |b|
    ensures |r| == |b|
  {
    if EndsInSpace(b, pos) then b[WordEnd(b, pos) := '\0'] else b
  }

  function SaveAt(b: string, pos: nat): (save: nat)
    requires pos <= |b|
    ensures save <= pos + |CStringAt(b, pos)| <= |b|
  {
    if EndsInSpace(b, pos) then WordEnd(b, pos) + 1 else WordEnd(b, pos)
  }

  method Strlen(buf: array<char>, at: nat) returns (n: nat)
    requires at < buf.Length && '\0' in buf[at..]
    ensures n == |CStringAt(buf[..], at)|
    ensures at + n < buf.Length && buf[at + n] == '\0'
  {
    n := 0;
    ghost var s := buf[at..];
    assert s == buf[..][at..];
    while buf[at + n] != '\0'
      invariant at + n < buf.Length && n <= Find(s, '\0')
      decreases buf.Length - n
    {
      assert s[n] == buf[at + n];
      n := n + 1;
    }
    assert s[n] == '\0';
  }

  /** `strcpy(b + at, s)`, or as many bytes of a file and a NUL: `fits` is whether it stays in the array. */
  method Strcpy(buf: array<char>, at: nat, s: string) returns (fits: bool)
    requires at <= buf.Length
    modifies buf
    ensures fits <==> at + |s| < buf.Length
    ensures fits ==> buf[..] == Copied(old(buf[..]), at, s)
  {
    var i := 0;
    while i < |s|
      invariant i <= |s| && at + i <= buf.Length
      invariant forall j :: 0 <= j < i ==> buf[at + j] == s[j]
      invariant forall j :: 0 <= j < at || at + i <= j < buf.Length ==> buf[j] == old(buf[j])
    {
      if at + i == buf.Length {
        return false;
      }
      buf[at + i] := s[i];
      i := i + 1;
    }
    if at + i == buf.Length {
      return false;
    }
    buf[at + i] := '\0';
    fits := true;
  }

  /** `strtolower`. */
  method StrToLower(buf: array<char>, at: nat)
    requires at < buf.Length && '\0' in buf[at..]
    modifies buf
    ensures var text := CStringAt(old(buf[..]), at);
            && at + |text| < buf.Length
            && buf[..] == Lowered(old(buf[..]), at)
            && IsLowerOf(buf[at..at + |text|], text)
            && buf[..at] == old(buf[..at]) && buf[at + |text|..] == old(buf[at + |text|..])
  {
    ghost var before := buf[..];
    ghost var text := CStringAt(before, at);
    assert before[at..] == buf[at..];
    CharsOf(before, at);
    var i := at;
    while buf[i] != '\0'
      invariant at <= i <= at + |text| < buf.Length
      invariant forall j :: 0 <= j < at || i <= j < buf.Length ==> buf[j] == before[j]
      invariant forall j :: at <= j < i ==> buf[j] == ToLower(before[j])
      decreases buf.Length - i
    {
      var c := ToLower(buf[i]);
      buf[i] := c;
      i := i + 1;
    }
    LowerInPlace(before, buf[..], at, i, text);
    assert buf[at..i] == buf[..][at..i] && buf[..at] == buf[..][..at] && buf[i..] == buf[..][i..];
  }

  lemma LowerInPlace(b: string, c: string, from: nat, to: nat, text: string)
    requires from <= to <= |b| == |c| && text == b[from..to]
    requires forall j :: 0 <= j < from || to <= j < |b| ==> c[j] == b[j]
    requires forall j :: from <= j < to ==> c[j] == ToLower(b[j])
    ensures c == b[..from] + Lower(text) + b[to..]
    ensures IsLowerOf(c[from..to], text) && c[..from] == b[..from] && c[to..] == b[to..]
  {
  }

  /** `get_first_line`: the first CRLF is cut off, if it starts within `maxLength` characters. */
  method GetFirstLine(buf: array<char>, maxLength: nat) returns (rc: int)
    requires '\0' in buf[..]
    modifies buf
    ensures var text := Q.CString(old(buf[..]));
            var found := Q.FindCrlf(text) < |text| && Q.FindCrlf(text) < maxLength;
            && Q.CString(buf[..]) == (if found then text[..Q.FindCrlf(text)] else text)
            && '\0' in buf[..]
            && rc == (if found then 1 else 0)
            && buf[..] == CutLine(old(buf[..]), maxLength)
  {
    ghost var before := buf[..];
    ghost var text := Q.CString(before);
    assert buf[0..] == buf[..] && before[0..] == before;
    var n := Strlen(buf, 0);
    var length := if n > maxLength then maxLength else n;
    var i := 0;
    while i < length
      invariant i <= length && i <= Q.FindCrlf(text)
      invariant buf[..] == before
    {
      if buf[i] == '\r' && buf[i + 1] == '\n' {
        assert before[n] == '\0';
        assert i + 1 < n;
        buf[i] := '\0';
        assert i == Q.FindCrlf(text);
        CutAt(before, i);
        return 1;
      }
      i := i + 1;
    }
    rc := 0;
  }

  /** A NUL written into a C string ends it there. */
  lemma CutAt(b: string, i: nat)
    requires i < Find(b, '\0') < |b|
    ensures Q.CString(b[i := '\0']) == b[..i] && '\0' in b[i := '\0']
  {
    var c := b[i := '\0'];
    assert c[i] == '\0';
    assert forall j :: 0 <= j < i ==> c[j] == b[j];
  }

  /** The tail of a C string is the C string further on. */
  lemma RestOf(b: string, at: nat, save: nat)
    requires at <= |b| && '\0' in b[at..] && at <= save <= at + |CStringAt(b, at)| < |b|
    ensures '\0' in b[save..] && CStringAt(b, save) == CStringAt(b, at)[save - at..]
  {
    var n := Find(b[at..], '\0');
    assert b[at..][n] == '\0' && b[save..][at + n - save] == '\0';
    assert forall j :: 0 <= j < at + n - save ==> b[save..][j] == b[at..][j + save - at];
  }

  /** A position in a C string: what is there, and where the string ends. */
  lemma CharsOf(b: string, at: nat)
    requires at <= |b| && '\0' in b[at..]
    ensures var s := CStringAt(b, at);
            && at + |s| < |b| && b[at + |s|] == '\0' && b[at..at + |s|] == s
            && forall j :: at <= j < at + |s| ==> b[j] == s[j - at] && b[j] != '\0'
  {
    var n := Find(b[at..], '\0');
    assert n < |b[at..]| && b[at..][n] == b[at + n];
    assert forall j :: at <= j < at + n ==> b[j] == b[at..][j - at];
  }

  method SkipSpaces(buf: array<char>, at: nat) returns (pos: nat)
    requires at < buf.Length && '\0' in buf[at..]
    ensures var s := CStringAt(buf[..], at);
            && pos == at + Q.Spaces(s) < buf.Length && '\0' in buf[pos..]
            && CStringAt(buf[..], pos) == s[Q.Spaces(s)..]
  {
    ghost var s := CStringAt(buf[..], at);
    assert buf[..][at..] == buf[at..];
    CharsOf(buf[..], at);
    pos := at;
    while buf[pos] == ' '
      invariant at <= pos <= at + |s| && pos - at <= Q.Spaces(s)
      decreases at + |s| - pos
    {
      pos := pos + 1;
    }
    RestOf(buf[..], at, pos);
    assert buf[..][pos..] == buf[pos..];
  }

  method TokenEnd(buf: array<char>, at: nat) returns (end: nat)
    requires at < buf.Length && '\0' in buf[at..]
    ensures var s := CStringAt(buf[..], at);
            end == at + Find(s, ' ') < buf.Length && buf[end] == if Find(s, ' ') < |s| then ' ' else '\0'
  {
    ghost var s := CStringAt(buf[..], at);
    assert buf[..][at..] == buf[at..];
    CharsOf(buf[..], at);
    end := at;
    while buf[end] != ' ' && buf[end] != '\0'
      invariant at <= end <= at + |s| && end - at <= Find(s, ' ')
      decreases at + |s| - end
    {
      end := end + 1;
    }
  }

  /** What `Strtok` leaves: token `t` of the C string, ended at `end`, and the rest at `save`. */
  ghost predicate TokenAt(b: string, start: nat, save: nat, t: Q.Token) {
    var end := start + |t.text|;
    && end < |b| && b[start..end] == t.text && b[end] == '\0' && Free(t.text, '\0')
    && end <= save < |b| && '\0' in b[save..] && CStringAt(b, save) == t.rest
    && (t.rest != "" ==> end < save)
  }

  /** A NUL written behind the first `n` characters of a C string: those characters, and the rest, are still there. */
  lemma CutText(b: string, pos: nat, n: nat)
    requires pos <= |b| && '\0' in b[pos..] && n < |CStringAt(b, pos)|
    ensures var c, u := b[pos + n := '\0'], CStringAt(b, pos);
            c[pos..pos + n] == u[..n] && c[pos + n] == '\0' && Free(u[..n], '\0')
  {
    CharsOf(b, pos);
    var u := CStringAt(b, pos);
    forall j | 0 <= j < n ensures u[j] != '\0' && b[pos + j] == u[j] {}
  }

  lemma CutRest(b: string, pos: nat, n: nat)
    requires pos <= |b| && '\0' in b[pos..] && n < |CStringAt(b, pos)|
    ensures var c, u := b[pos + n := '\0'], CStringAt(b, pos);
            pos + n + 1 < |c| && '\0' in c[pos + n + 1..] && CStringAt(c, pos + n + 1) == u[n + 1..]
  {
    CharsOf(b, pos);
    RestOf(b, pos, pos + n + 1);
    assert b[pos + n := '\0'][pos + n + 1..] == b[pos + n + 1..];
  }

  lemma CutTokenAt(b: string, pos: nat, end: nat, t: Q.Token)
    requires pos <= |b| && '\0' in b[pos..] && pos <= end < pos + |CStringAt(b, pos)|
    requires t.text == CStringAt(b, pos)[..end - pos] && t.rest == CStringAt(b, pos)[end - pos + 1..]
    ensures end + 1 < |b| && TokenAt(b[end := '\0'], pos, end + 1, t)
  {
    CutText(b, pos, end - pos);
    CutRest(b, pos, end - pos);
  }

  lemma TokenEndsInSpace(b: string, pos: nat, end: nat)
    requires pos <= |b| && '\0' in b[pos..] && end == pos + Find(CStringAt(b, pos), ' ') < pos + |CStringAt(b, pos)|
    ensures end + 1 < |b| && TokenAt(b[end := '\0'], pos, end + 1, Q.FirstWord(CStringAt(b, pos)))
  {
    CutTokenAt(b, pos, end, Q.FirstWord(CStringAt(b, pos)));
  }

  lemma TokenEndsString(b: string, pos: nat, end: nat)
    requires pos <= |b| && '\0' in b[pos..] && end == pos + Find(CStringAt(b, pos), ' ') == pos + |CStringAt(b, pos)|
    ensures TokenAt(b, pos, end, Q.FirstWord(CStringAt(b, pos)))
  {
    CharsOf(b, pos);
    var u := CStringAt(b, pos);
    assert b[end..][0] == '\0' && u[..|u|] == u;
  }

  lemma CutInSpace(b: string, pos: nat, end: nat)
    requires pos <= |b| && '\0' in b[pos..] && end == pos + Find(CStringAt(b, pos), ' ') < pos + |CStringAt(b, pos)|
    ensures end + 1 < |b| && TokenAt(b[end := '\0'], pos, end + 1, Q.FirstWord(CStringAt(b, pos)))
    ensures CutWord(b, pos) == b[end := '\0'] && SaveAt(b, pos) == end + 1
  {
    assert EndsInSpace(b, pos) && WordEnd(b, pos) == end;
    TokenEndsInSpace(b, pos, end);
  }

  lemma CutNothing(b: string, pos: nat, end: nat)
    requires pos <= |b| && '\0' in b[pos..] && end == pos + Find(CStringAt(b, pos), ' ') == pos + |CStringAt(b, pos)|
    ensures TokenAt(b, pos, end, Q.FirstWord(CStringAt(b, pos)))
    ensures CutWord(b, pos) == b && SaveAt(b, pos) == end
  {
    TokenEndsString(b, pos, end);
  }

  method CutToken(buf: array<char>, pos: nat) returns (save: nat)
    requires pos < buf.Length && '\0' in buf[pos..]
    modifies buf
    ensures TokenAt(buf[..], pos, save, Q.FirstWord(CStringAt(old(buf[..]), pos)))
    ensures buf[..] == CutWord(old(buf[..]), pos) && save == SaveAt(old(buf[..]), pos)
  {
    ghost var before := buf[..];
    assert before[pos..] == buf[pos..];
    CharsOf(before, pos);
    save := TokenEnd(buf, pos);
    if buf[save] != '\0' {
      CutInSpace(before, pos, save);
      buf[save] := '\0';
      assert buf[..] == before[save := '\0'];
      save := save + 1;
    } else {
      CutNothing(before, pos, save);
    }
  }

  lemma FirstToken(s: string)
    ensures Q.NextToken(s) == if Q.Spaces(s) == |s| then None else Some(Q.FirstWord(s[Q.Spaces(s)..]))
  {
  }

  /** `strtok_r(at, " ", &save)`: the next token of the C string at `at`, ended by a NUL in place, and where to go on. */
  method Strtok(buf: array<char>, at: nat) returns (start: int, save: nat)
    requires at < buf.Length && '\0' in buf[at..]
    modifies buf
    ensures var t := Q.NextToken(CStringAt(old(buf[..]), at));
            if t.None? then start < 0 else start == WordStart(old(buf[..]), at) && TokenAt(buf[..], start, save, t.value)
    ensures var pos := WordStart(old(buf[..]), at);
            buf[..] == CutWord(old(buf[..]), pos) && save == SaveAt(old(buf[..]), pos)
  {
    ghost var before := buf[..];
    FirstToken(CStringAt(before, at));
    var pos := SkipSpaces(buf, at);
    assert before[pos..] == buf[pos..];
    CharsOf(before, pos);
    if buf[pos] == '\0' {
      start, save := -1, pos;
    } else {
      start := pos;
      save := CutToken(buf, pos);
    }
  }

  /** The text of the C string at `at`, as a value. */
  method TextAt(buf: array<char>, at: nat) returns (text: string)
    requires at < buf.Length && '\0' in buf[at..]
    ensures text == CStringAt(buf[..], at)
  {
    assert buf[..][at..] == buf[at..];
    CharsOf(buf[..], at);
    var n := Strlen(buf, at);
    text := buf[at..at + n];
  }

  /** A token in place is a C string. */
  lemma TokenIsCString(b: string, start: nat, save: nat, t: Q.Token)
    requires TokenAt(b, start, save, t)
    ensures '\0' in b[start..] && CStringAt(b, start) == t.text
  {
    StrlenOfPiece(b, start, t.text);
  }

  /** After a piece without NUL was copied, `strlen` at the old cursor is its length. */
  lemma StrlenOfPiece(b: string, at: nat, piece: string)
    requires at + |piece| < |b| && b[at..at + |piece|] == piece && b[at + |piece|] == '\0' && Free(piece, '\0')
    ensures '\0' in b[at..] && CStringAt(b, at) == piece
  {
    assert b[at..][|piece|] == '\0';
    assert forall j :: 0 <= j < |piece| ==> b[at..][j] == piece[j] && piece[j] in piece;
  }

  lemma LowerIsFree(s: string, c: char)
    requires Free(s, c) && !('a' <= c <= 'z')
    ensures Free(Lower(s), c)
  {
    assert forall i :: 0 <= i < |s| ==> Lower(s)[i] == ToLower(s[i]) && s[i] in s;
  }

  /** Replacing the middle of a string. */
  lemma Replaced(b: string, c: string, start: nat, piece: string, save: nat)
    requires start + |piece| <= save <= |b| && c == b[..start] + piece + b[start + |piece|..]
    ensures |c| == |b| && c[start..start + |piece|] == piece && c[save..] == b[save..]
    ensures start + |piece| < |b| ==> c[start + |piece|] == b[start + |piece|]
  {
  }

  /** Lower-casing a token in place leaves what follows it. */
  lemma LoweredToken(b: string, c: string, start: nat, save: nat, t: Q.Token)
    requires TokenAt(b, start, save, t)
    requires c == b[..start] + Lower(t.text) + b[start + |t.text|..]
    ensures TokenAt(c, start, save, Q.Token(Lower(t.text), t.rest))
  {
    LowerIsFree(t.text, '\0');
    Replaced(b, c, start, Lower(t.text), save);
  }

  /** What is in the buffer once a token was lower-cased. */
  lemma LoweredWord(b: string, start: nat, save: nat, t: Q.Token)
    requires TokenAt(b, start, save, t)
    ensures start <= |b| && save < |b|
    ensures var c := Lowered(b, start);
            && '\0' in c[start..] && CStringAt(c, start) == Lower(t.text)
            && '\0' in c[save..] && CStringAt(c, save) == t.rest
  {
    var c := Lowered(b, start);
    TokenIsCString(b, start, save, t);
    LoweredToken(b, c, start, save, t);
    TokenIsCString(c, start, save, Q.Token(Lower(t.text), t.rest));
  }

  /** The next token, lower-cased in place: `method = strtok_r(...); strtolower(method);`. When there is no token the
      program lower-cases NULL, and `found` is false. */
  method LowerWord(buf: array<char>, at: nat) returns (found: bool, word: string, save: nat)
    requires at < buf.Length && '\0' in buf[at..]
    modifies buf
    ensures found <==> Q.NextToken(CStringAt(old(buf[..]), at)).Some?
    ensures found ==>
              var t := Q.NextToken(CStringAt(old(buf[..]), at)).value;
              word == Lower(t.text) && save < buf.Length && '\0' in buf[save..] && CStringAt(buf[..], save) == t.rest
    ensures found ==>
              var b := old(buf[..]);
              var pos := WordStart(b, at);
              buf[..] == Lowered(CutWord(b, pos), pos) && save == SaveAt(b, pos)
  {
    ghost var t := Q.NextToken(CStringAt(buf[..], at));
    var start;
    start, save := Strtok(buf, at);
    if start < 0 {
      return false, "", save;
    }
    found := true;
    ghost var b := buf[..];
    TokenIsCString(b, start, save, t.value);
    assert buf[start..] == b[start..];
    StrToLower(buf, start);
    LoweredWord(b, start, save, t.value);
    assert buf[start..] == buf[..][start..] && buf[save..] == buf[..][save..];
    word := TextAt(buf, start);
  }

  /** `path = strtok_r(NULL, " ", &saveptr);`, which is NULL when there is no token. */
  method NextWord(buf: array<char>, at: nat) returns (start: int)
    requires at < buf.Length && '\0' in buf[at..]
    modifies buf
    ensures var t := Q.NextToken(CStringAt(old(buf[..]), at));
            if t.None? then start < 0
            else 0 <= start < buf.Length && '\0' in buf[start..] && CStringAt(buf[..], start) == t.value.text
    ensures buf[..] == CutWord(old(buf[..]), WordStart(old(buf[..]), at))
  {
    ghost var t := Q.NextToken(CStringAt(buf[..], at));
    var save;
    start, save := Strtok(buf, at);
    if start >= 0 {
      TokenIsCString(buf[..], start, save, t.value);
      assert buf[start..] == buf[..][start..];
    }
  }
}
