/** Text as the HTTP code handles it: lower-casing, decimal numbers, file extensions, and searches for a character. */
module CText {

  predicate Free(s: string, c: char) { c !in s }

  // ----- Case -----

  predicate IsCapital(c: char) { 'A' <= c <= 'Z' }

  /** `tolower` in the C locale. */
  function ToLower(c: char): (r: char)
    ensures r as int == c as int + if 65 <= c as int <= 90 then 32 else 0
  {
    if IsCapital(c) then (c as int + 32) as char else c
  }

  /** A capital moves up by 32 code points, and everything else stays. */
  predicate IsLowerOf(r: string, s: string) {
    |r| == |s| && forall i :: 0 <= i < |s| ==> r[i] as int == s[i] as int + if 65 <= s[i] as int <= 90 then 32 else 0
  }

  function Lower(s: string): (r: string)
    ensures |r| == |s| && IsLowerOf(r, s)
    ensures forall i :: 0 <= i < |s| ==> r[i] == ToLower(s[i])
  {
    seq(|s|, i requires 0 <= i < |s| => ToLower(s[i]))
  }

  /** The word `get`, in any mixture of cases. */
  predicate IsGet(s: string) {
    |s| == 3 && s[0] in {'g', 'G'} && s[1] in {'e', 'E'} && s[2] in {'t', 'T'}
  }

  lemma LowerIsGet(s: string)
    ensures Lower(s) == "get" <==> IsGet(s)
  {
    var r := Lower(s);
    if IsGet(s) {
      assert r[0] == 'g' && r[1] == 'e' && r[2] == 't';
    }
  }

  // ----- Decimal numbers -----

  function Digit(d: nat): (c: char)
    requires d < 10
    ensures '0' <= c <= '9'
  {
    ('0' as int + d) as char
  }

  /** What `sprintf` prints for `%ld`. */
  function Decimal(n: nat): (s: string)
    ensures s != [] && forall i :: 0 <= i < |s| ==> '0' <= s[i] <= '9'
    ensures |s| > 1 ==> s[0] != '0'
  {
    if n < 10 then [Digit(n)] else Decimal(n / 10) + [Digit(n % 10)]
  }

  predicate IsNumeral(s: string) { s != [] && forall i :: 0 <= i < |s| ==> '0' <= s[i] <= '9' }

  function ParseDecimal(s: string): nat
    requires IsNumeral(s)
  {
    var last := s[|s| - 1] as int - '0' as int;
    if |s| == 1 then last else 10 * ParseDecimal(s[..|s| - 1]) + last
  }

  lemma {:induction false} DecimalRoundTrip(n: nat)
    ensures ParseDecimal(Decimal(n)) == n
  {
    if n >= 10 {
      DecimalRoundTrip(n / 10);
      assert Decimal(n)[..|Decimal(n)| - 1] == Decimal(n / 10);
    }
  }

  // ----- Searching -----

  /** The position of the first `c`, or the length. */
  function Find(s: string, c: char): (i: nat)
    ensures i <= |s|
    ensures i < |s| ==> s[i] == c
    ensures forall j :: 0 <= j < i ==> s[j] != c
  {
    if s == [] || s[0] == c then 0 else 1 + Find(s[1..], c)
  }

  lemma FindBehind(a: string, c: char, b: string)
    requires Free(a, c)
    ensures Find(a + [c] + b, c) == |a|
  {
    var s := a + [c] + b;
    assert s[|a|] == c && forall j :: 0 <= j < |a| ==> s[j] == a[j] && a[j] in a;
  }

  // ----- File extensions -----

  /** `strrchr`: the position of the last `c`, or -1. */
  function FindLast(s: string, c: char): (i: int)
    ensures -1 <= i < |s|
    ensures i >= 0 ==> s[i] == c
    ensures forall j :: i < j < |s| ==> s[j] != c
  {
    if s == [] then -1
    else if s[|s| - 1] == c then |s| - 1
    else FindLast(s[..|s| - 1], c)
  }

  /** `get_filename_ext`: the text behind the last dot, unless that is the first character. */
  function FilenameExt(name: string): (ext: string)
    ensures Free(ext, '.')
  {
    var dot := FindLast(name, '.');
    if dot <= 0 then "" else name[dot + 1..]
  }

  /** A nonempty stem, a dot and a text without dots: the extension is that text. */
  lemma ExtOf(stem: string, ext: string)
    requires stem != [] && Free(ext, '.')
    ensures FilenameExt(stem + "." + ext) == ext
  {
    var name := stem + "." + ext;
    assert name[|stem|] == '.';
    assert forall j :: |stem| < j < |name| ==> name[j] == ext[j - |stem| - 1] && ext[j - |stem| - 1] in ext;
    assert name[|stem| + 1..] == ext;
  }

  /** `ext` is what follows the dot at `i`, which is not the first character. */
  predicate IsBehindDot(name: string, i: nat, ext: string) {
    1 <= i < |name| && name[i] == '.' && name[i + 1..] == ext && Free(ext, '.')
  }

  /** The extension of a name with a dot behind its first character is what follows the last one; any other has none. */
  lemma ExtIff(name: string, ext: string)
    ensures FilenameExt(name) == ext <==>
            || (exists i :: IsBehindDot(name, i, ext))
            || (ext == "" && forall i :: 1 <= i < |name| ==> name[i] != '.')
  {
    var dot := FindLast(name, '.');
    if dot > 0 {
      assert IsBehindDot(name, dot, FilenameExt(name));
      assert name[dot] == '.';
    }
    forall i: nat | IsBehindDot(name, i, ext) ensures i == dot {
      assert forall j :: i < j < |name| ==> name[j] == name[i + 1..][j - i - 1];
    }
  }

  predicate IsListed(ext: string) {
    || ext == "jpg" || ext == "jpeg" || ext == "png" || ext == "gif"
    || ext == "htm" || ext == "html" || ext == "js" || ext == "css" || ext == "txt"
  }

  /** The content type of a listed extension. */
  function MimeType(ext: string): (mime: string)
    ensures mime != "" <==> IsListed(ext)
  {
    if ext == "jpg" || ext == "jpeg" then "image/jpeg"
    else if ext == "png" then "image/png"
    else if ext == "gif" then "image/gif"
    else if ext == "htm" || ext == "html" then "text/html"
    else if ext == "js" then "application/javascript"
    else if ext == "css" then "text/css"
    else if ext == "txt" then "text/plain"
    else ""
  }

  /** The media types of section 3.6 of RFC 1945 that the servers name. */
  predicate IsTypeOf(mime: string, ext: string) {
    || (mime == "image/jpeg" && (ext == "jpg" || ext == "jpeg"))
    || (mime == "image/png" && ext == "png")
    || (mime == "image/gif" && ext == "gif")
    || (mime == "text/html" && (ext == "htm" || ext == "html"))
    || (mime == "application/javascript" && ext == "js")
    || (mime == "text/css" && ext == "css")
    || (mime == "text/plain" && ext == "txt")
  }

  lemma MimeIsType(ext: string)
    ensures if IsListed(ext) then IsTypeOf(MimeType(ext), ext) else MimeType(ext) == ""
    ensures forall mime :: IsTypeOf(mime, ext) ==> mime == MimeType(ext)
  {
  }

  /** Small letters and slashes only. */
  predicate IsTypeName(s: string) { forall c :: c in s ==> 'a' <= c <= 'z' || c == '/' }

  lemma MimeIsName(ext: string)
    ensures IsTypeName(MimeType(ext))
  {
    assert IsTypeName("image/jpeg") && IsTypeName("image/png") && IsTypeName("image/gif");
    assert IsTypeName("text/html") && IsTypeName("text/css") && IsTypeName("text/plain");
    assert IsTypeName("application/javascript");
  }

  /** The header line the servers copy for a listed extension, and nothing for any other. */
  function ContentTypeLine(ext: string): string {
    if MimeType(ext) == "" then "" else "Content-Type: " + MimeType(ext) + "\r\n"
  }

  function ContentLengthLine(n: nat): string { "content-length: " + Decimal(n) + "\r\n" }
}
