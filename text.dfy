/** String operations of the two runtimes that the core relies on: Python's
    str.strip, str.split, str.lower and str.endswith and pathlib's suffix on the
    backend; JavaScript's String.prototype.trim, padStart and Number#toString on
    the frontend. Strings are sequences of Unicode scalar values. */
module Text {

  // ----- whitespace -----

  /** The characters for which Python's str.isspace() holds; str.strip() with
      no argument removes exactly these. */
  predicate IsPySpace(c: char) {
    ('\t' <= c <= '\r') || ('\U{1C}' <= c <= '\U{1F}') || c == ' ' || c == '\U{85}' ||
    c == '\U{A0}' || c == '\U{1680}' || ('\U{2000}' <= c <= '\U{200A}') ||
    c == '\U{2028}' || c == '\U{2029}' || c == '\U{202F}' || c == '\U{205F}' || c == '\U{3000}'
  }

  /** The WhiteSpace and LineTerminator code points that JavaScript's
      String.prototype.trim() removes. */
  predicate IsJsSpace(c: char) {
    ('\t' <= c <= '\r') || c == ' ' || c == '\U{A0}' || c == '\U{1680}' ||
    ('\U{2000}' <= c <= '\U{200A}') || c == '\U{2028}' || c == '\U{2029}' ||
    c == '\U{202F}' || c == '\U{205F}' || c == '\U{3000}' || c == '\U{FEFF}'
  }

  /** The number of leading characters of s that satisfy isSpace. */
  function SpacePrefix(s: string, isSpace: char -> bool): (n: nat)
    ensures n <= |s|
    ensures forall i :: 0 <= i < n ==> isSpace(s[i])
    ensures n < |s| ==> !isSpace(s[n])
  {
    if s == [] || !isSpace(s[0]) then 0
    else
      var n := SpacePrefix(s[1..], isSpace);
      assert forall i :: 1 <= i < n + 1 ==> s[i] == s[1..][i - 1];
      n + 1
  }

  /** The number of trailing characters of s that satisfy isSpace. */
  function SpaceSuffix(s: string, isSpace: char -> bool): (n: nat)
    ensures n <= |s|
    ensures forall i :: |s| - n <= i < |s| ==> isSpace(s[i])
    ensures n < |s| ==> !isSpace(s[|s| - n - 1])
  {
    if s == [] || !isSpace(s[|s| - 1]) then 0
    else SpaceSuffix(s[..|s| - 1], isSpace) + 1
  }

  /** r is the slice of s at offset i, and everything of s around it is space. */
  ghost predicate SurroundedBySpace(s: string, r: string, i: int, isSpace: char -> bool) {
    0 <= i <= |s| - |r| && r == s[i..i + |r|] &&
    (forall k :: 0 <= k < i ==> isSpace(s[k])) &&
    (forall k :: i + |r| <= k < |s| ==> isSpace(s[k]))
  }

  /** Both ends trimmed: s is r with only space characters around it. */
  function TrimBy(s: string, isSpace: char -> bool): (r: string)
    ensures exists i :: SurroundedBySpace(s, r, i, isSpace)
    ensures r == [] || (!isSpace(r[0]) && !isSpace(r[|r| - 1]))
  {
    var a := SpacePrefix(s, isSpace);
    if a == |s| then
      assert SurroundedBySpace(s, [], 0, isSpace);
      []
    else
      var b := |s| - SpaceSuffix(s, isSpace);
      assert a < b;
      assert SurroundedBySpace(s, s[a..b], a, isSpace);
      s[a..b]
  }

  /** A string with no space character at either end is its own trim. */
  lemma {:induction false} TrimFixed(s: string, isSpace: char -> bool)
    requires s == [] || (!isSpace(s[0]) && !isSpace(s[|s| - 1]))
    ensures TrimBy(s, isSpace) == s
  {
    assert SpacePrefix(s, isSpace) == 0;
    assert s != [] ==> SpaceSuffix(s, isSpace) == 0;
    assert s[0..|s|] == s;
  }

  /** Trimming is idempotent. */
  lemma TrimIdempotent(s: string, isSpace: char -> bool)
    ensures TrimBy(TrimBy(s, isSpace), isSpace) == TrimBy(s, isSpace)
  {
    TrimFixed(TrimBy(s, isSpace), isSpace);
  }

  /** Neither end of s is a Python space character. */
  predicate IsPyStripped(s: string) {
    s == [] || (!IsPySpace(s[0]) && !IsPySpace(s[|s| - 1]))
  }

  /** Python's str.strip() with no argument. */
  function PyStrip(s: string): (r: string)
    ensures IsPyStripped(r)
  {
    TrimBy(s, IsPySpace)
  }

  /** A string is its own strip exactly when neither end is a space. */
  lemma PyStripFixed(s: string)
    ensures PyStrip(s) == s <==> IsPyStripped(s)
  {
    if IsPyStripped(s) {
      TrimFixed(s, IsPySpace);
    }
  }

  /** JavaScript's String.prototype.trim(). */
  function JsTrim(s: string): (r: string)
    ensures r == [] || (!IsJsSpace(r[0]) && !IsJsSpace(r[|r| - 1]))
  {
    TrimBy(s, IsJsSpace)
  }

  // ----- splitting and joining -----

  /** The pieces joined back with the separator between them (Python's sep.join). */
  function Join(parts: seq<string>, sep: char): string
  {
    if |parts| == 0 then []
    else if |parts| == 1 then parts[0]
    else parts[0] + [sep] + Join(parts[1..], sep)
  }

  /** Python's s.split(sep) for a one-character separator: the maximal runs
      between separators, so "" gives [""] and "a,,b" gives ["a", "", "b"]. */
  function Split(s: string, sep: char): (r: seq<string>)
    ensures |r| >= 1
  {
    if s == [] then [[]]
    else
      var rest := Split(s[1..], sep);
      if s[0] == sep then [[]] + rest
      else [[s[0]] + rest[0]] + rest[1..]
  }

  /** No piece of a split holds the separator. */
  lemma {:induction false} SplitPiecesFree(s: string, sep: char)
    ensures forall p :: p in Split(s, sep) ==> sep !in p
  {
    if s != [] {
      SplitPiecesFree(s[1..], sep);
      var rest := Split(s[1..], sep);
      if s[0] != sep {
        var r := [[s[0]] + rest[0]] + rest[1..];
        assert forall p :: p in r ==> p == r[0] || p in rest;
      }
    }
  }

  /** Joining the pieces of a split gives back the string. */
  lemma {:induction false} JoinSplit(s: string, sep: char)
    ensures Join(Split(s, sep), sep) == s
  {
    if s != [] {
      JoinSplit(s[1..], sep);
      var rest := Split(s[1..], sep);
      if s[0] == sep {
        assert Join([[]] + rest, sep) == [] + [sep] + Join(rest, sep);
      } else {
        var r := [[s[0]] + rest[0]] + rest[1..];
        assert r[1..] == rest[1..];
        assert |rest| > 1 ==> Join(rest, sep) == rest[0] + [sep] + Join(rest[1..], sep);
      }
    }
  }

  /** Splitting undoes joining when no piece holds the separator. */
  lemma {:induction false} SplitJoin(parts: seq<string>, sep: char)
    requires |parts| >= 1
    requires forall p :: p in parts ==> sep !in p
    ensures Split(Join(parts, sep), sep) == parts
  {
    if |parts| == 1 {
      SplitPiece(parts[0], sep);
    } else {
      SplitJoin(parts[1..], sep);
      SplitPieceThen(parts[0], Join(parts[1..], sep), sep);
    }
  }

  /** A string without the separator splits into itself alone. */
  lemma {:induction false} SplitPiece(p: string, sep: char)
    requires sep !in p
    ensures Split(p, sep) == [p]
  {
    if p != [] {
      assert sep !in p[1..] by {
        assert forall k :: 0 <= k < |p[1..]| ==> p[1..][k] == p[k + 1];
      }
      SplitPiece(p[1..], sep);
      assert [p[0]] + p[1..] == p;
    }
  }

  /** Splitting p + sep + s puts p in front of the pieces of s. */
  lemma {:induction false} SplitPieceThen(p: string, s: string, sep: char)
    requires sep !in p
    ensures Split(p + [sep] + s, sep) == [p] + Split(s, sep)
  {
    if p == [] {
      assert p + [sep] + s == [sep] + s;
      assert ([sep] + s)[1..] == s;
    } else {
      assert (p + [sep] + s)[1..] == p[1..] + [sep] + s;
      SplitPieceThen(p[1..], s, sep);
      assert [p[0]] + p[1..] == p;
    }
  }

  /** Joining two non-empty lists of pieces: the joins of each, with one
      separator between them. */
  lemma {:induction false} JoinAppend(pa: seq<string>, pb: seq<string>, sep: char)
    requires |pa| >= 1 && |pb| >= 1
    ensures Join(pa + pb, sep) == Join(pa, sep) + [sep] + Join(pb, sep)
  {
    assert (pa + pb)[0] == pa[0];
    assert (pa + pb)[1..] == pa[1..] + pb;
    if |pa| > 1 {
      JoinAppend(pa[1..], pb, sep);
    }
  }

  /** Splitting a + sep + b: the pieces of a, then the pieces of b. */
  lemma SplitConcat(a: string, b: string, sep: char)
    ensures Split(a + [sep] + b, sep) == Split(a, sep) + Split(b, sep)
  {
    var pa := Split(a, sep);
    var pb := Split(b, sep);
    JoinSplit(a, sep);
    JoinSplit(b, sep);
    JoinAppend(pa, pb, sep);
    SplitPiecesFree(a, sep);
    SplitPiecesFree(b, sep);
    SplitJoin(pa + pb, sep);
  }

  // ----- case and affixes -----

  /** Python's str.lower() on ASCII letters; every other character is kept. */
  function LowerChar(c: char): (r: char)
    ensures ('A' <= c <= 'Z') == (r != c)
    ensures 'A' <= c <= 'Z' ==> 'a' <= r <= 'z'
  {
    if 'A' <= c <= 'Z' then (c as int - 'A' as int + 'a' as int) as char else c
  }

  function Lower(s: string): (r: string)
    ensures |r| == |s|
    ensures forall i {:trigger r[i]} :: 0 <= i < |s| ==> r[i] == LowerChar(s[i])
  {
    seq(|s|, i requires 0 <= i < |s| => LowerChar(s[i]))
  }

  /** Lowering commutes with taking a slice. */
  lemma LowerSlice(s: string, i: nat, j: nat)
    requires i <= j <= |s|
    ensures Lower(s[i..j]) == Lower(s)[i..j]
  {
  }

  /** Python's str.endswith with one suffix. */
  predicate EndsWith(s: string, suffix: string) {
    |suffix| <= |s| && s[|s| - |suffix|..] == suffix
  }

  /** Python's str.endswith with a tuple of suffixes. */
  predicate EndsWithAny(s: string, suffixes: seq<string>) {
    exists e :: e in suffixes && EndsWith(s, e)
  }

  // ----- pathlib -----

  /** Position of the last occurrence of c among the first n characters of
      s, -1 when there is none. */
  function LastIndexBefore(s: string, c: char, n: nat): (r: int)
    requires n <= |s|
    ensures -1 <= r < n
    ensures r >= 0 ==> s[r] == c
    ensures forall k :: r < k < n ==> s[k] != c
  {
    if n == 0 then -1
    else if s[n - 1] == c then n - 1
    else LastIndexBefore(s, c, n - 1)
  }

  /** Position of the last occurrence of c in s, as Python's str.rfind (-1 when absent). */
  function LastIndexOf(s: string, c: char): (r: int)
    ensures -1 <= r < |s|
    ensures r >= 0 ==> s[r] == c
    ensures forall k :: r < k < |s| ==> s[k] != c
  {
    LastIndexBefore(s, c, |s|)
  }

  /** A position holding c with no c after it is the last index of c. */
  lemma LastIndexOfAt(s: string, c: char, d: nat)
    requires d < |s| && s[d] == c
    requires forall k :: d < k < |s| ==> s[k] != c
    ensures LastIndexOf(s, c) == d
  {
  }

  /** Where the final path component starts: just after the last '/', or
      at 0 when there is none. */
  function NameStart(path: string): (i: nat)
    ensures i <= |path|
    ensures i > 0 ==> path[i - 1] == '/'
    ensures forall k :: i <= k < |path| ==> path[k] != '/'
  {
    LastIndexOf(path, '/') + 1
  }

  /** The final path component, the text after the last '/'. This is what
      pathlib's PurePosixPath.name gives for every path that does not end in
      '/' or in a '.' component; the names that reach it here end in an
      accepted extension. */
  function PathName(path: string): string {
    path[NameStart(path)..]
  }

  /** pathlib's PurePath.suffix: from the last '.' of the final component
      on, provided that dot is neither the component's first nor its last
      character; else "". The last '.' of the component is the last '.' of
      the path when it lies after the component's start. */
  function PathSuffix(path: string): (r: string)
    ensures r == [] || (r[0] == '.' && |r| < |PathName(path)| && r == path[|path| - |r|..])
  {
    var d := LastIndexOf(path, '.');
    if NameStart(path) < d < |path| - 1 then path[d..] else []
  }

  // ----- JavaScript strings -----

  /** A UTF-16 code unit: JavaScript's length and substr count these. */
  type CodeUnit = u: int | 0 <= u < 0x1_0000

  /** The UTF-16 encoding of a string: a character outside the Basic
      Multilingual Plane becomes a surrogate pair, every other character
      one unit. */
  function Utf16(s: string): (u: seq<CodeUnit>)
    ensures |u| >= |s|
  {
    if s == [] then []
    else
      var c := s[0] as int;
      (if c < 0x1_0000 then [c as CodeUnit]
       else [(0xD800 + (c - 0x1_0000) / 0x400) as CodeUnit, (0xDC00 + (c - 0x1_0000) % 0x400) as CodeUnit])
      + Utf16(s[1..])
  }

  predicate InBmp(s: string) {
    forall i :: 0 <= i < |s| ==> (s[i] as int) < 0x1_0000
  }

  /** Text within the Basic Multilingual Plane is one unit per character,
      each unit the character's code. */
  lemma {:induction false} Utf16Bmp(s: string)
    requires InBmp(s)
    ensures |Utf16(s)| == |s|
    ensures forall i :: 0 <= i < |s| ==> Utf16(s)[i] == s[i] as int
  {
    if s != [] {
      Utf16Bmp(s[1..]);
      assert Utf16(s) == [s[0] as int as CodeUnit] + Utf16(s[1..]);
    }
  }

  /** The encoding of a concatenation is the concatenation of the encodings. */
  lemma {:induction false} Utf16Append(a: string, b: string)
    ensures Utf16(a + b) == Utf16(a) + Utf16(b)
  {
    if a == [] {
      assert a + b == b;
    } else {
      assert (a + b)[0] == a[0];
      assert (a + b)[1..] == a[1..] + b;
      Utf16Append(a[1..], b);
    }
  }

  /** A character outside the Basic Multilingual Plane adds two to the
      length JavaScript reports. */
  lemma AstralCountsTwice(prefix: string, c: char)
    requires InBmp(prefix) && (c as int) >= 0x1_0000
    ensures |Utf16(prefix + [c])| == |prefix| + 2
  {
    Utf16Append(prefix, [c]);
    Utf16Bmp(prefix);
  }

  // ----- decimal numerals -----

  function DigitChar(d: nat): (c: char)
    requires d < 10
    ensures '0' <= c <= '9'
  {
    ('0' as int + d) as char
  }

  predicate IsDigits(s: string) {
    forall i :: 0 <= i < |s| ==> '0' <= s[i] <= '9'
  }

  /** The number a string of decimal digits denotes (leading zeros allowed). */
  function DecimalValue(s: string): nat
    requires IsDigits(s)
  {
    if s == [] then 0 else DecimalValue(s[..|s| - 1]) * 10 + (s[|s| - 1] as int - '0' as int)
  }

  /** Number.prototype.toString() for a non-negative integer: its shortest
      decimal numeral. */
  function NatToString(n: nat): (r: string)
    ensures IsDigits(r) && 1 <= |r|
    ensures |r| > 1 ==> r[0] != '0'
    ensures DecimalValue(r) == n
  {
    if n < 10 then [DigitChar(n)]
    else
      var r := NatToString(n / 10) + [DigitChar(n % 10)];
      assert r[..|r| - 1] == NatToString(n / 10);
      r
  }

  /** String.prototype.padStart(width, fill). */
  function PadStart(s: string, width: nat, fill: char): (r: string)
    ensures |r| == if |s| >= width then |s| else width
    ensures EndsWith(r, s)
    ensures forall i :: 0 <= i < |r| - |s| ==> r[i] == fill
  {
    if |s| >= width then s else seq(width - |s|, _ => fill) + s
  }

  /** Leading zeros do not change the number a numeral denotes. */
  lemma {:induction false} LeadingZeros(z: string, s: string)
    requires IsDigits(s)
    requires forall i :: 0 <= i < |z| ==> z[i] == '0'
    ensures IsDigits(z + s) && DecimalValue(z + s) == DecimalValue(s)
  {
    if s == [] {
      assert z + s == z;
      AllZeros(z);
    } else {
      var t := z + s;
      assert t[..|t| - 1] == z + s[..|s| - 1];
      LeadingZeros(z, s[..|s| - 1]);
    }
  }

  lemma {:induction false} AllZeros(z: string)
    requires forall i :: 0 <= i < |z| ==> z[i] == '0'
    ensures IsDigits(z) && DecimalValue(z) == 0
  {
    if z != [] {
      AllZeros(z[..|z| - 1]);
    }
  }
}
