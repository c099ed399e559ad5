/**
 * The few Python `str` operations the server relies on, over `seq<char>`:
 * `lower`, `strip`, `split`, `in` (substring), `startswith`, `replace(p, "")`,
 * slicing `[:n]`, `str(int)` and `int(str)`. Case folding is the ASCII one;
 * whitespace is what `str.isspace` accepts.
 */
module Text {
  import opened Wrappers

  // ---------------------------------------------------------------- case

  function LowerChar(c: char): char {
    if 'A' <= c <= 'Z' then (c as int + 32) as char else c
  }

  /** `s.lower()` */
  function Lower(s: string): (r: string)
    ensures |r| == |s|
    ensures forall i :: 0 <= i < |s| ==> r[i] == LowerChar(s[i])
  {
    seq(|s|, i requires 0 <= i < |s| => LowerChar(s[i]))
  }

  // ---------------------------------------------------------------- search

  /** `p` occurs in `s` starting at index `i`. */
  predicate OccursAt(s: string, p: string, i: int) {
    0 <= i <= |s| - |p| && s[i..i + |p|] == p
  }

  /** `p in s` for strings: `p` occurs in `s` as a contiguous piece. */
  predicate Contains(s: string, p: string) {
    exists i :: 0 <= i <= |s| - |p| && OccursAt(s, p, i)
  }

  /** `s.startswith(p)` */
  predicate StartsWith(s: string, p: string) {
    |p| <= |s| && s[..|p|] == p
  }

  /** `s[:n]` for a non-negative `n`: Python clamps the bound to the length. */
  function Take(s: string, n: nat): (r: string)
    ensures |r| == if n <= |s| then n else |s|
    ensures StartsWith(s, r)
  {
    if n <= |s| then s[..n] else s
  }

  // ---------------------------------------------------------------- strip

  /**
   * The characters `str.isspace` accepts, which `str.strip()`, `str.split()`
   * and `int(str)` treat as whitespace: the ASCII controls U+0009 to U+000D
   * and U+001C to U+001F, the space, and the Unicode separators.
   */
  const Whitespace: set<char> := {
    '\t', '\n', '\U{0B}', '\U{0C}', '\r', '\U{1C}', '\U{1D}', '\U{1E}', '\U{1F}', ' ',
    '\U{85}', '\U{A0}', '\U{1680}', '\U{2000}', '\U{2001}', '\U{2002}', '\U{2003}', '\U{2004}',
    '\U{2005}', '\U{2006}', '\U{2007}', '\U{2008}', '\U{2009}', '\U{200A}', '\U{2028}', '\U{2029}',
    '\U{202F}', '\U{205F}', '\U{3000}'}

  /** The whitespace `int` skips around a `bytes` value: the six ASCII ones. */
  const AsciiWhitespace: set<char> := {'\t', '\n', '\U{0B}', '\U{0C}', '\r', ' '}

  function TrimLeft(s: string, cs: set<char>): (r: string)
    ensures |r| <= |s| && r == s[|s| - |r|..]
    ensures |r| > 0 ==> r[0] !in cs
    ensures forall i :: 0 <= i < |s| - |r| ==> s[i] in cs
    decreases |s|
  {
    if |s| > 0 && s[0] in cs then TrimLeft(s[1..], cs) else s
  }

  function TrimRight(s: string, cs: set<char>): (r: string)
    ensures |r| <= |s| && r == s[..|r|]
    ensures |r| > 0 ==> r[|r| - 1] !in cs
    ensures forall i :: |r| <= i < |s| ==> s[i] in cs
    decreases |s|
  {
    if |s| > 0 && s[|s| - 1] in cs then TrimRight(s[..|s| - 1], cs) else s
  }

  /** `s.strip(chars)`: drop every leading and trailing character drawn from `cs`. */
  function Strip(s: string, cs: set<char>): (r: string)
  {
    TrimRight(TrimLeft(s, cs), cs)
  }

  /** `s[i..j]` is cut out of `s` by dropping only characters from `cs`. */
  predicate CutFrom(s: string, cs: set<char>, i: int, j: int) {
    && 0 <= i <= j <= |s|
    && (forall k :: 0 <= k < i ==> s[k] in cs)
    && (forall k :: j <= k < |s| ==> s[k] in cs)
  }

  /** What `strip` keeps is a contiguous piece of `s` with no `cs` character at either end. */
  lemma StripIsSlice(s: string, cs: set<char>)
    ensures exists i, j :: CutFrom(s, cs, i, j) && Strip(s, cs) == s[i..j]
    ensures |Strip(s, cs)| > 0 ==> Strip(s, cs)[0] !in cs && Strip(s, cs)[|Strip(s, cs)| - 1] !in cs
  {
    var l := TrimLeft(s, cs);
    var r := TrimRight(l, cs);
    var i := |s| - |l|;
    assert r == l[..|r|];
    assert s[i..i + |r|] == r;
    assert CutFrom(s, cs, i, i + |r|);
  }

  // ---------------------------------------------------------------- split

  /** `s.split(sep)` for a one-character separator: every occurrence cuts. */
  function Split(s: string, sep: char): (r: seq<string>)
    ensures |r| >= 1
    ensures forall i :: 0 <= i < |r| ==> sep !in r[i]
    decreases |s|
  {
    if |s| == 0 then [""]
    else
      var rest := Split(s[1..], sep);
      if s[0] == sep then [""] + rest
      else [[s[0]] + rest[0]] + rest[1..]
  }

  /** `sep.join(parts)` */
  function Join(parts: seq<string>, sep: char): string
  {
    if |parts| == 0 then ""
    else if |parts| == 1 then parts[0]
    else parts[0] + [sep] + Join(parts[1..], sep)
  }

  /** A join starts with the first piece's first character. */
  lemma JoinFirst(parts: seq<string>, sep: char)
    requires |parts| >= 1 && |parts[0]| >= 1
    ensures |Join(parts, sep)| >= 1 && Join(parts, sep)[0] == parts[0][0]
  {
  }

  /** A join ends with the last piece's last character. */
  lemma {:induction false} JoinLast(parts: seq<string>, sep: char)
    requires |parts| >= 1 && |parts[|parts| - 1]| >= 1
    ensures |Join(parts, sep)| >= 1
    ensures Join(parts, sep)[|Join(parts, sep)| - 1] == parts[|parts| - 1][|parts[|parts| - 1]| - 1]
    decreases |parts|
  {
    if |parts| > 1 {
      JoinLast(parts[1..], sep);
    }
  }

  function CountChar(s: string, c: char): nat
  {
    if |s| == 0 then 0 else (if s[0] == c then 1 else 0) + CountChar(s[1..], c)
  }

  lemma {:induction false} SplitWithoutSeparator(s: string, sep: char)
    requires sep !in s
    ensures Split(s, sep) == [s]
    decreases |s|
  {
    if |s| > 0 {
      SplitWithoutSeparator(s[1..], sep);
      assert [s[0]] + s[1..] == s;
    }
  }

  /** Cutting at the first separator: the piece before it, then the split of the rest. */
  lemma {:induction false} SplitAtFirst(a: string, b: string, sep: char)
    requires sep !in a
    ensures Split(a + [sep] + b, sep) == [a] + Split(b, sep)
    decreases |a|
  {
    var s := a + [sep] + b;
    if |a| == 0 {
      assert s[1..] == b;
    } else {
      assert s[1..] == a[1..] + [sep] + b;
      SplitAtFirst(a[1..], b, sep);
      assert [a[0]] + a[1..] == a;
    }
  }

  /** Splitting a join of separator-free pieces gives the pieces back. */
  lemma {:induction false} SplitJoin(parts: seq<string>, sep: char)
    requires |parts| >= 1
    requires forall i :: 0 <= i < |parts| ==> sep !in parts[i]
    ensures Split(Join(parts, sep), sep) == parts
    decreases |parts|
  {
    if |parts| == 1 {
      SplitWithoutSeparator(parts[0], sep);
    } else {
      SplitJoin(parts[1..], sep);
      SplitAtFirst(parts[0], Join(parts[1..], sep), sep);
      assert [parts[0]] + parts[1..] == parts;
    }
  }

  /** Splitting `a:b:c` on the separator gives back the three separator-free pieces. */
  lemma SplitThree(a: string, b: string, c: string, sep: char)
    requires sep !in a && sep !in b && sep !in c
    ensures Split(a + [sep] + b + [sep] + c, sep) == [a, b, c]
  {
    assert a + [sep] + b + [sep] + c == a + [sep] + (b + [sep] + c);
    SplitAtFirst(a, b + [sep] + c, sep);
    SplitAtFirst(b, c, sep);
    SplitWithoutSeparator(c, sep);
  }

  /** `s.split(sep)` has one more piece than `s` has separators. */
  lemma {:induction false} SplitLength(s: string, sep: char)
    ensures |Split(s, sep)| == CountChar(s, sep) + 1
    decreases |s|
  {
    if |s| > 0 {
      SplitLength(s[1..], sep);
    }
  }

  // ---------------------------------------------------------------- replace

  /** `s.replace(p, "")`: remove the non-overlapping occurrences of `p`, scanning left to right. */
  function RemoveAll(s: string, p: string): (r: string)
    requires |p| > 0
    ensures |r| <= |s|
    decreases |s|
  {
    if |s| < |p| then s
    else if s[..|p|] == p then RemoveAll(s[|p|..], p)
    else [s[0]] + RemoveAll(s[1..], p)
  }

  /** A string lacking some character of `p` holds no occurrence of `p`: nothing is removed. */
  lemma {:induction false} RemoveAllAbsent(s: string, p: string, c: char)
    requires |p| > 0 && c in p && c !in s
    ensures RemoveAll(s, p) == s
    decreases |s|
  {
    if |s| >= |p| {
      var j :| 0 <= j < |p| && p[j] == c;
      assert s[..|p|][j] == s[j];
      assert s[..|p|] != p;
      RemoveAllAbsent(s[1..], p, c);
      assert [s[0]] + s[1..] == s;
    }
  }

  /** Removing a one-character pattern distributes over concatenation. */
  lemma {:induction false} RemoveCharConcat(a: string, b: string, c: char)
    ensures RemoveAll(a + b, [c]) == RemoveAll(a, [c]) + RemoveAll(b, [c])
    decreases |a|
  {
    if |a| == 0 {
      assert a + b == b;
    } else {
      assert (a + b)[1..] == a[1..] + b;
      assert (a + b)[..1] == a[..1];
      RemoveCharConcat(a[1..], b, c);
    }
  }

  // ---------------------------------------------------------------- integers

  predicate IsDigit(c: char) { '0' <= c <= '9' }

  predicate AllDigits(s: string) { forall i :: 0 <= i < |s| ==> IsDigit(s[i]) }

  function DigitChar(d: nat): (c: char)
    requires d < 10
    ensures IsDigit(c) && DigitValue(c) == d
  {
    ('0' as int + d) as char
  }

  /** `str(n)` for a natural number. */
  function NatToDecimal(n: nat): (r: string)
    ensures |r| >= 1 && AllDigits(r)
    decreases n
  {
    if n < 10 then [DigitChar(n)] else NatToDecimal(n / 10) + [DigitChar(n % 10)]
  }

  /** `str(i)`; the text holds only digits and a leading minus sign. */
  function IntToDecimal(i: int): (r: string)
    ensures |r| >= 1
    ensures forall k :: 0 <= k < |r| ==> IsDigit(r[k]) || r[k] == '-'
  {
    if i < 0 then "-" + NatToDecimal(-i) else NatToDecimal(i)
  }

  /**
   * The value `int` gives a digit or an ASCII letter (`a`/`A` is 10, up to
   * `z`/`Z` at 35); 36 for any other character, which no base accepts.
   */
  function DigitValue(c: char): (v: nat)
    ensures v <= 36
    ensures v < 10 <==> IsDigit(c)
  {
    if '0' <= c <= '9' then c as int - '0' as int
    else if 'a' <= c <= 'z' then c as int - 'a' as int + 10
    else if 'A' <= c <= 'Z' then c as int - 'A' as int + 10
    else 36
  }

  /** Every character of `s` is a digit of `base`. */
  predicate DigitsIn(s: string, base: nat) { forall i :: 0 <= i < |s| ==> DigitValue(s[i]) < base }

  /** The positional value of a numeral in `base`, most significant digit first. */
  function NumeralValue(s: string, base: nat): nat
    requires DigitsIn(s, base)
  {
    if |s| == 0 then 0 else NumeralValue(s[..|s| - 1], base) * base + DigitValue(s[|s| - 1])
  }

  /**
   * Digits of `base`, possibly grouped by single underscores between digits
   * (PEP 515): no underscore first, last, or next to another.
   */
  predicate Grouped(s: string, base: nat) {
    && |s| > 0 && s[0] != '_' && s[|s| - 1] != '_'
    && (forall i :: 0 <= i < |s| ==> s[i] == '_' || DigitValue(s[i]) < base)
    && (forall i :: 0 <= i < |s| - 1 ==> s[i] != '_' || s[i + 1] != '_')
  }

  /** `s` with its underscores removed. */
  function DropUnderscores(s: string): (r: string)
    ensures |r| <= |s|
  {
    if |s| == 0 then ""
    else (if s[0] == '_' then "" else [s[0]]) + DropUnderscores(s[1..])
  }

  /** Each character kept is a non-underscore character of `s`; without underscores nothing goes. */
  lemma {:induction false} DropUnderscoresChars(s: string)
    ensures forall i :: 0 <= i < |DropUnderscores(s)| ==> DropUnderscores(s)[i] in s && DropUnderscores(s)[i] != '_'
    ensures '_' !in s ==> DropUnderscores(s) == s
    ensures |s| > 0 && s[0] != '_' ==> |DropUnderscores(s)| > 0 && DropUnderscores(s)[0] == s[0]
    decreases |s|
  {
    if |s| > 0 {
      DropUnderscoresChars(s[1..]);
      var rest := DropUnderscores(s[1..]);
      var head := if s[0] == '_' then "" else [s[0]];
      assert DropUnderscores(s) == head + rest;
      forall i | 0 <= i < |rest|
        ensures rest[i] in s
      {
        assert rest[i] in s[1..];
      }
      if '_' !in s {
        assert s == [s[0]] + s[1..];
      }
    }
  }

  lemma DropUnderscoresDigits(s: string, base: nat)
    requires Grouped(s, base)
    ensures |DropUnderscores(s)| > 0 && DigitsIn(DropUnderscores(s), base)
  {
    DropUnderscoresChars(s);
  }

  /** The value of grouped digits: their digits read without the underscores. */
  function GroupedValue(s: string, base: nat): nat
    requires Grouped(s, base)
  {
    DropUnderscoresDigits(s, base);
    NumeralValue(DropUnderscores(s), base)
  }

  /**
   * What `int(s, base)` reads once surrounding whitespace is gone, for base
   * 10 or 16: an optional sign, for base 16 an optional `0x`/`0X` prefix that
   * may be followed by one underscore, then grouped digits.
   */
  function ParseIntIn(s: string, base: nat): (r: Option<int>)
    ensures r.Some? ==> |s| > 0
  {
    var signed := |s| > 0 && (s[0] == '-' || s[0] == '+');
    var body := if signed then s[1..] else s;
    var digits :=
      if base == 16 && |body| >= 2 && body[0] == '0' && (body[1] == 'x' || body[1] == 'X') then
        (if |body| >= 3 && body[2] == '_' then body[3..] else body[2..])
      else body;
    if Grouped(digits, base) then
      var v: int := GroupedValue(digits, base);
      Some(if signed && s[0] == '-' then -v else v)
    else None
  }

  /** `int(s)` on a string with no surrounding whitespace. */
  function ParseInt(s: string): (r: Option<int>)
    ensures r.Some? ==> |s| > 0
  {
    ParseIntIn(s, 10)
  }

  /** `int(s, base)` for a `str` and base 10 or 16: Python strips surrounding whitespace first. */
  function PyIntIn(s: string, base: nat): Option<int>
  {
    ParseIntIn(Strip(s, Whitespace), base)
  }

  /** `int(s)` for a `str`. */
  function PyInt(s: string): Option<int>
  {
    PyIntIn(s, 10)
  }

  /** `int(b)` for a `bytes` value: only the ASCII whitespace counts there. */
  function PyBytesInt(b: string): Option<int>
  {
    ParseInt(Strip(b, AsciiWhitespace))
  }

  /** Text whose ends are not in `cs` is left alone by `strip`. */
  lemma StripUnchanged(s: string, cs: set<char>)
    requires |s| > 0 && s[0] !in cs && s[|s| - 1] !in cs
    ensures Strip(s, cs) == s
  {
  }

  /** Grouped decimal digits read as their value once whitespace is stripped. */
  lemma PyIntGrouped(s: string)
    requires Grouped(s, 10)
    ensures PyInt(s) == Some(GroupedValue(s, 10) as int)
  {
    assert IsDigit(s[0]) && IsDigit(s[|s| - 1]);
    StripUnchanged(s, Whitespace);
    ParseIntUnsigned(s);
  }

  /** Plain digits are grouped digits whose value is their numeral value. */
  lemma PlainDigitsGrouped(d: string, base: nat)
    requires |d| > 0 && base <= 36 && DigitsIn(d, base)
    ensures Grouped(d, base) && GroupedValue(d, base) == NumeralValue(d, base)
  {
    assert '_' !in d by { assert forall k :: 0 <= k < |d| ==> d[k] != '_'; }
    DropUnderscoresChars(d);
  }

  /** Plain digits, with no sign and (in base 16) no `0x` prefix, are read digit by digit. */
  lemma ParseIntOfDigits(d: string, base: nat)
    requires base == 10 || base == 16
    requires |d| > 0 && DigitsIn(d, base)
    ensures ParseIntIn(d, base) == Some(NumeralValue(d, base) as int)
  {
    PlainDigitsGrouped(d, base);
    assert DigitValue(d[0]) < base;
    assert d[0] != '-' && d[0] != '+';
    if |d| >= 2 {
      assert DigitValue(d[1]) < base;
      assert d[1] != 'x' && d[1] != 'X';
    }
  }

  /** A digit of any base is no whitespace. */
  lemma DigitNotWhitespace(c: char)
    requires DigitValue(c) < 36
    ensures c !in Whitespace && c !in AsciiWhitespace
  {
  }

  /** `int(d, base)` on plain digits is their value. */
  lemma PyIntOfDigits(d: string, base: nat)
    requires base == 10 || base == 16
    requires |d| > 0 && DigitsIn(d, base)
    ensures PyIntIn(d, base) == Some(NumeralValue(d, base) as int)
  {
    DigitNotWhitespace(d[0]);
    DigitNotWhitespace(d[|d| - 1]);
    StripUnchanged(d, Whitespace);
    ParseIntOfDigits(d, base);
  }

  /** Underscores between digits change nothing: `int("1_000") == int("1000")`. */
  lemma UnderscoresIgnored(s: string)
    requires Grouped(s, 10)
    ensures PyInt(s) == PyInt(DropUnderscores(s)) == Some(GroupedValue(s, 10) as int)
  {
    DropUnderscoresDigits(s, 10);
    PlainDigitsGrouped(DropUnderscores(s), 10);
    PyIntGrouped(s);
    PyIntGrouped(DropUnderscores(s));
  }

  /** Grouped decimal digits in a `bytes` value read as their value too. */
  lemma PyBytesIntGrouped(s: string)
    requires Grouped(s, 10)
    ensures PyBytesInt(s) == Some(GroupedValue(s, 10) as int)
  {
    assert IsDigit(s[0]) && IsDigit(s[|s| - 1]);
    StripUnchanged(s, AsciiWhitespace);
    ParseIntUnsigned(s);
  }

  /** U+001C is whitespace to `str.strip`. */
  lemma SeparatorStripped(d: string)
    requires |d| > 0 && DigitsIn(d, 10)
    ensures Strip(['\U{1C}'] + d, Whitespace) == d
  {
    var s := ['\U{1C}'] + d;
    assert s[0] in Whitespace && s[1..] == d;
    assert TrimLeft(s, Whitespace) == TrimLeft(d, Whitespace);
    DigitNotWhitespace(d[0]);
    DigitNotWhitespace(d[|d| - 1]);
    StripUnchanged(d, Whitespace);
  }

  /** So `int("\x1c5") == 5`. */
  lemma SeparatorStrippedFromStr(d: string)
    requires |d| > 0 && DigitsIn(d, 10)
    ensures PyInt(['\U{1C}'] + d) == Some(NumeralValue(d, 10) as int)
  {
    SeparatorStripped(d);
    ParseIntOfDigits(d, 10);
  }

  /** `bytes` know only the six ASCII whitespace characters: `int(b"\x1c5")` raises. */
  lemma SeparatorKeptInBytes(d: string)
    requires |d| > 0 && IsDigit(d[|d| - 1])
    ensures PyBytesInt(['\U{1C}'] + d) == None
  {
    var s := ['\U{1C}'] + d;
    assert s[|s| - 1] == d[|d| - 1];
    NonDigitHeadRefused(s);
  }

  /** Bytes that open with a character that is no digit, sign, underscore or ASCII whitespace are no number. */
  lemma NonDigitHeadRefused(s: string)
    requires |s| > 0 && DigitValue(s[0]) >= 10 && s[0] !in "+-_" && s[0] !in AsciiWhitespace
    requires IsDigit(s[|s| - 1])
    ensures PyBytesInt(s) == None
  {
    StripUnchanged(s, AsciiWhitespace);
    ParseIntUnsigned(s);
  }

  /** An underscore may not open the number: `int("_1")` raises. */
  lemma LeadingUnderscoreRefused(s: string)
    requires |s| > 0 && s[0] == '_'
    ensures PyInt(s) == None
  {
    var t := Strip(s, Whitespace);
    StripIsSlice(s, Whitespace);
    assert TrimLeft(s, Whitespace) == s;
    if |t| > 0 {
      assert t[0] == '_';
      ParseIntUnsigned(t);
    }
  }

  /** Two underscores in a row are refused: `int("1__0")` raises. */
  lemma DoubleUnderscoreRefused(a: string, b: string)
    requires |a| > 0 && |b| > 0 && IsDigit(a[0]) && IsDigit(b[|b| - 1])
    ensures PyInt(a + "__" + b) == None
  {
    var s := a + "__" + b;
    assert IsDigit(s[0]) && IsDigit(s[|s| - 1]);
    StripUnchanged(s, Whitespace);
    ParseIntUnsigned(s);
    assert s[|a|] == '_' && s[|a| + 1] == '_';
  }

  lemma {:induction false} NatToDecimalValue(n: nat)
    ensures DigitsIn(NatToDecimal(n), 10)
    ensures NumeralValue(NatToDecimal(n), 10) == n
    decreases n
  {
    var s := NatToDecimal(n);
    assert DigitsIn(s, 10);
    if n >= 10 {
      assert s[..|s| - 1] == NatToDecimal(n / 10);
      NatToDecimalValue(n / 10);
    }
  }

  /** `str(i)` holds nothing but digits and a minus sign. */
  lemma DecimalLacks(i: int, c: char)
    requires !IsDigit(c) && c != '-'
    ensures c !in IntToDecimal(i)
  {
    var r := IntToDecimal(i);
    assert forall k :: 0 <= k < |r| ==> r[k] != c;
  }

  /** `str` is injective on integers. */
  lemma DecimalInjective(i: int, j: int)
    requires IntToDecimal(i) == IntToDecimal(j)
    ensures i == j
  {
    DecimalRoundTrip(i);
    DecimalRoundTrip(j);
  }

  /** Printed decimal digits are grouped digits that read back as their value. */
  lemma NatToDecimalParses(n: nat)
    ensures Grouped(NatToDecimal(n), 10) && '_' !in NatToDecimal(n)
    ensures GroupedValue(NatToDecimal(n), 10) == n
  {
    var s := NatToDecimal(n);
    NatToDecimalValue(n);
    assert '_' !in s by { assert forall k :: 0 <= k < |s| ==> s[k] != '_'; }
    DropUnderscoresChars(s);
  }

  /** Without a sign, `int` reads the whole text as grouped digits. */
  lemma ParseIntUnsigned(s: string)
    requires |s| > 0 && s[0] != '-' && s[0] != '+'
    ensures ParseInt(s) == if Grouped(s, 10) then Some(GroupedValue(s, 10) as int) else None
  {
  }

  /** After a minus sign, `int` reads the rest as grouped digits and negates them. */
  lemma ParseIntNegative(d: string)
    requires Grouped(d, 10)
    ensures ParseInt(['-'] + d) == Some(-(GroupedValue(d, 10) as int))
  {
    var s := ['-'] + d;
    assert s[0] == '-' && s[1..] == d;
  }

  lemma NegativeText(n: nat)
    requires n > 0
    ensures IntToDecimal(-(n as int)) == ['-'] + NatToDecimal(n)
  {
  }

  lemma NegativeRoundTrip(n: nat)
    requires n > 0
    ensures ParseInt(IntToDecimal(-(n as int))) == Some(-(n as int))
  {
    var t := NatToDecimal(n);
    NegativeText(n);
    NatToDecimalParses(n);
    ParseIntNegative(t);
    assert ParseInt(['-'] + t) == Some(-(n as int));
  }

  lemma NaturalRoundTrip(n: nat)
    ensures ParseInt(IntToDecimal(n)) == Some(n)
  {
    var s := NatToDecimal(n);
    NatToDecimalParses(n);
    assert IsDigit(s[0]);
    ParseIntUnsigned(s);
  }

  /** `int(str(i)) == i` */
  lemma DecimalRoundTrip(i: int)
    ensures ParseInt(IntToDecimal(i)) == Some(i)
  {
    if i < 0 {
      NegativeRoundTrip(-i);
    } else {
      NaturalRoundTrip(i);
    }
  }
}
