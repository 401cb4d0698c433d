/**
 * The parts of Python's string and integer semantics that the tool relies on:
 * whitespace (`str.isspace`, the `\s` class of `re` on `str` patterns),
 * `str.strip`, `str.split(sep)`, `str.startswith`/`endswith`, the `in`
 * substring test, `"%d" % n` and `int(text)` for base 10.
 */
module PyStr {
  import opened Wrappers

  /** Py_UNICODE_ISSPACE: the characters `str.isspace()`, `str.strip()`
      and the regular-expression class `\s` treat as whitespace. */
  predicate IsSpace(c: char) {
    var n := c as int;
    (9 <= n <= 13) || (28 <= n <= 32) || n == 0x85 || n == 0xA0 || n == 0x1680
    || (0x2000 <= n <= 0x200A) || n == 0x2028 || n == 0x2029 || n == 0x202F
    || n == 0x205F || n == 0x3000
  }

  /** The information separators U+001C to U+001F: whitespace to
      `str.strip()`, but not to `int()`, which keeps every character below
      127 as it is and strips only the ASCII whitespace 9 to 13 and 32 (and
      non-ASCII whitespace, which it first turns into a blank). */
  predicate IsInfoSeparator(c: char) { 0x1C <= c as int <= 0x1F }

  /** Whitespace that `int()` strips. */
  predicate AllIntSpace(s: string) { forall i :: 0 <= i < |s| ==> IsSpace(s[i]) && !IsInfoSeparator(s[i]) }

  predicate IsDigit(c: char) { '0' <= c <= '9' }

  predicate AllSpace(s: string) { forall i :: 0 <= i < |s| ==> IsSpace(s[i]) }

  predicate AllDigits(s: string) { forall i :: 0 <= i < |s| ==> IsDigit(s[i]) }

  function DigitValue(c: char): (r: nat)
    requires IsDigit(c)
    ensures r < 10
  {
    (c as int) - ('0' as int)
  }

  function DigitChar(d: nat): (c: char)
    requires d < 10
    ensures IsDigit(c) && DigitValue(c) == d
  {
    (('0' as int) + d) as char
  }

  /** `str.lower` on ASCII letters. */
  function Lower(c: char): (r: char)
    ensures 'A' <= c <= 'Z' ==> 'a' <= r <= 'z'
    ensures !('A' <= c <= 'Z') ==> r == c
  {
    if 'A' <= c <= 'Z' then (c as int + 32) as char else c
  }

  /** `str.upper` on ASCII letters. */
  function Upper(c: char): (r: char)
    ensures 'a' <= c <= 'z' ==> 'A' <= r <= 'Z' && Lower(r) == c
    ensures !('a' <= c <= 'z') ==> r == c
  {
    if 'a' <= c <= 'z' then (c as int - 32) as char else c
  }

  /** `str.lower` restricted to ASCII letters. */
  function LowerText(s: string): (r: string)
    ensures |r| == |s| && forall i :: 0 <= i < |s| ==> r[i] == Lower(s[i])
  {
    if |s| == 0 then "" else [Lower(s[0])] + LowerText(s[1..])
  }

  /** The value of a run of decimal digits, most significant first. */
  function DigitsValue(s: string): nat
    requires AllDigits(s)
  {
    if |s| == 0 then 0 else DigitsValue(s[..|s| - 1]) * 10 + DigitValue(s[|s| - 1])
  }

  /** `"%d" % n` for a non-negative n. */
  function NatToString(n: nat): (r: string)
    ensures |r| > 0 && AllDigits(r)
  {
    if n < 10 then [DigitChar(n)] else NatToString(n / 10) + [DigitChar(n % 10)]
  }

  /** `str(n)` / `"%d" % n` for any integer. */
  function IntToString(n: int): (r: string)
    ensures |r| > 0
    ensures n >= 0 ==> r == NatToString(n)
    ensures n < 0 ==> r == "-" + NatToString(-n)
  {
    if n >= 0 then NatToString(n) else "-" + NatToString(-n)
  }

  lemma {:induction false} NatToStringValue(n: nat)
    ensures DigitsValue(NatToString(n)) == n
  {
    if n >= 10 {
      var s := NatToString(n);
      NatToStringValue(n / 10);
      assert s[..|s| - 1] == NatToString(n / 10);
    }
  }

  /** Length of the longest whitespace prefix of s. */
  function SpaceRun(s: string): (k: nat)
    ensures k <= |s| && AllSpace(s[..k])
    ensures k < |s| ==> !IsSpace(s[k])
  {
    if |s| == 0 || !IsSpace(s[0]) then 0 else 1 + SpaceRun(s[1..])
  }

  /** Length of the longest ASCII-digit prefix of s. */
  function DigitRun(s: string): (k: nat)
    ensures k <= |s| && AllDigits(s[..k])
    ensures k < |s| ==> !IsDigit(s[k])
  {
    if |s| == 0 || !IsDigit(s[0]) then 0 else 1 + DigitRun(s[1..])
  }

  lemma {:induction false} SpaceRunAppend(w: string, t: string)
    requires AllSpace(w)
    requires t == [] || !IsSpace(t[0])
    ensures SpaceRun(w + t) == |w|
  {
    if |w| > 0 {
      assert (w + t)[1..] == w[1..] + t;
      SpaceRunAppend(w[1..], t);
    } else {
      assert w + t == t;
    }
  }

  lemma {:induction false} DigitRunAppend(d: string, t: string)
    requires AllDigits(d)
    requires t == [] || !IsDigit(t[0])
    ensures DigitRun(d + t) == |d|
  {
    if |d| > 0 {
      assert (d + t)[1..] == d[1..] + t;
      DigitRunAppend(d[1..], t);
    } else {
      assert d + t == t;
    }
  }

  function LStrip(s: string): (r: string)
    ensures r == s[SpaceRun(s)..]
  {
    s[SpaceRun(s)..]
  }

  /** s without its trailing whitespace. */
  function RStrip(s: string): (r: string)
    ensures |r| <= |s| && r == s[..|r|] && AllSpace(s[|r|..])
    ensures r == [] || !IsSpace(r[|r| - 1])
  {
    if |s| == 0 then s
    else if IsSpace(s[|s| - 1]) then
      var r := RStrip(s[..|s| - 1]);
      assert s[|r|..] == s[..|s| - 1][|r|..] + [s[|s| - 1]];
      r
    else s
  }

  /** `str.strip()` with no argument. */
  function Strip(s: string): (r: string)
    ensures r == [] || (!IsSpace(r[0]) && !IsSpace(r[|r| - 1]))
    ensures forall c :: c in r ==> c in s
  {
    RStrip(LStrip(s))
  }

  lemma StripNoEdgeSpace(s: string)
    requires s == [] || (!IsSpace(s[0]) && !IsSpace(s[|s| - 1]))
    ensures Strip(s) == s
  {
    assert SpaceRun(s) == 0;
  }

  lemma {:induction false} RStripAppendSpace(s: string, w: string)
    requires AllSpace(w)
    requires s == [] || !IsSpace(s[|s| - 1])
    ensures RStrip(s + w) == s
  {
    if |w| == 0 {
      assert s + w == s;
    } else {
      assert (s + w)[..|s + w| - 1] == s + w[..|w| - 1];
      RStripAppendSpace(s, w[..|w| - 1]);
    }
  }

  /** Stripping removes exactly the surrounding whitespace. */
  lemma StripPadded(a: string, s: string, b: string)
    requires AllSpace(a) && AllSpace(b)
    requires s != [] && !IsSpace(s[0]) && !IsSpace(s[|s| - 1])
    ensures Strip(a + s + b) == s
  {
    SpaceRunAppend(a, s + b);
    assert a + s + b == a + (s + b);
    assert LStrip(a + s + b) == s + b;
    RStripAppendSpace(s, b);
  }

  predicate StartsWith(s: string, p: string) { |p| <= |s| && s[..|p|] == p }

  predicate EndsWith(s: string, p: string) { |p| <= |s| && s[|s| - |p|..] == p }

  /** Python's `p in s` on strings. */
  predicate Contains(s: string, p: string) {
    exists i :: 0 <= i <= |s| - |p| && OccursAt(s, p, i)
  }

  predicate OccursAt(s: string, p: string, i: nat)
    requires i + |p| <= |s|
  {
    s[i..i + |p|] == p
  }

  /** `str.split(sep)` for a one-character separator. */
  function Split(s: string, sep: char): (r: seq<string>)
    ensures |r| > 0
    ensures forall i :: 0 <= i < |r| ==> sep !in r[i]
    decreases |s|
  {
    if sep !in s then [s]
    else
      var i := IndexOf(s, sep);
      [s[..i]] + Split(s[i + 1..], sep)
  }

  function IndexOf(s: string, c: char): (i: nat)
    requires c in s
    ensures i < |s| && s[i] == c && c !in s[..i]
  {
    if s[0] == c then 0 else 1 + IndexOf(s[1..], c)
  }

  /** `sep.join(xs)`. */
  function Join(xs: seq<string>, sep: string): string {
    if |xs| == 0 then "" else if |xs| == 1 then xs[0] else xs[0] + sep + Join(xs[1..], sep)
  }

  lemma {:induction false} SplitJoin(xs: seq<string>, sep: char)
    requires |xs| > 0
    requires forall i :: 0 <= i < |xs| ==> sep !in xs[i]
    ensures Split(Join(xs, [sep]), sep) == xs
  {
    if |xs| > 1 {
      var a, b := xs[0], Join(xs[1..], [sep]);
      var s := Join(xs, [sep]);
      assert s == a + [sep] + b;
      SplitAt(a, sep, b);
      SplitJoin(xs[1..], sep);
    }
  }

  /** Splitting at the first separator. */
  lemma SplitAt(a: string, sep: char, b: string)
    requires sep !in a
    ensures Split(a + [sep] + b, sep) == [a] + Split(b, sep)
  {
    var s := a + [sep] + b;
    assert s[|a|] == sep;
    IndexOfAfter(a, sep, b);
    assert s[..|a|] == a;
    assert s[|a| + 1..] == b;
  }

  lemma {:induction false} IndexOfAfter(a: string, sep: char, b: string)
    requires sep !in a
    ensures sep in a + [sep] + b && IndexOf(a + [sep] + b, sep) == |a|
  {
    var s := a + [sep] + b;
    assert s[|a|] == sep;
    if |a| > 0 {
      assert s[1..] == a[1..] + [sep] + b;
      IndexOfAfter(a[1..], sep, b);
    }
  }

  /** The body of a base-10 integer literal as `int()` accepts it: ASCII
      digits, with single underscores allowed between two digits. */
  predicate IsDigitGroups(s: string) {
    |s| > 0 && IsDigit(s[0]) && IsDigit(s[|s| - 1])
    && (forall i :: 0 <= i < |s| ==> IsDigit(s[i]) || s[i] == '_')
    && (forall i :: 0 <= i < |s| - 1 ==> !(s[i] == '_' && s[i + 1] == '_'))
  }

  function RemoveUnderscores(s: string): (r: string)
    requires forall i :: 0 <= i < |s| ==> IsDigit(s[i]) || s[i] == '_'
    ensures AllDigits(r)
  {
    if |s| == 0 then []
    else if s[0] == '_' then RemoveUnderscores(s[1..])
    else [s[0]] + RemoveUnderscores(s[1..])
  }

  lemma {:induction false} RemoveUnderscoresOfDigits(s: string)
    requires AllDigits(s)
    ensures RemoveUnderscores(s) == s
  {
    if |s| > 0 {
      RemoveUnderscoresOfDigits(s[1..]);
    }
  }

  /** `int(text)` in base 10: surrounding whitespace, an optional sign, and
      digit groups; None where Python raises ValueError. An information
      separator is never stripped and is no digit, so a text holding one
      is refused; without them `int()` strips exactly the `IsSpace`
      characters. */
  function PyInt(text: string): (r: Option<int>)
    ensures r.Some? ==> exists i :: 0 <= i < |text| && IsDigit(text[i])
    ensures r.Some? ==> forall i :: 0 <= i < |text| ==> !IsInfoSeparator(text[i])
  {
    if exists i :: 0 <= i < |text| && IsInfoSeparator(text[i]) then None
    else
      var t := Strip(text);
      var r := IntLiteral(t);
      assert r.Some? ==> t[|t| - 1] in text;
      r
  }

  /** `int("\x1c5")` raises ValueError, though `"\x1c5".strip()` is "5". */
  lemma PyIntKeepsInfoSeparator()
    ensures Strip("\U{1c}5") == "5"
    ensures PyInt("\U{1c}5") == None
  {
    assert IsInfoSeparator("\U{1c}5"[0]);
    assert SpaceRun("\U{1c}5"[1..]) == 0;
  }

  /** An optional sign followed by digit groups, with nothing around it. */
  function IntLiteral(t: string): (r: Option<int>)
    ensures r.Some? ==> |t| > 0 && IsDigit(t[|t| - 1])
  {
    if |t| == 0 then None
    else
      var neg := t[0] == '-';
      var body := if t[0] == '-' || t[0] == '+' then t[1..] else t;
      if !IsDigitGroups(body) then None
      else
        var v: int := DigitsValue(RemoveUnderscores(body));
        Some(if neg then -v else v)
  }

  lemma IntLiteralOfIntToString(n: int)
    ensures IntLiteral(IntToString(n)) == Some(n)
  {
    var m: nat := if n >= 0 then n else -n;
    var d := NatToString(m);
    DigitsAreGroups(d);
    RemoveUnderscoresOfDigits(d);
    NatToStringValue(m);
    if n < 0 {
      assert IntToString(n)[1..] == d;
    }
  }

  /** `int()` reads back what `str()` writes, whatever whitespace surrounds it. */
  lemma PyIntOfIntToString(n: int, a: string, b: string)
    requires AllIntSpace(a) && AllIntSpace(b)
    ensures PyInt(a + IntToString(n) + b) == Some(n)
  {
    var s := IntToString(n);
    assert !IsSpace(s[0]) && !IsSpace(s[|s| - 1]);
    assert forall i :: 0 <= i < |s| ==> IsDigit(s[i]) || s[i] == '-' by {
      if n < 0 {
        forall i | 1 <= i < |s|
          ensures IsDigit(s[i])
        {
          assert s[i] == NatToString(-n)[i - 1];
        }
      }
    }
    var t := a + s + b;
    forall i | 0 <= i < |t|
      ensures !IsInfoSeparator(t[i])
    {
      if i < |a| {
        assert t[i] == a[i];
      } else if i < |a| + |s| {
        assert t[i] == s[i - |a|];
      } else {
        assert t[i] == b[i - |a| - |s|];
      }
    }
    StripPadded(a, s, b);
    IntLiteralOfIntToString(n);
  }

  lemma DigitsAreGroups(d: string)
    requires |d| > 0 && AllDigits(d)
    ensures IsDigitGroups(d)
  {
  }

  /** A text whose last non-space character is not a digit is no integer. */
  lemma PyIntRejectsTrailingLetter(text: string, w: string)
    requires text != [] && !IsDigit(text[|text| - 1]) && !IsSpace(text[|text| - 1])
    requires AllSpace(w)
    ensures PyInt(text + w) == None
  {
    var t := text + w;
    var k := SpaceRun(t);
    assert t[|text| - 1] == text[|text| - 1];
    assert k < |text|;
    assert t[k..] == text[k..] + w;
    RStripAppendSpace(text[k..], w);
    assert Strip(t) == text[k..];
  }

  /** The characters an integer text accepted by `int()` can hold. */
  predicate IntTextChar(c: char) {
    IsSpace(c) || IsDigit(c) || c == '_' || c == '+' || c == '-'
  }

  lemma IntLiteralChars(t: string)
    requires IntLiteral(t).Some?
    ensures forall i :: 0 <= i < |t| ==> IntTextChar(t[i])
  {
    var body := if t[0] == '-' || t[0] == '+' then t[1..] else t;
    forall i | 0 <= i < |t|
      ensures IntTextChar(t[i])
    {
      if t[0] == '-' || t[0] == '+' {
        if i > 0 {
          assert t[i] == body[i - 1];
        }
      } else {
        assert t[i] == body[i];
      }
    }
  }

  predicate IsAsciiLetter(c: char) { 'a' <= c <= 'z' || 'A' <= c <= 'Z' }

  lemma SpaceIsNoLetter(c: char)
    requires IsSpace(c)
    ensures !IsAsciiLetter(c)
  {
  }

  /** A text `int()` accepts holds no ASCII letter (its characters are all
      whitespace, digits, underscores or signs). */
  lemma PyIntChars(text: string)
    requires PyInt(text).Some?
    ensures forall i :: 0 <= i < |text| ==> !IsAsciiLetter(text[i])
  {
    var a := SpaceRun(text);
    var x := LStrip(text);
    var r := RStrip(x);
    IntLiteralChars(r);
    SliceParts(text, a, |r|);
    NoLetterAround(text[..a], r, x[|r|..]);
  }

  /** `int()` rejects a text with an ASCII letter anywhere in it. */
  lemma PyIntRejectsLetter(text: string, i: nat)
    requires i < |text| && IsAsciiLetter(text[i])
    ensures PyInt(text) == None
  {
    if PyInt(text).Some? {
      PyIntChars(text);
    }
  }

  lemma SliceParts<T>(s: seq<T>, a: nat, n: nat)
    requires a + n <= |s|
    ensures s == s[..a] + s[a..][..n] + s[a..][n..]
  {
    assert s[a..][..n] == s[a..a + n];
    assert s[a..][n..] == s[a + n..];
  }

  lemma NoLetterAround(p: string, q: string, w: string)
    requires AllSpace(p) && AllSpace(w)
    requires forall i :: 0 <= i < |q| ==> IntTextChar(q[i])
    ensures forall i :: 0 <= i < |p + q + w| ==> !IsAsciiLetter((p + q + w)[i])
  {
    forall i | 0 <= i < |p + q + w|
      ensures !IsAsciiLetter((p + q + w)[i])
    {
      if i < |p| {
        SpaceIsNoLetter(p[i]);
      } else if i >= |p| + |q| {
        SpaceIsNoLetter(w[i - |p| - |q|]);
      }
    }
  }
}
