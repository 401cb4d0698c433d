/**
 * `units2bytes`: a size such as `10`, `5 KiB`, ` 2gb ` or `1.5M` read as a
 * number of bytes. The text must match
 *   ^\s*([0-9]+)(?:[.]([0-9]+))?\s*(?:([KkMmGgTtPpEeZzYy])(i)?)?[Bb]?\s*$
 * and the number is scaled by 1000^k (or 1024^k with the `i`) for the k-th
 * letter of `kmgtpezy`, in either case.
 */
module Units {
  import opened Wrappers
  import opened PyStr

  /** The unit letters in the order of their exponents 1, 2, ..., 8. */
  const UnitLetters: string := "kmgtpezy"

  predicate IsUnitLetter(c: char) {
    c == 'K' || c == 'k' || c == 'M' || c == 'm' || c == 'G' || c == 'g' || c == 'T' || c == 't' ||
    c == 'P' || c == 'p' || c == 'E' || c == 'e' || c == 'Z' || c == 'z' || c == 'Y' || c == 'y'
  }

  predicate IsByteSuffix(c: char) { c == 'B' || c == 'b' }

  /** The power a unit letter stands for: the keys of `_units2bytes_convf`. */
  function UnitExponent(c: char): nat {
    match Lower(c)
    case 'k' => 1
    case 'm' => 2
    case 'g' => 3
    case 't' => 4
    case 'p' => 5
    case 'e' => 6
    case 'z' => 7
    case 'y' => 8
    case _ => 0
  }

  function Power(b: nat, e: nat): nat {
    if e == 0 then 1 else b * Power(b, e - 1)
  }

  /** `_units2bytes_convd[unit]`, or `_units2bytes_convb[unit]` when `binary`. */
  function Multiplier(unit: Option<char>, binary: bool): nat {
    match unit
    case None => 1
    case Some(c) => Power(if binary then 1024 else 1000, UnitExponent(c))
  }

  /** What follows the number in a match: the spaces before the unit, the
      unit letter, the `i`, the `B`, and the trailing spaces. */
  datatype Tail = Tail(mid: string, unit: Option<char>, binary: bool, suffix: Option<char>, trail: string)

  /** A text the pattern matches, cut into the pieces of the pattern:
      leading spaces, the whole digits, the optional fraction digits and
      the tail. */
  datatype SizeText = SizeText(lead: string, digits: string, frac: Option<string>, tail: Tail)

  /** The pieces of a tail. Without a unit letter and a `B` all spaces after
      the number are the `mid` ones, as the greedy `\s*` takes them. */
  predicate TailOk(t: Tail) {
    && AllSpace(t.mid)
    && (t.unit.Some? ==> IsUnitLetter(t.unit.value))
    && (t.binary ==> t.unit.Some?)
    && (t.suffix.Some? ==> IsByteSuffix(t.suffix.value))
    && AllSpace(t.trail)
    && (t.unit.None? && t.suffix.None? ==> t.trail == [])
  }

  predicate WellFormed(p: SizeText) {
    && AllSpace(p.lead)
    && p.digits != [] && AllDigits(p.digits)
    && (p.frac.Some? ==> p.frac.value != [] && AllDigits(p.frac.value))
    && TailOk(p.tail)
  }

  function FracText(frac: Option<string>): string {
    match frac
    case None => ""
    case Some(f) => "." + f
  }

  function UnitText(unit: Option<char>, binary: bool): string {
    match unit
    case None => ""
    case Some(c) => if binary then [c, 'i'] else [c]
  }

  function CharText(c: Option<char>): string {
    match c
    case None => ""
    case Some(x) => [x]
  }

  function TailText(t: Tail): string {
    t.mid + (UnitText(t.unit, t.binary) + (CharText(t.suffix) + t.trail))
  }

  /** The text the pieces spell. */
  function Render(p: SizeText): string {
    p.lead + (p.digits + (FracText(p.frac) + TailText(p.tail)))
  }

  /** `(?:[.]([0-9]+))?`: the fraction digits and the rest, or no fraction
      and the text unchanged when there is no `.` followed by a digit. */
  function FracPart(r: string): (Option<string>, string) {
    if |r| > 0 && r[0] == '.' && DigitRun(r[1..]) > 0 then
      var f := DigitRun(r[1..]);
      (Some(r[1..][..f]), r[1..][f..])
    else
      (None, r)
  }

  /** `(?:([KkMmGgTtPpEeZzYy])(i)?)?` */
  function UnitPart(r: string): (Option<char>, bool, string) {
    if |r| > 0 && IsUnitLetter(r[0]) then
      if |r| > 1 && r[1] == 'i' then (Some(r[0]), true, r[2..]) else (Some(r[0]), false, r[1..])
    else
      (None, false, r)
  }

  /** `[Bb]?` */
  function SuffixPart(r: string): (Option<char>, string) {
    if |r| > 0 && IsByteSuffix(r[0]) then (Some(r[0]), r[1..]) else (None, r)
  }

  /** `\s*(?:([KkMmGgTtPpEeZzYy])(i)?)?[Bb]?\s*$` after the number. */
  function TailPart(r: string): Option<Tail> {
    var m := SpaceRun(r);
    var u := UnitPart(r[m..]);
    var b := SuffixPart(u.2);
    if AllSpace(b.1) then Some(Tail(r[..m], u.0, u.1, b.0, b.1)) else None
  }

  /** `_units2bytes_re_parse.match(data)`: the pieces of the match, or None. */
  function Parse(s: string): (r: Option<SizeText>)
    ensures r.Some? ==> AllDigits(r.value.digits)
  {
    var a := SpaceRun(s);
    var r := s[a..];
    var k := DigitRun(r);
    if k == 0 then None
    else
      var f := FracPart(r[k..]);
      match TailPart(f.1)
      case None => None
      case Some(t) => Some(SizeText(s[..a], r[..k], f.0, t))
  }

  /** A size: a whole number of bytes, or a number with a fraction, kept as
      its digits and the multiplier it is scaled by. */
  datatype Size = Bytes(n: int) | Fraction(whole: nat, fraction: string, multiplier: nat)

  /** The size a match stands for. */
  function SizeOf(p: SizeText): Size
    requires AllDigits(p.digits)
  {
    var m := Multiplier(p.tail.unit, p.tail.binary);
    if p.frac.None? then Bytes(DigitsValue(p.digits) * m)
    else Fraction(DigitsValue(p.digits), p.frac.value, m)
  }

  /** `units2bytes(data)` on the text `str(data)`; Err where it raises. */
  function Units2Bytes(s: string): (r: Result<Size>)
    ensures r.Ok? <==> exists p :: WellFormed(p) && Render(p) == s
    ensures forall p :: WellFormed(p) && Render(p) == s ==> r == Ok(SizeOf(p))
  {
    MatchesLayouts(s);
    match Parse(s)
    case None => Err("Could not parse '" + s + "' as number with units.")
    case Some(p) => Ok(SizeOf(p))
  }

  lemma Cut(a: string, b: string)
    ensures (a + b)[..|a|] == a && (a + b)[|a|..] == b
  {
  }

  lemma Rejoin<T>(s: seq<T>, i: nat)
    requires i <= |s|
    ensures s == s[..i] + s[i..]
  {
  }

  lemma SuffixPartOf(t: Tail)
    requires TailOk(t)
    ensures SuffixPart(CharText(t.suffix) + t.trail) == (t.suffix, t.trail)
  {
    if t.suffix.None? {
      assert CharText(t.suffix) + t.trail == t.trail;
      assert t.trail != [] ==> IsSpace(t.trail[0]);
    }
  }

  lemma UnitPartOf(t: Tail)
    requires TailOk(t)
    ensures UnitPart(UnitText(t.unit, t.binary) + (CharText(t.suffix) + t.trail))
            == (t.unit, t.binary, CharText(t.suffix) + t.trail)
  {
    var rest := CharText(t.suffix) + t.trail;
    assert rest != [] ==> IsByteSuffix(rest[0]) || IsSpace(rest[0]) by {
      if t.suffix.None? { assert rest == t.trail; }
    }
    match t.unit
    case None =>
      assert UnitText(t.unit, t.binary) + rest == rest;
      assert rest != [] ==> IsByteSuffix(rest[0]) by {
        if t.suffix.None? { assert rest == t.trail; }
      }
    case Some(c) =>
      if t.binary {
        assert UnitText(t.unit, t.binary) + rest == [c, 'i'] + rest;
      } else {
        assert UnitText(t.unit, t.binary) + rest == [c] + rest;
      }
  }

  /** The text after the spaces following the number starts with no space. */
  lemma AfterMidNoSpace(t: Tail)
    requires TailOk(t)
    ensures var after := UnitText(t.unit, t.binary) + (CharText(t.suffix) + t.trail);
            after != [] ==> !IsSpace(after[0])
  {
    var after := UnitText(t.unit, t.binary) + (CharText(t.suffix) + t.trail);
    if t.unit.Some? {
      assert after[0] == t.unit.value;
    } else if t.suffix.Some? {
      assert after[0] == t.suffix.value;
    } else {
      assert after == t.trail;
    }
  }

  lemma TailPartOf(t: Tail)
    requires TailOk(t)
    ensures TailPart(TailText(t)) == Some(t)
  {
    var after := UnitText(t.unit, t.binary) + (CharText(t.suffix) + t.trail);
    AfterMidNoSpace(t);
    SpaceRunAppend(t.mid, after);
    Cut(t.mid, after);
    UnitPartOf(t);
    SuffixPartOf(t);
  }

  /** A tail starts with neither a digit nor a `.`. */
  lemma TailStart(t: Tail)
    requires TailOk(t)
    ensures TailText(t) != [] ==> !IsDigit(TailText(t)[0]) && TailText(t)[0] != '.'
  {
    var x := TailText(t);
    if x != [] {
      if t.mid != [] {
        assert x[0] == t.mid[0];
      } else if t.unit.Some? {
        assert x[0] == t.unit.value;
      } else if t.suffix.Some? {
        assert x[0] == t.suffix.value;
      }
    }
  }

  lemma FracPartOf(frac: Option<string>, t: Tail)
    requires frac.Some? ==> frac.value != [] && AllDigits(frac.value)
    requires TailOk(t)
    ensures FracPart(FracText(frac) + TailText(t)) == (frac, TailText(t))
  {
    TailStart(t);
    match frac
    case None =>
      assert FracText(frac) + TailText(t) == TailText(t);
    case Some(f) =>
      FractionDigits(f, TailText(t));
  }

  lemma FractionDigits(f: string, tail: string)
    requires f != [] && AllDigits(f)
    requires tail != [] ==> !IsDigit(tail[0])
    ensures FracPart("." + f + tail) == (Some(f), tail)
  {
    var r := "." + f + tail;
    assert r[1..] == f + tail;
    DigitRunAppend(f, tail);
    Cut(f, tail);
  }

  /** Every well-formed piece list is parsed back exactly. */
  lemma ParseRender(p: SizeText)
    requires WellFormed(p)
    ensures Parse(Render(p)) == Some(p)
  {
    var body := FracText(p.frac) + TailText(p.tail);
    var num := p.digits + body;
    SpaceRunAppend(p.lead, num);
    Cut(p.lead, num);
    FracPartOf(p.frac, p.tail);
    assert body != [] ==> !IsDigit(body[0]) by {
      TailStart(p.tail);
      if p.frac.Some? { assert body[0] == '.'; }
    }
    DigitRunAppend(p.digits, body);
    Cut(p.digits, body);
    TailPartOf(p.tail);
  }

  lemma SuffixPartSpells(r: string)
    ensures r == CharText(SuffixPart(r).0) + SuffixPart(r).1
    ensures SuffixPart(r).0.Some? ==> IsByteSuffix(SuffixPart(r).0.value)
    ensures SuffixPart(r).0.None? ==> SuffixPart(r).1 == r
  {
  }

  lemma UnitPartSpells(r: string)
    ensures r == UnitText(UnitPart(r).0, UnitPart(r).1) + UnitPart(r).2
    ensures UnitPart(r).0.Some? ==> IsUnitLetter(UnitPart(r).0.value)
    ensures UnitPart(r).1 ==> UnitPart(r).0.Some?
    ensures UnitPart(r).0.None? ==> UnitPart(r).2 == r
  {
    if |r| > 1 && IsUnitLetter(r[0]) && r[1] == 'i' {
      assert r == [r[0], 'i'] + r[2..];
    }
  }

  /** What TailPart accepts is a well-formed tail spelling the text. */
  lemma TailPartSpells(r: string)
    requires TailPart(r).Some?
    ensures TailOk(TailPart(r).value) && TailText(TailPart(r).value) == r
  {
    var m := SpaceRun(r);
    var u := UnitPart(r[m..]);
    UnitPartSpells(r[m..]);
    SuffixPartSpells(u.2);
    Rejoin(r, m);
  }

  lemma FracPartSpells(r: string)
    ensures r == FracText(FracPart(r).0) + FracPart(r).1
    ensures FracPart(r).0.Some? ==> FracPart(r).0.value != [] && AllDigits(FracPart(r).0.value)
  {
    if |r| > 0 && r[0] == '.' && DigitRun(r[1..]) > 0 {
      var f := DigitRun(r[1..]);
      assert r == "." + r[1..];
      assert r[1..] == r[1..][..f] + r[1..][f..];
    }
  }

  /** Whatever Parse accepts is a well-formed piece list spelling the text. */
  lemma RenderParse(s: string)
    requires Parse(s).Some?
    ensures WellFormed(Parse(s).value) && Render(Parse(s).value) == s
  {
    var a := SpaceRun(s);
    var r := s[a..];
    var k := DigitRun(r);
    FracPartSpells(r[k..]);
    TailPartSpells(FracPart(r[k..]).1);
    Rejoin(r, k);
    Rejoin(s, a);
  }

  /** The pattern matches exactly the texts some well-formed layout spells,
      and then gives back that layout's pieces. */
  lemma MatchesLayouts(s: string)
    ensures Parse(s).Some? <==> exists p :: WellFormed(p) && Render(p) == s
    ensures forall p :: WellFormed(p) && Render(p) == s ==> Parse(s) == Some(p)
  {
    if Parse(s).Some? {
      RenderParse(s);
    }
    forall p | WellFormed(p) && Render(p) == s
      ensures Parse(s) == Some(p)
    {
      ParseRender(p);
    }
  }

  /** On a match without a fraction the number is the digits' value times
      the unit's multiplier. */
  lemma Units2BytesOfText(p: SizeText)
    requires WellFormed(p) && p.frac.None?
    ensures Units2Bytes(Render(p)) == Ok(Bytes(DigitsValue(p.digits) * Multiplier(p.tail.unit, p.tail.binary)))
  {
    ParseRender(p);
  }

  /** The multiplier tables: 1 without a letter, 1000^k or 1024^k for the
      k-th letter of `kmgtpezy` in lower or upper case. */
  lemma MultiplierTable(k: nat, binary: bool)
    requires k < |UnitLetters|
    ensures Multiplier(None, binary) == 1
    ensures Multiplier(Some(UnitLetters[k]), binary) == Power(if binary then 1024 else 1000, k + 1)
    ensures Multiplier(Some(Upper(UnitLetters[k])), binary) == Power(if binary then 1024 else 1000, k + 1)
  {
  }

  /** The value does not depend on the spaces, on the letter's case or on
      the `B`. */
  lemma SizeIgnoresLayout(p: SizeText, q: SizeText)
    requires WellFormed(p) && WellFormed(q)
    requires p.digits == q.digits && p.frac == q.frac && p.tail.binary == q.tail.binary
    requires p.tail.unit.None? <==> q.tail.unit.None?
    requires p.tail.unit.Some? ==> Lower(p.tail.unit.value) == Lower(q.tail.unit.value)
    ensures Units2Bytes(Render(p)) == Units2Bytes(Render(q))
  {
    ParseRender(p);
    ParseRender(q);
    SameMultiplier(p.tail.unit, q.tail.unit, p.tail.binary);
  }

  lemma SameMultiplier(u: Option<char>, v: Option<char>, binary: bool)
    requires u.None? <==> v.None?
    requires u.Some? ==> Lower(u.value) == Lower(v.value)
    ensures Multiplier(u, binary) == Multiplier(v, binary)
  {
    if u.Some? {
      assert UnitExponent(u.value) == UnitExponent(v.value);
    }
  }

  /** A bare run of digits is its own value in bytes. */
  lemma Units2BytesOfDigits(d: string)
    requires d != [] && AllDigits(d)
    ensures Units2Bytes(d) == Ok(Bytes(DigitsValue(d)))
  {
    ParseDigits(d);
    var p := SizeText([], d, None, Tail([], None, false, None, []));
    assert Multiplier(p.tail.unit, p.tail.binary) == 1;
    assert SizeOf(p) == Bytes(DigitsValue(d));
  }

  lemma ParseDigits(d: string)
    requires d != [] && AllDigits(d)
    ensures Parse(d) == Some(SizeText([], d, None, Tail([], None, false, None, [])))
  {
    assert d[0..] == d;
    DigitRunAppend(d, []);
    assert d + [] == d;
    assert TailPart([]) == Some(Tail([], None, false, None, []));
  }

  /** `units2bytes(n)` for a non-negative int n is n. */
  lemma Units2BytesOfNat(n: nat)
    ensures Units2Bytes(NatToString(n)) == Ok(Bytes(n))
  {
    NatToStringValue(n);
    Units2BytesOfDigits(NatToString(n));
  }
}
