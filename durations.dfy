/**
 * Durations written as `<num>w <num>d <num>h <num>m <num>s`: the parser
 * `str2sec`, its formatter `sec2str`, and the older parser
 * `string_to_seconds` that reports an invalid text as -1.
 */
module Durations {
  import opened Wrappers
  import opened PyStr

  const SecondsInMinute: nat := 60
  /** 60 * 60 */
  const SecondsInHour: nat := 3600
  /** 3600 * 24 */
  const SecondsInDay: nat := 86400
  /** 86400 * 7 */
  const SecondsInWeek: nat := 604800

  /** The unit letters in the only order the parsers accept them. */
  const TimeScaleChars: seq<char> := ['w', 'd', 'h', 'm', 's']

  /** Seconds per unit, index by index with TimeScaleChars. */
  const TimeScaleSeconds: seq<int> := [604800, 86400, 3600, 60, 1]

  /** The index of the seconds unit, which a trailing bare number addresses. */
  const SecondIndex: nat := 4

  /** `re.match(r'^(([0-9]+)<unit>\s*)', data)`: on a match, the number and
      the length of the whole match (number, unit letter, following spaces). */
  function MatchToken(data: string, unit: char): (r: Option<(nat, nat)>)
    ensures r.Some? ==> 0 < r.value.1 <= |data|
  {
    var k := DigitRun(data);
    if 0 < k < |data| && data[k] == unit then
      Some((DigitsValue(data[..k]), k + 1 + SpaceRun(data[k + 1..])))
    else
      None
  }

  /** The count of an optional leading token for `unit` (0 when there is
      none) and the text after that token. */
  function Step(data: string, unit: char): (r: (nat, string))
    ensures |r.1| <= |data|
  {
    match MatchToken(data, unit)
    case None => (0, data)
    case Some((n, len)) => (n, data[len..])
  }

  /** Strips the optional tokens for the units 0, 1, ..., k-1 from the front
      of data, in that order: their counts (0 for an absent token) and what
      is left. */
  function Consume(data: string, k: nat): (r: (seq<nat>, string))
    requires k <= 5
    ensures |r.0| == k
  {
    if k == 0 then ([], data)
    else
      var (c, rest) := Consume(data, k - 1);
      var (n, after) := Step(rest, TimeScaleChars[k - 1]);
      (c + [n], after)
  }

  /** One unfolding of Consume. */
  lemma ConsumeNext(data: string, k: nat, prev: (seq<nat>, string), st: (nat, string))
    requires k < 5
    requires prev == Consume(data, k) && st == Step(prev.1, TimeScaleChars[k])
    ensures Consume(data, k + 1) == (prev.0 + [st.0], st.1)
  {
  }

  /** One `re.match(r'^(([0-9]+)<unit>\s*)', data)` block of str2sec: on a
      match the count times `scale` is added and the token is cut off. */
  method TakeToken(data: string, unit: char, scale: int, seconds: int) returns (rest: string, total: int)
    ensures rest == Step(data, unit).1
    ensures total == seconds + Step(data, unit).0 * scale
  {
    rest, total := data, seconds;
    var ma := MatchToken(data, unit);
    if ma.Some? {
      total := total + ma.value.0 * scale;
      rest := data[ma.value.1..];
    }
  }

  /** The number of seconds the five counts w, d, h, m, s stand for. */
  function Weighted(c: seq<int>): int
    requires |c| == 5
  {
    c[0] * SecondsInWeek + c[1] * SecondsInDay + c[2] * SecondsInHour + c[3] * SecondsInMinute + c[4]
  }

  /** The running sum `string_to_seconds` accumulates over the first |c| units. */
  function Dot(c: seq<int>, w: seq<int>): int
    requires |c| <= |w|
  {
    if |c| == 0 then 0 else Dot(c[..|c| - 1], w) + c[|c| - 1] * w[|c| - 1]
  }

  lemma DotStep(c: seq<int>, w: seq<int>, k: nat)
    requires k < |c| <= |w|
    ensures Dot(c[..k + 1], w) == Dot(c[..k], w) + c[k] * w[k]
  {
    assert c[..k + 1][..k] == c[..k];
  }

  lemma DotIsWeighted(c: seq<int>)
    requires |c| == 5
    ensures Dot(c, TimeScaleSeconds) == Weighted(c)
  {
    var w := TimeScaleSeconds;
    DotStep(c, w, 0);
    DotStep(c, w, 1);
    DotStep(c, w, 2);
    DotStep(c, w, 3);
    DotStep(c, w, 4);
    assert c[..5] == c;
    assert c[..0] == [];
  }

  /** What `str2sec` returns, or Err where it raises; None is Python's None. */
  function Str2SecValue(data: Option<string>): Result<int> {
    match data
    case None => Ok(0)
    case Some(s) =>
      match PyInt(s)
      case Some(v) => Ok(v)
      case None =>
        var (c, rest) := Consume(s, 5);
        if |rest| == 0 then Ok(Weighted(c))
        else
          match PyInt(rest)
          case Some(v) => Ok(Weighted(c) + v)
          case None => Err("Date time format must be: <num>w <num>d <num>h <num>m <num>s")
  }

  /** The five token blocks of str2sec, in the order w, d, h, m, s: the text
      that is left and the seconds the tokens stand for. */
  method TakeTokens(data0: string) returns (data: string, seconds: int)
    ensures data == Consume(data0, 5).1
    ensures seconds == Weighted(Consume(data0, 5).0)
  {
    data, seconds := data0, 0;
    data, seconds := TakeToken(data, 'w', SecondsInWeek, seconds);
    assert data == Consume(data0, 1).1;
    data, seconds := TakeToken(data, 'd', SecondsInDay, seconds);
    assert data == Consume(data0, 2).1;
    data, seconds := TakeToken(data, 'h', SecondsInHour, seconds);
    assert data == Consume(data0, 3).1;
    data, seconds := TakeToken(data, 'm', SecondsInMinute, seconds);
    assert data == Consume(data0, 4).1;
    data, seconds := TakeToken(data, 's', 1, seconds);
  }

  /** str2sec: a plain integer is returned as it is; otherwise the unit
      tokens are stripped one after the other and a bare number left at the
      end is added as seconds. */
  method Str2Sec(data0: Option<string>) returns (r: Result<int>)
    ensures r == Str2SecValue(data0)
  {
    if data0 == None {
      return Ok(0);
    }
    var data := data0.value;
    var asInt := PyInt(data);
    if asInt.Some? {
      return Ok(asInt.value);
    }
    var seconds;
    data, seconds := TakeTokens(data);
    if |data| > 0 {
      var tail := PyInt(data);
      if tail.Some? {
        seconds := seconds + tail.value;
        data := "";
      }
    }
    if |data| != 0 {
      return Err("Date time format must be: <num>w <num>d <num>h <num>m <num>s");
    }
    r := Ok(seconds);
  }

  /** The decomposition `sec2str` performs: whole weeks, then days, hours,
      minutes and seconds of what remains, each step by floor division. */
  function Components(seconds: int): (c: seq<int>)
    ensures |c| == 5
  {
    var weeks := seconds / SecondsInWeek;
    var r1 := seconds % SecondsInWeek;
    var days := r1 / SecondsInDay;
    var r2 := r1 % SecondsInDay;
    var hours := r2 / SecondsInHour;
    var r3 := r2 % SecondsInHour;
    [weeks, days, hours, r3 / SecondsInMinute, r3 % SecondsInMinute]
  }

  /** `"%d<unit>" % count`. */
  function Token(count: nat, i: nat): string
    requires i < 5
  {
    NatToString(count) + [TimeScaleChars[i]]
  }

  /** The tokens of the positive counts among c[i..], in unit order. */
  function TokenList(c: seq<int>, i: nat): (r: seq<string>)
    requires |c| == 5 && i <= 5
    ensures |r| <= 5 - i
    decreases 5 - i
  {
    if i == 5 then []
    else if c[i] > 0 then [Token(c[i], i)] + TokenList(c, i + 1)
    else TokenList(c, i + 1)
  }

  /** The tokens of the positive counts among c[..k], as `sec2str` has
      appended them after its k-th comparison. */
  function TokenPrefix(c: seq<int>, k: nat): (r: seq<string>)
    requires |c| == 5 && k <= 5
  {
    if k == 0 then [] else TokenPrefix(c, k - 1) + (if c[k - 1] > 0 then [Token(c[k - 1], k - 1)] else [])
  }

  lemma {:induction false} TokenPrefixThenList(c: seq<int>, k: nat)
    requires |c| == 5 && k <= 5
    ensures TokenPrefix(c, k) + TokenList(c, k) == TokenList(c, 0)
    decreases k
  {
    if k > 0 {
      TokenPrefixThenList(c, k - 1);
      var t := if c[k - 1] > 0 then [Token(c[k - 1], k - 1)] else [];
      assert TokenList(c, k - 1) == t + TokenList(c, k);
      ConcatAssoc(TokenPrefix(c, k - 1), t, TokenList(c, k));
    }
  }

  lemma ConcatAssoc<T>(a: seq<T>, b: seq<T>, c: seq<T>)
    ensures (a + b) + c == a + (b + c)
  {
  }

  /** What `sec2str` returns. */
  function Sec2StrValue(seconds: int): string {
    Format(Components(seconds))
  }

  /** The text sec2str writes for the components c. */
  function Format(c: seq<int>): string
    requires |c| == 5
  {
    var parts := TokenList(c, 0);
    if |parts| == 0 then "0s" else Join(parts, " ")
  }

  /** sec2str: the non-zero components, in the order w d h m s, joined by
      single spaces; "0s" when there is none. */
  method Sec2Str(seconds0: int) returns (r: string)
    ensures r == Sec2StrValue(seconds0)
  {
    var seconds := seconds0;
    var weeks := seconds / SecondsInWeek;
    seconds := seconds % SecondsInWeek;
    var days := seconds / SecondsInDay;
    seconds := seconds % SecondsInDay;
    var hours := seconds / SecondsInHour;
    seconds := seconds % SecondsInHour;
    var minutes := seconds / SecondsInMinute;
    seconds := seconds % SecondsInMinute;
    ghost var c := Components(seconds0);
    assert c == [weeks, days, hours, minutes, seconds];
    var data: seq<string> := [];
    if weeks > 0 { data := data + [NatToString(weeks) + "w"]; }
    assert data == TokenPrefix(c, 1);
    if days > 0 { data := data + [NatToString(days) + "d"]; }
    assert data == TokenPrefix(c, 2);
    if hours > 0 { data := data + [NatToString(hours) + "h"]; }
    assert data == TokenPrefix(c, 3);
    if minutes > 0 { data := data + [NatToString(minutes) + "m"]; }
    assert data == TokenPrefix(c, 4);
    if seconds > 0 { data := data + [NatToString(seconds) + "s"]; }
    TokenPrefixThenList(c, 5);
    assert TokenPrefix(c, 5) + [] == TokenPrefix(c, 5);
    assert data == TokenList(c, 0);
    if |data| == 0 {
      return "0s";
    }
    r := Join(data, " ");
  }

  /** What `string_to_seconds` returns: the counts of the unit tokens, a
      trailing bare number replacing the seconds count, and -1 for any other
      leftover text. */
  function StringToSecondsValue(data: string): int {
    var (counts, rest) := Consume(data, 5);
    var c: seq<int> := counts;
    if |rest| == 0 then Weighted(c)
    else
      match PyInt(rest)
      case Some(v) => Weighted(c[SecondIndex := v])
      case None => -1
  }

  /** The first loop of string_to_seconds: a new `intervals` array holding
      the count of each unit token, and the text after the tokens. */
  method ScanIntervals(data0: string) returns (intervals: array<int>, data: string)
    ensures fresh(intervals) && intervals.Length == 5
    ensures intervals[..] == Consume(data0, 5).0 && data == Consume(data0, 5).1
  {
    data := data0;
    intervals := new int[5](_ => 0);
    ghost var counts: seq<nat> := [];
    for s := 0 to 5
      invariant (counts, data) == Consume(data0, s)
      invariant intervals[..s] == counts
      invariant forall j :: s <= j < 5 ==> intervals[j] == 0
    {
      var maScale := MatchToken(data, TimeScaleChars[s]);
      if maScale.Some? {
        intervals[s] := maScale.value.0;
        data := data[maScale.value.1..];
      }
      counts := counts + [intervals[s]];
      assert intervals[..s + 1] == intervals[..s] + [intervals[s]];
    }
    assert intervals[..5] == intervals[..];
  }

  /** The last loop of string_to_seconds: each count times its unit's
      seconds, summed. */
  method WeightedSum(intervals: array<int>) returns (seconds: int)
    requires intervals.Length == 5
    ensures seconds == Weighted(intervals[..])
  {
    seconds := 0;
    for idx := 0 to 5
      invariant seconds == Dot(intervals[..idx], TimeScaleSeconds)
    {
      assert intervals[..idx + 1][..idx] == intervals[..idx];
      seconds := seconds + TimeScaleSeconds[idx] * intervals[idx];
    }
    assert intervals[..5] == intervals[..];
    DotIsWeighted(intervals[..]);
  }

  /** string_to_seconds: a trailing bare number replaces the seconds count,
      then the counts are summed with their weights. */
  method StringToSeconds(data0: string) returns (r: int)
    ensures r == StringToSecondsValue(data0)
  {
    var intervals, data := ScanIntervals(data0);
    if |data| > 0 {
      var tail := PyInt(data);
      if tail.Some? {
        intervals[SecondIndex] := tail.value;
        data := "";
      }
    }
    var seconds := WeightedSum(intervals);
    r := if |data| == 0 then seconds else -1;
  }

  // ---------------------------------------------------------------------
  // Properties

  /** For a non-negative count of seconds the decomposition is the usual
      mixed-radix one: each component below its radix, and the weighted sum
      gives the input back. */
  lemma ComponentsOfNonNegative(seconds: int)
    requires seconds >= 0
    ensures var c := Components(seconds);
            c[0] >= 0 && 0 <= c[1] < 7 && 0 <= c[2] < 24 && 0 <= c[3] < 60 && 0 <= c[4] < 60
            && Weighted(c) == seconds
  {
  }

  /** The text sec2str builds from the tokens of c[k..]. */
  function Joined(c: seq<int>, k: nat): string
    requires |c| == 5 && k <= 5
  {
    Join(TokenList(c, k), " ")
  }

  predicate NonNegative(c: seq<int>) {
    forall i :: 0 <= i < |c| ==> c[i] >= 0
  }

  /** Splits off the first token when the count at k is positive. */
  lemma JoinedCons(c: seq<int>, k: nat)
    requires |c| == 5 && k < 5 && c[k] > 0
    ensures Joined(c, k) == Token(c[k], k) + (if TokenList(c, k + 1) == [] then "" else " " + Joined(c, k + 1))
  {
    var l := TokenList(c, k);
    assert l == [Token(c[k], k)] + TokenList(c, k + 1);
    assert l[1..] == TokenList(c, k + 1);
  }

  /** A token is its digits followed by its unit letter. */
  lemma TokenShape(count: nat, k: nat, rest: string)
    requires k < 5
    requires rest == [] || !IsDigit(rest[0])
    ensures var d := NatToString(count);
            DigitRun(Token(count, k) + rest) == |d|
            && (Token(count, k) + rest)[|d|] == TimeScaleChars[k]
            && (Token(count, k) + rest)[..|d|] == d
  {
    var d := NatToString(count);
    assert Token(count, k) + rest == d + ([TimeScaleChars[k]] + rest);
    DigitRunAppend(d, [TimeScaleChars[k]] + rest);
  }

  /** The joined text of a non-empty token list starts with a digit. */
  lemma {:induction false} JoinedStartsWithDigit(c: seq<int>, k: nat)
    requires |c| == 5 && k <= 5
    requires TokenList(c, k) != []
    ensures Joined(c, k) != [] && IsDigit(Joined(c, k)[0])
    decreases 5 - k
  {
    if c[k] > 0 {
      JoinedCons(c, k);
      assert Joined(c, k)[0] == NatToString(c[k])[0];
    } else {
      JoinedStartsWithDigit(c, k + 1);
    }
  }

  /** No token for an earlier unit can be matched in the text of the units
      from k on. */
  lemma {:induction false} NoEarlierToken(c: seq<int>, k: nat, i: nat)
    requires |c| == 5 && i < k <= 5 && NonNegative(c)
    ensures MatchToken(Joined(c, k), TimeScaleChars[i]) == None
    decreases 5 - k
  {
    if k < 5 {
      if c[k] > 0 {
        JoinedCons(c, k);
        var rest := if TokenList(c, k + 1) == [] then "" else " " + Joined(c, k + 1);
        TokenShape(c[k], k, rest);
      } else {
        NoEarlierToken(c, k + 1, i);
      }
    }
  }

  /** The token of a positive count is matched, with the space after it. */
  lemma OwnToken(c: seq<int>, k: nat)
    requires |c| == 5 && k < 5 && c[k] > 0
    ensures Step(Joined(c, k), TimeScaleChars[k]) == (c[k], Joined(c, k + 1))
  {
    JoinedCons(c, k);
    var d := NatToString(c[k]);
    var more := TokenList(c, k + 1) != [];
    var rest := if more then " " + Joined(c, k + 1) else "";
    var text := Joined(c, k);
    TokenShape(c[k], k, rest);
    NatToStringValue(c[k]);
    assert text[|d| + 1..] == rest;
    if more {
      JoinedStartsWithDigit(c, k + 1);
      SpaceRunAppend(" ", Joined(c, k + 1));
      assert rest == " " + Joined(c, k + 1);
      assert text[|d| + 1 + 1..] == Joined(c, k + 1);
    } else {
      assert Joined(c, k + 1) == "";
    }
  }

  /** The step for unit k on the text of the units from k on yields the
      count at k and the text of the units after it. */
  lemma StepJoined(c: seq<int>, k: nat)
    requires |c| == 5 && k < 5 && NonNegative(c)
    ensures Step(Joined(c, k), TimeScaleChars[k]) == (c[k], Joined(c, k + 1))
  {
    if c[k] > 0 {
      OwnToken(c, k);
    } else {
      NoEarlierToken(c, k + 1, k);
      assert TokenList(c, k) == TokenList(c, k + 1);
    }
  }

  /** Parsing the text of c[0..] unit by unit recovers the counts in order. */
  lemma {:induction false} ConsumeJoined(c: seq<int>, k: nat)
    requires |c| == 5 && k <= 5 && NonNegative(c)
    ensures Consume(Joined(c, 0), k) == (c[..k], Joined(c, k))
  {
    if k > 0 {
      ConsumeJoined(c, k - 1);
      StepJoined(c, k - 1);
      ConsumeNext(Joined(c, 0), k - 1, (c[..k - 1], Joined(c, k - 1)), (c[k - 1], Joined(c, k)));
      TakeSnoc(c, k);
    }
  }

  lemma TakeSnoc(c: seq<int>, k: nat)
    requires 0 < k <= |c|
    ensures c[..k] == c[..k - 1] + [c[k - 1]]
  {
  }

  /** The joined text of a non-empty token list ends with a unit letter. */
  lemma {:induction false} JoinedEndsWithUnit(c: seq<int>, k: nat)
    requires |c| == 5 && k <= 5
    requires TokenList(c, k) != []
    ensures var t := Joined(c, k);
            t != [] && t[|t| - 1] in TimeScaleChars
    decreases 5 - k
  {
    if c[k] > 0 {
      JoinedCons(c, k);
      if TokenList(c, k + 1) != [] {
        JoinedEndsWithUnit(c, k + 1);
      }
    } else {
      JoinedEndsWithUnit(c, k + 1);
    }
  }

  /** The text of non-negative counts, not all zero, parses back to their
      weighted sum, under both parsers. */
  lemma ParseJoined(c: seq<int>)
    requires |c| == 5 && NonNegative(c) && TokenList(c, 0) != []
    ensures Str2SecValue(Some(Joined(c, 0))) == Ok(Weighted(c))
    ensures StringToSecondsValue(Joined(c, 0)) == Weighted(c)
  {
    var text := Joined(c, 0);
    JoinedEndsWithUnit(c, 0);
    PyIntRejectsTrailingLetter(text, "");
    assert text + "" == text;
    ConsumeJoined(c, 5);
    assert c[..5] == c;
  }

  /** Both parsers read back the text of any non-negative counts. */
  lemma ParseFormat(c: seq<int>)
    requires |c| == 5 && NonNegative(c)
    ensures Str2SecValue(Some(Format(c))) == Ok(Weighted(c))
    ensures StringToSecondsValue(Format(c)) == Weighted(c)
  {
    if TokenList(c, 0) == [] {
      assert c[0] == 0 && c[1] == 0 && c[2] == 0 && c[3] == 0 && c[4] == 0;
      ZeroText();
    } else {
      ParseJoined(c);
    }
  }

  /** str2sec reads back what sec2str writes, for every non-negative count
      of seconds. */
  lemma Str2SecOfSec2Str(seconds: int)
    requires seconds >= 0
    ensures Str2SecValue(Some(Sec2StrValue(seconds))) == Ok(seconds)
  {
    ComponentsOfNonNegative(seconds);
    ParseFormat(Components(seconds));
  }

  /** string_to_seconds reads back what sec2str writes as well. */
  lemma StringToSecondsOfSec2Str(seconds: int)
    requires seconds >= 0
    ensures StringToSecondsValue(Sec2StrValue(seconds)) == seconds
  {
    ComponentsOfNonNegative(seconds);
    ParseFormat(Components(seconds));
  }

  /** "0s", which sec2str writes for zero, parses as zero. */
  lemma ZeroText()
    ensures Str2SecValue(Some("0s")) == Ok(0)
    ensures StringToSecondsValue("0s") == 0
  {
    ZeroTextConsumed();
  }

  lemma ZeroTextConsumed()
    ensures PyInt("0s") == None
    ensures Consume("0s", 5) == ([0, 0, 0, 0, 0], "")
  {
    PyIntRejectsTrailingLetter("0s", "");
    assert "0s" + "" == "0s";
    assert Token(0, 4) == "0s";
    SecondsTokenConsumed(0);
  }

  /** A lone seconds token is skipped by the other units and matched by its
      own. */
  lemma SecondsTokenConsumed(n: nat)
    ensures Consume(Token(n, 4), 5) == ([0, 0, 0, 0, n], "")
  {
    var d := Token(n, 4);
    var z: seq<nat> := [];
    SecondsTokenSteps(n);
    ConsumeNext(d, 0, (z, d), (0, d));
    z := z + [0];
    ConsumeNext(d, 1, (z, d), (0, d));
    z := z + [0];
    ConsumeNext(d, 2, (z, d), (0, d));
    z := z + [0];
    ConsumeNext(d, 3, (z, d), (0, d));
    z := z + [0];
    ConsumeNext(d, 4, (z, d), (n, ""));
    z := z + [n];
    assert z == [0, 0, 0, 0, n];
  }

  lemma SecondsTokenSteps(n: nat)
    ensures forall i :: 0 <= i < 4 ==> Step(Token(n, 4), TimeScaleChars[i]) == (0, Token(n, 4))
    ensures Step(Token(n, 4), 's') == (n, "")
  {
    var d := Token(n, 4);
    TokenShape(n, 4, "");
    assert d + "" == d;
    NatToStringValue(n);
    var k := |NatToString(n)|;
    assert d[k + 1..] == "";
  }


  /** A text no unit token can be matched in passes through unchanged. */
  lemma ConsumeNoTokens(d: string)
    requires Step(d, 'w') == (0, d) && Step(d, 'd') == (0, d) && Step(d, 'h') == (0, d)
    requires Step(d, 'm') == (0, d) && Step(d, 's') == (0, d)
    ensures Consume(d, 5) == ([0, 0, 0, 0, 0], d)
  {
    var z: seq<nat> := [];
    ConsumeNext(d, 0, (z, d), (0, d));
    z := z + [0];
    ConsumeNext(d, 1, (z, d), (0, d));
    z := z + [0];
    ConsumeNext(d, 2, (z, d), (0, d));
    z := z + [0];
    ConsumeNext(d, 3, (z, d), (0, d));
    z := z + [0];
    ConsumeNext(d, 4, (z, d), (0, d));
    z := z + [0];
    assert z == [0, 0, 0, 0, 0];
  }

  /** No token is matched in a text without letters. */
  lemma IntTextHasNoTokens(t: string)
    requires forall i :: 0 <= i < |t| ==> !IsAsciiLetter(t[i])
    ensures Consume(t, 5) == ([0, 0, 0, 0, 0], t)
  {
    NoLetterNoToken(t, 'w');
    NoLetterNoToken(t, 'd');
    NoLetterNoToken(t, 'h');
    NoLetterNoToken(t, 'm');
    NoLetterNoToken(t, 's');
    ConsumeNoTokens(t);
  }

  lemma NoLetterNoToken(t: string, unit: char)
    requires forall i :: 0 <= i < |t| ==> !IsAsciiLetter(t[i])
    requires IsAsciiLetter(unit)
    ensures Step(t, unit) == (0, t)
  {
    var k := DigitRun(t);
    if 0 < k < |t| {
      assert !IsAsciiLetter(t[k]);
    }
  }

  /** How much less string_to_seconds returns than str2sec: the seconds
      count, when a trailing bare number replaces it instead of being added
      to it; 0 otherwise. */
  function OverwrittenSeconds(t: string): int {
    var (c, rest) := Consume(t, 5);
    if PyInt(t).None? && rest != "" && PyInt(rest).Some? then c[SecondIndex] else 0
  }

  /** The two parsers agree except where a bare number follows a seconds
      token: str2sec rejects exactly the texts string_to_seconds reports as
      -1 for a leftover, and otherwise string_to_seconds comes out lower by
      the overwritten seconds count. */
  lemma StringToSecondsVersusStr2Sec(t: string)
    ensures Str2SecValue(Some(t)).Err? ==> StringToSecondsValue(t) == -1
    ensures Str2SecValue(Some(t)).Ok? ==>
              StringToSecondsValue(t) == Str2SecValue(Some(t)).value - OverwrittenSeconds(t)
  {
    if PyInt(t).Some? {
      IntTextBothParsers(t);
    }
  }

  /** The converse does not hold: -1 is also an ordinary result of
      string_to_seconds, here for "-1", which str2sec accepts as -1. */
  lemma MinusOneIsNoRejection()
    ensures Str2SecValue(Some("-1")) == Ok(-1)
    ensures StringToSecondsValue("-1") == -1
  {
    assert IntToString(-1) == "-1";
    PyIntOfIntToString(-1, "", "");
    assert "" + IntToString(-1) + "" == "-1";
    IntTextBothParsers("-1");
  }

  /** A plain integer text means the same to both parsers. */
  lemma IntTextBothParsers(t: string)
    requires PyInt(t).Some?
    ensures Str2SecValue(Some(t)) == Ok(PyInt(t).value)
    ensures StringToSecondsValue(t) == PyInt(t).value
  {
    PyIntChars(t);
    IntTextHasNoTokens(t);
    var v := PyInt(t).value;
    assert [0, 0, 0, 0, 0][SecondIndex := v] == [0, 0, 0, 0, v];
  }

  /** A bare number after a seconds token: str2sec adds it, string_to_seconds
      puts it in place of the token's count. */
  lemma TrailingNumberAfterSeconds(t: string)
    requires t == "5s 3"
    ensures Str2SecValue(Some(t)) == Ok(8)
    ensures StringToSecondsValue(t) == 3
  {
    var u := "3";
    PyIntRejectsLetter(t, 1);
    SmallIntText(u, 3);
    TrailingNumberScanned(t, u);
    var c: seq<int> := [0, 0, 0, 0, 5];
    TrailingNumberValues(t, c, u, 3);
    assert Weighted(c) == 5;
    assert c[SecondIndex := 3] == [0, 0, 0, 0, 3];
  }

  /** Both parsers on a text whose tokens leave a bare number behind. */
  lemma TrailingNumberValues(t: string, c: seq<int>, u: string, v: int)
    requires PyInt(t) == None && Consume(t, 5) == (c, u) && u != [] && PyInt(u) == Some(v)
    ensures Str2SecValue(Some(t)) == Ok(Weighted(c) + v)
    ensures StringToSecondsValue(t) == Weighted(c[SecondIndex := v])
  {
  }

  lemma SmallIntText(u: string, n: nat)
    requires n < 10 && u == [DigitChar(n)]
    ensures PyInt(u) == Some(n)
  {
    PyIntOfIntToString(n, "", "");
    assert "" + IntToString(n) + "" == u;
  }

  lemma TrailingNumberScanned(t: string, u: string)
    requires t == "5s 3" && u == "3"
    ensures Consume(t, 5) == ([0, 0, 0, 0, 5], u)
  {
    SecondsThenNumberSteps(t, u);
    var z: seq<nat> := [];
    ConsumeNext(t, 0, (z, t), (0, t));
    z := z + [0];
    ConsumeNext(t, 1, (z, t), (0, t));
    z := z + [0];
    ConsumeNext(t, 2, (z, t), (0, t));
    z := z + [0];
    ConsumeNext(t, 3, (z, t), (0, t));
    z := z + [0];
    ConsumeNext(t, 4, (z, t), (5, u));
    z := z + [5];
    assert z == [0, 0, 0, 0, 5];
  }

  lemma SecondsThenNumberSteps(t: string, u: string)
    requires t == "5s 3" && u == "3"
    ensures forall i :: 0 <= i < 4 ==> Step(t, TimeScaleChars[i]) == (0, t)
    ensures Step(t, 's') == (5, u)
  {
    assert DigitRun(t) == 1 by { assert t == "5" + "s 3"; DigitRunAppend("5", "s 3"); }
    assert SpaceRun(" 3") == 1 by { assert " 3" == " " + "3"; SpaceRunAppend(" ", "3"); }
    assert t[..1] == "5" && t[2..] == " 3" && t[1] == 's' && t[3..] == u;
    assert DigitsValue("5") == 5;
  }

  /** The units must come in the order w, d, h, m, s: a week token after a
      day token is left over and rejected. */
  lemma UnitsOutOfOrder(t: string)
    requires t == "1d 1w"
    ensures Str2SecValue(Some(t)).Err?
    ensures StringToSecondsValue(t) == -1
  {
    var u := "1w";
    PyIntRejectsLetter(t, 1);
    PyIntRejectsLetter(u, 1);
    OutOfOrderScanned(t, u);
  }

  lemma OutOfOrderScanned(t: string, u: string)
    requires t == "1d 1w" && u == "1w"
    ensures Consume(t, 5) == ([0, 1, 0, 0, 0], u)
  {
    OutOfOrderSteps(t, u);
    var z: seq<nat> := [];
    ConsumeNext(t, 0, (z, t), (0, t));
    z := z + [0];
    ConsumeNext(t, 1, (z, t), (1, u));
    z := z + [1];
    ConsumeNext(t, 2, (z, u), (0, u));
    z := z + [0];
    ConsumeNext(t, 3, (z, u), (0, u));
    z := z + [0];
    ConsumeNext(t, 4, (z, u), (0, u));
    z := z + [0];
    assert z == [0, 1, 0, 0, 0];
  }

  lemma OutOfOrderSteps(t: string, u: string)
    requires t == "1d 1w" && u == "1w"
    ensures Step(t, 'w') == (0, t)
    ensures Step(t, 'd') == (1, u)
    ensures forall i :: 2 <= i < 5 ==> Step(u, TimeScaleChars[i]) == (0, u)
  {
    assert DigitRun(t) == 1 by { assert t == "1" + "d 1w"; DigitRunAppend("1", "d 1w"); }
    assert SpaceRun(" 1w") == 1 by { assert " 1w" == " " + "1w"; SpaceRunAppend(" ", "1w"); }
    assert t[..1] == "1" && t[2..] == " 1w" && t[1] == 'd' && t[3..] == u;
    assert DigitsValue("1") == 1;
    assert DigitRun(u) == 1 by { assert u == "1" + "w"; DigitRunAppend("1", "w"); }
    assert u[1] == 'w';
  }

  /** An information separator is whitespace to `\s` but not to `int()`:
      "\x1c5" is refused by str2sec and gives -1 from string_to_seconds. */
  lemma InfoSeparatorRefused(t: string)
    requires t == "\U{1c}5"
    ensures Str2SecValue(Some(t)).Err?
    ensures StringToSecondsValue(t) == -1
  {
    PyIntKeepsInfoSeparator();
    NoLeadingDigitConsumed(t);
  }

  /** A text that does not start with a digit holds no token. */
  lemma NoLeadingDigitConsumed(t: string)
    requires t != [] && !IsDigit(t[0])
    ensures Consume(t, 5) == ([0, 0, 0, 0, 0], t)
  {
    assert DigitRun(t) == 0;
    var z: seq<nat> := [];
    ConsumeNext(t, 0, (z, t), (0, t));
    z := z + [0];
    ConsumeNext(t, 1, (z, t), (0, t));
    z := z + [0];
    ConsumeNext(t, 2, (z, t), (0, t));
    z := z + [0];
    ConsumeNext(t, 3, (z, t), (0, t));
    z := z + [0];
    ConsumeNext(t, 4, (z, t), (0, t));
    z := z + [0];
    assert z == [0, 0, 0, 0, 0];
  }
}
