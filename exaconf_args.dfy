/**
 * The argument conversions of the `exaconf` command line: `str2bool`, the
 * `uid:gid` owner comprehension and the comma-list comprehension.
 */
module ExaconfArgs {
  import opened Wrappers
  import opened PyStr

  /** An optional string argument that Python treats as true: given and
      not empty. */
  predicate Given(o: Option<string>) { o.Some? && o.value != "" }

  const TrueWords: seq<string> := ["yes", "true", "t", "y", "1"]
  const FalseWords: seq<string> := ["no", "false", "f", "n", "0"]

  /** `str2bool`: a yes/no word in any letter case; Err where it raises
      ArgumentTypeError. */
  function Str2Bool(v: string): (r: Result<bool>)
    ensures r == Ok(true) <==> LowerText(v) in TrueWords
    ensures r == Ok(false) <==> LowerText(v) in FalseWords
    ensures r.Err? <==> LowerText(v) !in TrueWords && LowerText(v) !in FalseWords
  {
    var l := LowerText(v);
    if l in TrueWords then Ok(true)
    else if l in FalseWords then Ok(false)
    else Err("Boolean value expected.")
  }

  lemma {:induction false} LowerTextIdempotent(s: string)
    ensures LowerText(LowerText(s)) == LowerText(s)
  {
    if |s| > 0 {
      LowerTextIdempotent(s[1..]);
      assert LowerText(s)[1..] == LowerText(s[1..]);
    }
  }

  /** Letter case never matters: a word reads as its lower-case form. */
  lemma Str2BoolIgnoresCase(v: string)
    ensures Str2Bool(v) == Str2Bool(LowerText(v))
  {
    LowerTextIdempotent(v);
  }

  /** Upper-case spellings are accepted too. */
  lemma Str2BoolUpperCase()
    ensures Str2Bool("TRUE") == Ok(true) && Str2Bool("NO") == Ok(false)
  {
    assert LowerText("TRUE") == "true" by { assert LowerText("TRUE")[0] == Lower('T'); }
    assert LowerText("NO") == "no" by { assert LowerText("NO")[0] == Lower('N'); }
  }

  /** Words outside the two lists are refused, the empty text too. */
  lemma Str2BoolRefuses()
    ensures Str2Bool("on").Err? && Str2Bool("").Err?
  {
    assert LowerText("on") == "on";
  }

  /** `[x.strip() for x in pieces if x.strip() != ""]`. */
  function Clean(pieces: seq<string>): (r: seq<string>)
    ensures |r| <= |pieces|
  {
    if |pieces| == 0 then []
    else
      var t := Strip(pieces[0]);
      (if t == "" then [] else [t]) + Clean(pieces[1..])
  }

  lemma StripIdempotent(s: string)
    ensures Strip(Strip(s)) == Strip(s)
  {
    StripNoEdgeSpace(Strip(s));
  }

  /** Every element kept is non-empty, already stripped, and made of
      characters of the pieces. */
  lemma {:induction false} CleanElements(pieces: seq<string>, c: char)
    requires forall i :: 0 <= i < |pieces| ==> c !in pieces[i]
    ensures forall i :: 0 <= i < |Clean(pieces)| ==>
              Clean(pieces)[i] != "" && Strip(Clean(pieces)[i]) == Clean(pieces)[i] && c !in Clean(pieces)[i]
  {
    if |pieces| > 0 {
      CleanElements(pieces[1..], c);
      StripIdempotent(pieces[0]);
    }
  }

  /** Clean elements are kept as they are. */
  lemma {:induction false} CleanOfClean(xs: seq<string>)
    requires forall i :: 0 <= i < |xs| ==> xs[i] != "" && Strip(xs[i]) == xs[i]
    ensures Clean(xs) == xs
  {
    if |xs| > 0 {
      CleanOfClean(xs[1..]);
    }
  }

  /** The comma-list comprehension `[n.strip() for n in s.split(",") if n.strip() != ""]`:
      its elements are non-empty, stripped and comma-free. */
  function CommaList(s: string): (r: seq<string>)
    ensures forall i :: 0 <= i < |r| ==> r[i] != "" && Strip(r[i]) == r[i] && ',' !in r[i]
  {
    CleanElements(Split(s, ','), ',');
    Clean(Split(s, ','))
  }

  /** Joining clean names with commas and reading them back gives the
      names, in their order. */
  lemma CommaListOfJoin(xs: seq<string>)
    requires forall i :: 0 <= i < |xs| ==> xs[i] != "" && Strip(xs[i]) == xs[i] && ',' !in xs[i]
    ensures CommaList(Join(xs, ",")) == xs
  {
    if |xs| == 0 {
      assert Split("", ',') == [""];
    } else {
      SplitJoin(xs, ',');
      CleanOfClean(xs);
    }
  }

  /** `f` over every element, None as soon as one gives None. */
  function MapAll(f: string -> Option<int>, ts: seq<string>): Option<seq<int>> {
    if |ts| == 0 then Some([])
    else
      match f(ts[0])
      case None => None
      case Some(v) =>
        match MapAll(f, ts[1..])
        case None => None
        case Some(vs) => Some([v] + vs)
  }

  /** MapAll succeeds exactly when `f` succeeds on every element, and then
      yields the values in order. */
  lemma {:induction false} MapAllMeaning(f: string -> Option<int>, ts: seq<string>)
    ensures MapAll(f, ts).Some? <==> forall i :: 0 <= i < |ts| ==> f(ts[i]).Some?
    ensures MapAll(f, ts).Some? ==>
              |MapAll(f, ts).value| == |ts| && forall i :: 0 <= i < |ts| ==> f(ts[i]) == Some(MapAll(f, ts).value[i])
  {
    if |ts| > 0 {
      MapAllMeaning(f, ts[1..]);
      if f(ts[0]).Some? && MapAll(f, ts[1..]).None? {
        var j :| 0 <= j < |ts[1..]| && !f(ts[1..][j]).Some?;
        assert ts[j + 1] == ts[1..][j];
      }
    }
  }

  /** `int(t)` over the kept pieces, as the owner comprehension
      `tuple(int(o.strip()) for o in pieces if o.strip() != "")` does; None
      where `int` raises ValueError. */
  function Ints(ts: seq<string>): Option<seq<int>> {
    MapAll(PyInt, ts)
  }

  /** The conversion succeeds exactly when every piece is an integer, and
      then yields their values in order. */
  lemma IntsMeaning(ts: seq<string>)
    ensures Ints(ts).Some? <==> forall i :: 0 <= i < |ts| ==> PyInt(ts[i]).Some?
    ensures Ints(ts).Some? ==>
              |Ints(ts).value| == |ts| && forall i :: 0 <= i < |ts| ==> PyInt(ts[i]) == Some(Ints(ts).value[i])
  {
    MapAllMeaning(PyInt, ts);
  }

  /** One integer piece in front of others. */
  lemma IntsCons(t: string, v: int, rest: seq<string>, vs: seq<int>)
    requires PyInt(t) == Some(v) && Ints(rest) == Some(vs)
    ensures Ints([t] + rest) == Some([v] + vs)
  {
    assert ([t] + rest)[1..] == rest;
    assert ([t] + rest)[0] == t;
  }

  /** The non-blank `:`-separated pieces of an owner argument, stripped. */
  function OwnerPieces(s: string): seq<string> {
    Clean(Split(s, ':'))
  }

  /** The owner ids of `cmd.owner`: defined exactly when every non-blank
      `:`-separated piece is an integer, and then their values in order. */
  function OwnerIds(s: string): (r: Option<seq<int>>)
    ensures r.Some? <==> forall i :: 0 <= i < |OwnerPieces(s)| ==> PyInt(OwnerPieces(s)[i]).Some?
    ensures r.Some? ==> |r.value| == |OwnerPieces(s)|
    ensures r.Some? ==> forall i :: 0 <= i < |r.value| ==> PyInt(OwnerPieces(s)[i]) == Some(r.value[i])
  {
    IntsMeaning(OwnerPieces(s));
    Ints(OwnerPieces(s))
  }

  /** The owner `add_volume` and `add_remote_volume` accept: exactly two
      ids; None where they print the usage hint and return 1. So an owner
      is accepted exactly when the text holds two non-blank `:`-separated
      pieces, both integers, and the ids are their values. */
  function ParseOwner(s: string): (r: Option<(int, int)>)
    ensures r.Some? <==> |OwnerPieces(s)| == 2 && PyInt(OwnerPieces(s)[0]).Some? && PyInt(OwnerPieces(s)[1]).Some?
    ensures r.Some? ==> r.value == (PyInt(OwnerPieces(s)[0]).value, PyInt(OwnerPieces(s)[1]).value)
  {
    MapAllTwo(PyInt, OwnerPieces(s));
    match OwnerIds(s)
    case None => None
    case Some(ids) => if |ids| == 2 then Some((ids[0], ids[1])) else None
  }

  /** MapAll gives two values exactly on two elements that both succeed. */
  lemma MapAllTwo(f: string -> Option<int>, ts: seq<string>)
    ensures (MapAll(f, ts).Some? && |MapAll(f, ts).value| == 2) <==>
              |ts| == 2 && f(ts[0]).Some? && f(ts[1]).Some?
    ensures MapAll(f, ts).Some? && |MapAll(f, ts).value| == 2 ==>
              MapAll(f, ts).value == [f(ts[0]).value, f(ts[1]).value]
  {
    MapAllMeaning(f, ts);
  }

  lemma IntTextShape(n: int)
    ensures ':' !in IntToString(n)
    ensures !IsSpace(IntToString(n)[0]) && !IsSpace(IntToString(n)[|IntToString(n)| - 1])
  {
    var m: nat := if n >= 0 then n else -n;
    var d := NatToString(m);
    assert forall i :: 0 <= i < |d| ==> IsDigit(d[i]);
    if n < 0 {
      assert IntToString(n) == "-" + d;
    }
  }

  lemma PaddedInt(a: string, n: int, b: string)
    requires AllSpace(a) && AllSpace(b)
    ensures Strip(a + IntToString(n) + b) == IntToString(n)
    ensures PyInt(IntToString(n)) == Some(n)
    ensures ':' !in a + IntToString(n) + b
  {
    IntTextShape(n);
    StripPadded(a, IntToString(n), b);
    PyIntOfIntToString(n, "", "");
    assert "" + IntToString(n) + "" == IntToString(n);
    NoColonPadded(a, IntToString(n), b);
  }

  lemma NoColonPadded(a: string, t: string, b: string)
    requires AllSpace(a) && AllSpace(b) && ':' !in t
    ensures ':' !in a + t + b
  {
    assert forall i :: 0 <= i < |a| ==> IsSpace(a[i]);
    assert forall i :: 0 <= i < |b| ==> IsSpace(b[i]);
  }

  lemma Regroup<T>(a: seq<T>, u: seq<T>, b: seq<T>, sep: seq<T>, c: seq<T>, g: seq<T>, d: seq<T>)
    ensures a + u + b + sep + c + g + d == (a + u + b) + sep + (c + g + d)
  {
  }

  lemma CleanTwo(p: string, q: string)
    requires Strip(p) != "" && Strip(q) != ""
    ensures Clean([p, q]) == [Strip(p), Strip(q)]
  {
    assert [p, q][1..] == [q];
    assert [q][1..] == [];
  }

  /** `"%d:%d" % (uid, gid)`, with any whitespace around either id, reads
      back as that owner. */
  lemma ParseOwnerOfIds(uid: int, gid: int, a: string, b: string, c: string, d: string)
    requires AllSpace(a) && AllSpace(b) && AllSpace(c) && AllSpace(d)
    ensures ParseOwner(a + IntToString(uid) + b + ":" + c + IntToString(gid) + d) == Some((uid, gid))
  {
    var u, g := IntToString(uid), IntToString(gid);
    var p := a + u + b;
    var q := c + g + d;
    PaddedInt(a, uid, b);
    PaddedInt(c, gid, d);
    Regroup(a, u, b, ":", c, g, d);
    SplitAt(p, ':', q);
    assert Split(q, ':') == [q];
    CleanTwo(p, q);
    IntsCons(g, gid, [], []);
    assert [g] + [] == [g] && [gid] + [] == [gid];
    IntsCons(u, uid, [g], [gid]);
    assert [u] + [g] == [u, g];
  }

  /** A single id is refused. */
  lemma ParseOwnerRejectsOne(uid: int)
    ensures ParseOwner(IntToString(uid)) == None
  {
    var s := IntToString(uid);
    PaddedInt("", uid, "");
    assert "" + s + "" == s;
    assert Split(s, ':') == [s];
    assert Clean([s]) == [s] by { assert [s][1..] == []; }
    IntsCons(s, uid, [], []);
    assert [s] + [] == [s];
  }
}
