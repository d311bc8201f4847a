/**
 * Python semantics shared by every module of the model: the exceptions the
 * core raises, slicing with negative and out-of-range bounds, negative
 * indexing, and the `str` operations the core relies on (split, `in`,
 * strip, upper/lower, int()).  Characters are treated as ASCII.
 */
module Py {

  /** The exceptions the modelled code raises.  `Hangs` stands for a call
      that never returns (a loop whose counter does not advance). */
  datatype Exc =
    | NameError
    | IndexError
    | KeyError
    | ValueError
    | TypeError
    | SyntaxError
    | ConfigError
    | LoadError(ticker: string)
    | MeasureError
    | Hangs

  /** A Python call either returns a value or raises. */
  datatype Result<+T> = Ok(value: T) | Raise(exc: Exc)

  datatype Option<+T> = None | Some(value: T)

  // ---------------------------------------------------------------------
  // Slicing and indexing
  // ---------------------------------------------------------------------

  /** How Python normalises one bound of `s[lo:hi]` for a sequence of length n. */
  function Bound(i: int, n: nat): (b: nat)
    ensures b <= n
    ensures 0 <= i <= n ==> b == i
    ensures i > n ==> b == n
    ensures i < 0 ==> b == if i + n < 0 then 0 else i + n
  {
    if i < 0 then (if i + n < 0 then 0 else i + n)
    else if i > n then n
    else i
  }

  /** `s[lo:hi]` with Python's rules for negative and out-of-range bounds. */
  function Slice<T>(s: seq<T>, lo: int, hi: int): (r: seq<T>)
    ensures |r| == if Bound(lo, |s|) <= Bound(hi, |s|) then Bound(hi, |s|) - Bound(lo, |s|) else 0
    ensures 0 <= lo <= hi <= |s| ==> r == s[lo..hi]
    ensures forall k :: 0 <= k < |r| ==> r[k] == s[Bound(lo, |s|) + k]
  {
    var a, b := Bound(lo, |s|), Bound(hi, |s|);
    if a <= b then s[a..b] else []
  }

  /** `s[i]` with Python's negative indexing; out of range raises IndexError. */
  function At<T>(s: seq<T>, i: int): (r: Result<T>)
    ensures r.Ok? <==> -|s| <= i < |s|
    ensures 0 <= i < |s| ==> r == Ok(s[i])
    ensures -|s| <= i < 0 ==> r == Ok(s[|s| + i])
  {
    if 0 <= i < |s| then Ok(s[i])
    else if -|s| <= i < 0 then Ok(s[|s| + i])
    else Raise(IndexError)
  }

  // ---------------------------------------------------------------------
  // Characters
  // ---------------------------------------------------------------------

  predicate IsDigit(c: char) { '0' <= c <= '9' }

  /** The characters `str.strip()` and `str.isspace()` treat as whitespace (ASCII part). */
  predicate IsSpace(c: char) {
    c == ' ' || c == '\t' || c == '\n' || c == '\r' || c == '\U{B}' || c == '\U{C}'
    || c == '\U{1C}' || c == '\U{1D}' || c == '\U{1E}' || c == '\U{1F}'
  }

  function UpperChar(c: char): char {
    if 'a' <= c <= 'z' then (c as int - 32) as char else c
  }

  function LowerChar(c: char): char {
    if 'A' <= c <= 'Z' then (c as int + 32) as char else c
  }

  /** `s.upper()` */
  function Upper(s: string): (r: string)
    ensures |r| == |s|
    ensures forall k :: 0 <= k < |s| ==> r[k] == UpperChar(s[k])
  {
    seq(|s|, k requires 0 <= k < |s| => UpperChar(s[k]))
  }

  /** `s.lower()` */
  function Lower(s: string): (r: string)
    ensures |r| == |s|
    ensures forall k :: 0 <= k < |s| ==> r[k] == LowerChar(s[k])
  {
    seq(|s|, k requires 0 <= k < |s| => LowerChar(s[k]))
  }

  lemma UpperIdempotent(s: string)
    ensures Upper(Upper(s)) == Upper(s)
  {
    assert forall k :: 0 <= k < |s| ==> UpperChar(UpperChar(s[k])) == UpperChar(s[k]);
  }

  lemma LowerIdempotent(s: string)
    ensures Lower(Lower(s)) == Lower(s)
  {
    assert forall k :: 0 <= k < |s| ==> LowerChar(LowerChar(s[k])) == LowerChar(s[k]);
  }

  /** `section[key]` on a configparser section: option names are matched
      lower-cased, as configparser stores them, and a missing one raises
      KeyError. */
  function ConfigOption(section: map<string, string>, key: string): Result<string>
  {
    if Lower(key) in section then Ok(section[Lower(key)]) else Raise(KeyError)
  }

  // ---------------------------------------------------------------------
  // Substrings and splitting
  // ---------------------------------------------------------------------

  /** `sub` occurs in `s` at position k. */
  predicate OccursAt(s: string, sub: string, k: int) {
    0 <= k && k + |sub| <= |s| && s[k..k + |sub|] == sub
  }

  /** `sub in s` */
  predicate Contains(s: string, sub: string) {
    exists k :: 0 <= k <= |s| - |sub| && OccursAt(s, sub, k)
  }

  /** `sep.join(parts)` */
  function Join(parts: seq<string>, sep: string): (r: string)
    decreases |parts|
  {
    if |parts| == 0 then ""
    else if |parts| == 1 then parts[0]
    else parts[0] + sep + Join(parts[1..], sep)
  }

  /** `s.split(sep)` for a non-empty separator: the pieces between the
      non-overlapping occurrences of `sep`, found from the left. */
  function Split(s: string, sep: string): (r: seq<string>)
    requires |sep| > 0
    ensures |r| >= 1
    decreases |s|
  {
    if |s| < |sep| then [s]
    else if s[..|sep|] == sep then [""] + Split(s[|sep|..], sep)
    else Glue(s[0], Split(s[1..], sep))
  }

  /** Puts c in front of the first piece. */
  function Glue(c: char, ps: seq<string>): (r: seq<string>)
    requires |ps| >= 1
    ensures |r| == |ps|
  {
    [[c] + ps[0]] + ps[1..]
  }

  /** Puts x at the end of the last piece. */
  function AppendToLast(ps: seq<string>, x: char): (r: seq<string>)
    requires |ps| >= 1
    ensures |r| == |ps|
  {
    ps[..|ps| - 1] + [ps[|ps| - 1] + [x]]
  }

  lemma JoinCons(p: string, ps: seq<string>, sep: string)
    requires |ps| >= 1
    ensures Join([p] + ps, sep) == p + sep + Join(ps, sep)
  {
    assert ([p] + ps)[1..] == ps;
  }

  /** Gluing a character to the front of the first part glues it to the
      front of the joined text. */
  lemma JoinGlue(c: char, parts: seq<string>, sep: string)
    requires |parts| >= 1
    ensures Join(Glue(c, parts), sep) == [c] + Join(parts, sep)
  {
    if |parts| > 1 {
      JoinCons([c] + parts[0], parts[1..], sep);
      JoinCons(parts[0], parts[1..], sep);
      assert parts == [parts[0]] + parts[1..];
    }
  }

  /** Joining one more part adds the separator and that part at the end. */
  lemma {:induction false} JoinSnoc(ps: seq<string>, x: string, sep: string)
    requires |ps| >= 1
    ensures Join(ps + [x], sep) == Join(ps, sep) + sep + x
    decreases |ps|
  {
    if |ps| > 1 {
      assert (ps + [x])[1..] == ps[1..] + [x];
      JoinSnoc(ps[1..], x, sep);
    }
  }

  /** Splitting and joining with the same separator gives back the string. */
  lemma {:induction false} JoinSplit(s: string, sep: string)
    requires |sep| > 0
    ensures Join(Split(s, sep), sep) == s
    decreases |s|
  {
    if |s| < |sep| {
    } else if s[..|sep|] == sep {
      var rest := Split(s[|sep|..], sep);
      assert Split(s, sep) == [""] + rest;
      JoinSplit(s[|sep|..], sep);
      JoinCons("", rest, sep);
      assert Join(Split(s, sep), sep) == "" + sep + s[|sep|..];
      assert s == s[..|sep|] + s[|sep|..];
    } else {
      var rest := Split(s[1..], sep);
      assert Split(s, sep) == Glue(s[0], rest);
      JoinSplit(s[1..], sep);
      JoinGlue(s[0], rest, sep);
      assert s == [s[0]] + s[1..];
    }
  }

  /** No piece produced by splitting on a one-character separator contains it. */
  lemma {:induction false} SplitPiecesAvoidSep(s: string, c: char)
    ensures forall p :: p in Split(s, [c]) ==> c !in p
    decreases |s|
  {
    if |s| < 1 {
    } else if s[..1] == [c] {
      SplitPiecesAvoidSep(s[1..], c);
    } else {
      SplitPiecesAvoidSep(s[1..], c);
      var rest := Split(s[1..], [c]);
      assert s[0] != c by { assert s[..1][0] == s[0]; }
      assert c !in [s[0]] + rest[0];
      forall p | p in Split(s, [c]) ensures c !in p {
        if p != [s[0]] + rest[0] {
          assert p in rest[1..];
        }
      }
    }
  }

  lemma AppendToLastUnderPrefix(q: seq<string>, ps: seq<string>, x: char)
    requires |ps| >= 1
    ensures AppendToLast(q + ps, x) == q + AppendToLast(ps, x)
  {
    assert (q + ps)[..|q + ps| - 1] == q + ps[..|ps| - 1];
  }

  lemma GlueAppendToLast(c: char, ps: seq<string>, x: char)
    requires |ps| >= 1
    ensures Glue(c, AppendToLast(ps, x)) == AppendToLast(Glue(c, ps), x)
  {
    if |ps| == 1 {
      assert [c] + (ps[0] + [x]) == ([c] + ps[0]) + [x];
    } else {
      var a := AppendToLast(ps, x);
      assert a == [ps[0]] + AppendToLast(ps[1..], x) by {
        AppendToLastUnderPrefix([ps[0]], ps[1..], x);
        assert ps == [ps[0]] + ps[1..];
      }
      assert a[0] == ps[0] && a[1..] == AppendToLast(ps[1..], x);
      AppendToLastUnderPrefix([[c] + ps[0]], ps[1..], x);
    }
  }

  /** Appending one character to a string extends its one-character split
      either by a new empty piece (the separator) or by growing the last piece. */
  lemma {:induction false} SplitSnoc(s: string, c: char, x: char)
    ensures Split(s + [x], [c]) ==
      if x == c then Split(s, [c]) + [""] else AppendToLast(Split(s, [c]), x)
    decreases |s|
  {
    var t := s + [x];
    if |s| == 0 {
      assert t == [x] && t[..1] == [x] && t[1..] == [];
      assert Split(s, [c]) == [""];
      if x != c {
        assert Split(t, [c]) == Glue(x, [""]);
        assert [x] + "" == "" + [x];
      }
    } else {
      assert t[..1] == s[..1];
      assert t[1..] == s[1..] + [x];
      SplitSnoc(s[1..], c, x);
      var rest := Split(s[1..], [c]);
      if s[..1] == [c] {
        if x != c {
          AppendToLastUnderPrefix([""], rest, x);
        }
      } else {
        if x == c {
          assert Glue(s[0], rest + [""]) == Glue(s[0], rest) + [""];
        } else {
          GlueAppendToLast(s[0], rest, x);
        }
      }
    }
  }

  /** A string free of the separator character splits into itself. */
  lemma {:induction false} SplitNoSep(s: string, c: char)
    requires c !in s
    ensures Split(s, [c]) == [s]
    decreases |s|
  {
    if |s| >= 1 {
      assert s[..1] != [c] by { assert s[..1][0] == s[0]; }
      SplitNoSep(s[1..], c);
      assert [s[0]] + s[1..] == s;
    }
  }

  /** Splitting at the first occurrence of a one-character separator. */
  lemma {:induction false} SplitAtFirst(a: string, c: char, b: string)
    requires c !in a
    ensures Split(a + [c] + b, [c]) == [a] + Split(b, [c])
    decreases |a|
  {
    var s := a + [c] + b;
    if a == [] {
      assert s[..1] == [c] && s[1..] == b;
    } else {
      assert s[..1] == [a[0]] && s[..1] != [c];
      assert s[1..] == a[1..] + [c] + b;
      SplitAtFirst(a[1..], c, b);
      assert [a[0]] + a[1..] == a;
    }
  }

  /** Joining pieces free of a one-character separator and splitting the
      result on it gives the pieces back. */
  lemma {:induction false} SplitJoin(ps: seq<string>, c: char)
    requires |ps| >= 1
    requires forall k :: 0 <= k < |ps| ==> c !in ps[k]
    ensures Split(Join(ps, [c]), [c]) == ps
    decreases |ps|
  {
    if |ps| == 1 {
      SplitNoSep(ps[0], c);
    } else {
      SplitJoin(ps[1..], c);
      SplitAtFirst(ps[0], c, Join(ps[1..], [c]));
      assert ps == [ps[0]] + ps[1..];
    }
  }

  /** p is the longest prefix of s free of c: it ends at the end of s or
      at the first occurrence of c. */
  predicate PrefixBefore(s: string, c: char, p: string) {
    |p| <= |s| && p == s[..|p|] && c !in p && (|p| == |s| || s[|p|] == c)
  }

  /** The first piece of a split on one character is the prefix before that
      character's first occurrence. */
  lemma {:induction false} SplitFirstPiece(s: string, c: char)
    ensures PrefixBefore(s, c, Split(s, [c])[0])
    decreases |s|
  {
    if |s| < 1 {
    } else if s[..1] == [c] {
      assert s[0] == c by { assert s[..1][0] == s[0]; }
    } else {
      assert s[0] != c by { assert s[..1][0] == s[0]; }
      SplitFirstPiece(s[1..], c);
      var q := Split(s[1..], [c])[0];
      assert Split(s, [c])[0] == [s[0]] + q;
      assert [s[0]] + q == s[..|q| + 1];
    }
  }

  /** There is only one such prefix. */
  lemma PrefixBeforeUnique(s: string, c: char, p: string, q: string)
    requires PrefixBefore(s, c, p) && PrefixBefore(s, c, q)
    ensures p == q
  {
  }

  /** The pieces of a split that are not empty, in order (`[p for p in ... if p != '']`). */
  function NonEmpty(ps: seq<string>): (r: seq<string>)
    ensures forall p :: p in r ==> p != "" && p in ps
    ensures forall p :: p in ps && p != "" ==> p in r
    ensures |r| <= |ps|
  {
    if ps == [] then []
    else if ps[|ps| - 1] == "" then NonEmpty(ps[..|ps| - 1])
    else NonEmpty(ps[..|ps| - 1]) + [ps[|ps| - 1]]
  }

  lemma NonEmptySnoc(ps: seq<string>, p: string)
    ensures NonEmpty(ps + [p]) == if p == "" then NonEmpty(ps) else NonEmpty(ps) + [p]
  {
    assert (ps + [p])[..|ps|] == ps;
  }

  /** Filtering out empty pieces keeps a list with none. */
  lemma {:induction false} NonEmptyKeeps(ps: seq<string>)
    requires forall k :: 0 <= k < |ps| ==> ps[k] != ""
    ensures NonEmpty(ps) == ps
  {
    if ps != [] {
      NonEmptyKeeps(ps[..|ps| - 1]);
      assert ps[..|ps| - 1] + [ps[|ps| - 1]] == ps;
    }
  }

  // ---------------------------------------------------------------------
  // strip() and int()
  // ---------------------------------------------------------------------

  function StripLeft(s: string): (r: string)
    ensures |r| <= |s|
    ensures r == s[|s| - |r|..]
    ensures r != "" ==> !IsSpace(r[0])
  {
    if s != [] && IsSpace(s[0]) then StripLeft(s[1..]) else s
  }

  function StripRight(s: string): (r: string)
    ensures |r| <= |s|
    ensures r == s[..|r|]
    ensures r != "" ==> !IsSpace(r[|r| - 1])
  {
    if s != [] && IsSpace(s[|s| - 1]) then StripRight(s[..|s| - 1]) else s
  }

  /** `s.strip()` */
  function Strip(s: string): (r: string)
    ensures |r| <= |s|
    ensures r != "" ==> !IsSpace(r[0]) && !IsSpace(r[|r| - 1])
  {
    StripRight(StripLeft(s))
  }

  predicate AllDigits(s: string) {
    forall k :: 0 <= k < |s| ==> IsDigit(s[k])
  }

  function DigitsValue(s: string): (v: nat)
    requires AllDigits(s)
  {
    if s == [] then 0
    else 10 * DigitsValue(s[..|s| - 1]) + (s[|s| - 1] as int - '0' as int)
  }

  /** Python `int(s)` on a string: surrounding whitespace is ignored, an
      optional sign, then one or more digits; anything else is a ValueError. */
  function ParseInt(s: string): (r: Option<int>)
    ensures r.Some? ==> Strip(s) != ""
  {
    var t := Strip(s);
    if t != [] && (t[0] == '+' || t[0] == '-') then
      (if |t| > 1 && AllDigits(t[1..]) then
         var v: int := DigitsValue(t[1..]);
         Some(if t[0] == '-' then -v else v)
       else None)
    else if t != [] && AllDigits(t) then Some(DigitsValue(t))
    else None
  }

  /** Decimal digits of a natural number, as `str(n)` prints it. */
  function NatToString(n: nat): (r: string)
    ensures r != "" && AllDigits(r)
    ensures DigitsValue(r) == n
  {
    if n < 10 then [('0' as int + n) as char]
    else
      var d := NatToString(n / 10);
      var r := d + [('0' as int + n % 10) as char];
      assert r[..|r| - 1] == d;
      r
  }

  /** `str(i)` for any integer. */
  function IntToString(i: int): (r: string)
    ensures r != ""
  {
    if i < 0 then "-" + NatToString(-i) else NatToString(i)
  }

  lemma StripKeeps(s: string)
    requires s != "" && !IsSpace(s[0]) && !IsSpace(s[|s| - 1])
    ensures Strip(s) == s
  {
    assert StripLeft(s) == s;
  }

  /** `int(str(i)) == i` */
  lemma ParseIntToString(i: int)
    ensures ParseInt(IntToString(i)) == Some(i)
  {
    var r := IntToString(i);
    if i < 0 {
      var d := NatToString(-i);
      assert r == "-" + d;
      assert r[1..] == d;
      assert r[|r| - 1] == d[|d| - 1];
      StripKeeps(r);
    } else {
      StripKeeps(r);
    }
  }
}
