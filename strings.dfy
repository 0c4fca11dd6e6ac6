/**
 * The parts of Go's `strings`, `unicode` and `fmt` packages that the
 * configuration code relies on, stated over `seq<char>` strings.
 */
module Strings {
  import opened Wrappers

  // ---------------------------------------------------------------------
  // strings.Split with a one-character separator, and its inverse Join
  // ---------------------------------------------------------------------

  /** strings.Join(pieces, string(c)). */
  function Join(pieces: seq<string>, c: char): string
    requires |pieces| >= 1
  {
    if |pieces| == 1 then pieces[0] else pieces[0] + [c] + Join(pieces[1..], c)
  }

  /**
   * strings.Split(s, string(c)): the pieces between the occurrences of `c`;
   * there is always at least one. SplitJoin states what the pieces are.
   */
  function Split(s: string, c: char): (pieces: seq<string>)
    ensures |pieces| >= 1
    decreases |s|
  {
    if |s| == 0 then [""]
    else if s[0] == c then
      var rest := Split(s[1..], c);
      assert ([""] + rest)[1..] == rest;
      [""] + rest
    else
      var rest := Split(s[1..], c);
      var pieces := [[s[0]] + rest[0]] + rest[1..];
      assert pieces[1..] == rest[1..];
      assert s == [s[0]] + s[1..];
      pieces
  }

  /**
   * The pieces contain no `c` and, joined with `c`, give back `s`; together
   * these determine the pieces uniquely (see SplitOfJoin).
   */
  lemma {:induction false} SplitJoin(s: string, c: char)
    ensures forall i :: 0 <= i < |Split(s, c)| ==> c !in Split(s, c)[i]
    ensures Join(Split(s, c), c) == s
    decreases |s|
  {
    if |s| > 0 {
      SplitJoin(s[1..], c);
      var rest := Split(s[1..], c);
      var pieces := Split(s, c);
      if s[0] == c {
        assert pieces == [""] + rest && pieces[1..] == rest;
      } else {
        assert pieces == [[s[0]] + rest[0]] + rest[1..] && pieces[1..] == rest[1..];
        assert s == [s[0]] + s[1..];
      }
    }
  }

  /** A string without `c` is a single piece. */
  lemma {:induction false} SplitWithout(s: string, c: char)
    requires c !in s
    ensures Split(s, c) == [s]
    decreases |s|
  {
    if |s| > 0 {
      assert c !in s[1..];
      SplitWithout(s[1..], c);
      assert [s[0]] + s[1..] == s;
    }
  }

  /** Splitting `x + c + y`, where `x` has no `c`, yields `x` then the pieces of `y`. */
  lemma {:induction false} SplitAfter(x: string, y: string, c: char)
    requires c !in x
    ensures Split(x + [c] + y, c) == [x] + Split(y, c)
    decreases |x|
  {
    var s := x + [c] + y;
    if |x| == 0 {
      assert s[0] == c && s[1..] == y;
    } else {
      assert s[0] == x[0] && s[1..] == x[1..] + [c] + y;
      assert c !in x[1..];
      SplitAfter(x[1..], y, c);
      assert [x[0]] + x[1..] == x;
    }
  }

  /** Split is the inverse of Join on pieces free of the separator. */
  lemma {:induction false} SplitOfJoin(pieces: seq<string>, c: char)
    requires |pieces| >= 1
    requires forall i :: 0 <= i < |pieces| ==> c !in pieces[i]
    ensures Split(Join(pieces, c), c) == pieces
    decreases |pieces|
  {
    if |pieces| == 1 {
      SplitWithout(pieces[0], c);
    } else {
      SplitOfJoin(pieces[1..], c);
      SplitAfter(pieces[0], Join(pieces[1..], c), c);
      assert [pieces[0]] + pieces[1..] == pieces;
    }
  }

  // ---------------------------------------------------------------------
  // strings.SplitN(s, string(c), 2) and the split at the last `c`
  // ---------------------------------------------------------------------

  /**
   * strings.SplitN(s, string(c), 2) when it yields two parts: the text before
   * the FIRST `c` and everything after it; None when `s` has no `c`
   * (SplitN then yields the single part `s`).
   */
  function SplitFirst(s: string, c: char): (r: Option<(string, string)>)
    ensures r.None? <==> c !in s
    ensures r.Some? ==> c !in r.value.0 && r.value.0 + [c] + r.value.1 == s
    decreases |s|
  {
    if |s| == 0 then None
    else if s[0] == c then
      assert s == [] + [c] + s[1..];
      Some(("", s[1..]))
    else
      match SplitFirst(s[1..], c)
      case None => None
      case Some(kv) =>
        assert s == [s[0]] + s[1..];
        Some(([s[0]] + kv.0, kv.1))
  }

  /** The first `c` of `x + c + y` is the one between them when `x` has none. */
  lemma {:induction false} SplitFirstAt(x: string, y: string, c: char)
    requires c !in x
    ensures SplitFirst(x + [c] + y, c) == Some((x, y))
    decreases |x|
  {
    var s := x + [c] + y;
    if |x| > 0 {
      assert s[1..] == x[1..] + [c] + y;
      assert c !in x[1..];
      SplitFirstAt(x[1..], y, c);
      assert [x[0]] + x[1..] == x;
    }
  }

  /** The split at the LAST `c` (as net.SplitHostPort does at the last ':'). */
  function SplitLast(s: string, c: char): (r: Option<(string, string)>)
    ensures r.None? <==> c !in s
    ensures r.Some? ==> c !in r.value.1 && r.value.0 + [c] + r.value.1 == s
    decreases |s|
  {
    if |s| == 0 then None
    else if s[|s| - 1] == c then
      assert s == s[..|s| - 1] + [c] + [];
      Some((s[..|s| - 1], ""))
    else
      match SplitLast(s[..|s| - 1], c)
      case None =>
        assert s == s[..|s| - 1] + [s[|s| - 1]];
        None
      case Some(hp) =>
        assert s == s[..|s| - 1] + [s[|s| - 1]];
        Some((hp.0, hp.1 + [s[|s| - 1]]))
  }

  /** The last `c` of `x + c + y` is the one between them when `y` has none. */
  lemma {:induction false} SplitLastAt(x: string, y: string, c: char)
    requires c !in y
    ensures SplitLast(x + [c] + y, c) == Some((x, y))
    decreases |y|
  {
    var s := x + [c] + y;
    if |y| == 0 {
      assert s[..|s| - 1] == x;
    } else {
      var y' := y[..|y| - 1];
      assert s[..|s| - 1] == x + [c] + y';
      assert c !in y';
      SplitLastAt(x, y', c);
      assert y' + [y[|y| - 1]] == y;
    }
  }

  // ---------------------------------------------------------------------
  // strings.TrimSpace
  // ---------------------------------------------------------------------

  /**
   * unicode.IsSpace: the Latin-1 spaces and the other White_Space runes. None of
   * them is a letter, a digit or an '=', so trimming never removes one.
   */
  predicate IsSpace(c: char): (space: bool)
    ensures space ==> !IsDigit(c) && !('a' <= c <= 'z') && !('A' <= c <= 'Z') && c != '='
  {
    c == ' ' || c == '\t' || c == '\n' || c == '\r' || c == '\U{B}' || c == '\U{C}'
    || c == '\U{85}' || c == '\U{A0}' || c == '\U{1680}'
    || ('\U{2000}' <= c <= '\U{200A}')
    || c == '\U{2028}' || c == '\U{2029}' || c == '\U{202F}' || c == '\U{205F}' || c == '\U{3000}'
  }

  /** Drops the leading spaces: the result is a suffix of `s`, and only spaces were dropped. */
  function TrimLeft(s: string): (r: string)
    ensures |r| <= |s| && r == s[|s| - |r|..]
    ensures forall k :: 0 <= k < |s| - |r| ==> IsSpace(s[k])
    ensures r == [] || !IsSpace(r[0])
    decreases |s|
  {
    if |s| > 0 && IsSpace(s[0]) then TrimLeft(s[1..]) else s
  }

  /** Drops the trailing spaces: the result is a prefix of `s`, and only spaces were dropped. */
  function TrimRight(s: string): (r: string)
    ensures |r| <= |s| && r == s[..|r|]
    ensures forall k :: |r| <= k < |s| ==> IsSpace(s[k])
    ensures r == [] || !IsSpace(r[|r| - 1])
    decreases |s|
  {
    if |s| > 0 && IsSpace(s[|s| - 1]) then TrimRight(s[..|s| - 1]) else s
  }

  /**
   * strings.TrimSpace: the slice `s[i..j]` left after removing every leading and
   * trailing space; it neither starts nor ends with a space.
   */
  function TrimSpace(s: string): (r: string)
    ensures exists i, j :: 0 <= i <= j <= |s| && r == s[i..j] && TrimmedAt(s, i, j)
    ensures r == [] || (!IsSpace(r[0]) && !IsSpace(r[|r| - 1]))
  {
    var l := TrimLeft(s);
    var r := TrimRight(l);
    TrimBothAt(s, l, r);
    r
  }

  /** Trimming the left and then the right leaves a slice with only spaces around it. */
  lemma TrimBothAt(s: string, l: string, r: string)
    requires |l| <= |s| && l == s[|s| - |l|..] && forall k :: 0 <= k < |s| - |l| ==> IsSpace(s[k])
    requires |r| <= |l| && r == l[..|r|] && forall k :: |r| <= k < |l| ==> IsSpace(l[k])
    ensures 0 <= |s| - |l| <= |s| - |l| + |r| <= |s|
    ensures r == s[|s| - |l|..|s| - |l| + |r|] && TrimmedAt(s, |s| - |l|, |s| - |l| + |r|)
  {
    var i := |s| - |l|;
    assert r == s[i..i + |r|];
    forall k | i + |r| <= k < |s| ensures IsSpace(s[k]) {
      assert s[k] == l[k - i];
    }
  }

  /** Only spaces lie outside `s[i..j]`. */
  ghost predicate TrimmedAt(s: string, i: nat, j: nat)
    requires i <= j <= |s|
  {
    (forall k :: 0 <= k < i ==> IsSpace(s[k])) && (forall k :: j <= k < |s| ==> IsSpace(s[k]))
  }

  /** A string that neither starts nor ends with a space is left as it is. */
  lemma TrimSpaceKeepsTrimmed(s: string)
    requires s == [] || (!IsSpace(s[0]) && !IsSpace(s[|s| - 1]))
    ensures TrimSpace(s) == s
  {
  }

  // ---------------------------------------------------------------------
  // fmt's %d, and its inverse
  // ---------------------------------------------------------------------

  predicate IsDigit(c: char) { '0' <= c <= '9' }

  function DigitChar(d: nat): (c: char)
    requires d < 10
    ensures IsDigit(c) && c as int - '0' as int == d
  {
    (d + '0' as int) as char
  }

  /** The decimal digits of `n`, most significant first, without leading zeros. */
  function NatToString(n: nat): (s: string)
    ensures |s| >= 1
    ensures forall i :: 0 <= i < |s| ==> IsDigit(s[i])
    ensures s[0] == '0' ==> n == 0 && s == "0"
    decreases n
  {
    if n < 10 then [DigitChar(n)] else NatToString(n / 10) + [DigitChar(n % 10)]
  }

  /** Go's `%d` rendering of an integer: a leading '-' exactly for negatives. */
  function FormatInt(n: int): (s: string)
    ensures |s| >= 1
    ensures (s[0] == '-') <==> n < 0
    ensures forall i :: 0 <= i < |s| ==> IsDigit(s[i]) || (i == 0 && s[i] == '-')
    ensures n >= 0 && s[0] == '0' ==> s == "0"
    ensures n < 0 ==> |s| >= 2 && s[1] != '0'
  {
    if n < 0 then "-" + NatToString(-n) else NatToString(n)
  }

  /** The value of a non-empty string of decimal digits. */
  function ParseDigits(s: string): nat
    requires |s| >= 1 && forall i :: 0 <= i < |s| ==> IsDigit(s[i])
    decreases |s|
  {
    assert IsDigit(s[|s| - 1]);
    var d: nat := s[|s| - 1] as int - '0' as int;
    if |s| == 1 then d else ParseDigits(s[..|s| - 1]) * 10 + d
  }

  /** strconv.Atoi restricted to what `%d` produces: an optional '-' and decimal digits. */
  function ParseInt(s: string): Option<int>
  {
    if |s| >= 2 && s[0] == '-' && (forall i :: 1 <= i < |s| ==> IsDigit(s[i])) then
      Some(-(ParseDigits(s[1..]) as int))
    else if |s| >= 1 && (forall i :: 0 <= i < |s| ==> IsDigit(s[i])) then
      Some(ParseDigits(s))
    else None
  }

  lemma {:induction false} ParseNatToString(n: nat)
    ensures ParseDigits(NatToString(n)) == n
    decreases n
  {
    if n >= 10 {
      var s := NatToString(n);
      assert s[..|s| - 1] == NatToString(n / 10);
      ParseNatToString(n / 10);
    }
  }

  /** `%d` rendering is undone by parsing: ParseInt(FormatInt(n)) recovers n. */
  lemma FormatIntRoundTrip(n: int)
    ensures ParseInt(FormatInt(n)) == Some(n)
  {
    var s := FormatInt(n);
    if n < 0 {
      assert s[1..] == NatToString(-n);
      ParseNatToString(-n);
    } else {
      ParseNatToString(n);
    }
  }
}
