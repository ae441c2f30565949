/** The few string operations the parsers rely on. A string is a sequence of characters. */
module Text {
  import opened Prelude

  /** White space as unicode.IsSpace defines it. */
  predicate IsSpace(c: char) {
    var u := c as int;
    || 9 <= u <= 13 || u == 0x20 || u == 0x85 || u == 0xA0 || u == 0x1680
    || 0x2000 <= u <= 0x200A || u == 0x2028 || u == 0x2029 || u == 0x202F || u == 0x205F || u == 0x3000
  }

  function TrimLeft(s: string): string {
    if s != "" && IsSpace(s[0]) then TrimLeft(s[1..]) else s
  }

  function TrimRight(s: string): string {
    if s != "" && IsSpace(s[|s| - 1]) then TrimRight(s[..|s| - 1]) else s
  }

  function Trim(s: string): string {
    TrimRight(TrimLeft(s))
  }

  predicate IsTrimmed(s: string) {
    s != "" ==> !IsSpace(s[0]) && !IsSpace(s[|s| - 1])
  }

  predicate AllSpace(s: string) {
    forall i :: 0 <= i < |s| ==> IsSpace(s[i])
  }

  lemma {:induction false} TrimLeftPad(l: string, u: string)
    requires AllSpace(l)
    ensures TrimLeft(l + u) == TrimLeft(u)
  {
    if l == "" {
      assert l + u == u;
    } else {
      TrimLeftPad(l[1..], u);
      assert (l + u)[1..] == l[1..] + u;
    }
  }

  lemma {:induction false} TrimRightPad(u: string, r: string)
    requires AllSpace(r)
    ensures TrimRight(u + r) == TrimRight(u)
  {
    if r == "" {
      assert u + r == u;
    } else {
      var n := |r| - 1;
      TrimRightPad(u, r[..n]);
      assert (u + r)[..|u + r| - 1] == u + r[..n];
    }
  }

  lemma {:induction false} TrimBehind(u: string, r: string)
    requires AllSpace(r)
    ensures Trim(u + r) == Trim(u)
  {
    if u == "" {
      TrimLeftPad(r, "");
      assert u + r == r + "";
    } else if IsSpace(u[0]) {
      TrimBehind(u[1..], r);
      assert (u + r)[1..] == u[1..] + r;
    } else {
      TrimRightPad(u, r);
    }
  }

  lemma TrimAhead(l: string, u: string)
    requires AllSpace(l)
    ensures Trim(l + u) == Trim(u)
  {
    TrimLeftPad(l, u);
  }

  /** Space around a text makes no difference to trimming it. */
  lemma TrimPad(l: string, u: string, r: string)
    requires AllSpace(l) && AllSpace(r)
    ensures Trim(l + u + r) == Trim(u)
  {
    assert l + u + r == l + (u + r);
    TrimLeftPad(l, u + r);
    TrimBehind(u, r);
  }

  lemma TrimTrimmed(s: string)
    requires IsTrimmed(s)
    ensures Trim(s) == s
  {
  }

  /** Trimming takes away space at both ends, all of it, and nothing else. */
  lemma TrimExactly(s: string) returns (l: string, r: string)
    ensures s == l + Trim(s) + r && AllSpace(l) && AllSpace(r) && IsTrimmed(Trim(s))
  {
    var t := TrimLeft(s);
    l := TrimLeftCuts(s);
    r := TrimRightCuts(t);
    assert s == l + (Trim(s) + r);
    if Trim(s) != "" {
      assert Trim(s)[0] == t[0];
    }
  }

  lemma {:induction false} TrimLeftCuts(s: string) returns (l: string)
    ensures s == l + TrimLeft(s) && AllSpace(l) && (TrimLeft(s) != "" ==> !IsSpace(TrimLeft(s)[0]))
  {
    if s != "" && IsSpace(s[0]) {
      var rest := TrimLeftCuts(s[1..]);
      l := [s[0]] + rest;
      assert s == [s[0]] + s[1..];
    } else {
      l := "";
    }
  }

  lemma {:induction false} TrimRightCuts(s: string) returns (r: string)
    ensures s == TrimRight(s) + r && AllSpace(r)
    ensures TrimRight(s) != "" ==> !IsSpace(TrimRight(s)[|TrimRight(s)| - 1]) && TrimRight(s)[0] == s[0]
  {
    if s != "" && IsSpace(s[|s| - 1]) {
      var n := |s| - 1;
      var rest := TrimRightCuts(s[..n]);
      r := rest + [s[n]];
      assert s == s[..n] + [s[n]];
    } else {
      r := "";
    }
  }

  /** Text that ends in a visible character does not trim to nothing. */
  lemma {:induction false} TrimVisible(s: string)
    requires s != "" && !IsSpace(s[|s| - 1])
    ensures Trim(s) != ""
  {
    if IsSpace(s[0]) {
      TrimVisible(s[1..]);
    }
  }

  /** Position of the first c in s, or -1. */
  function IndexOf(s: string, c: char): (i: int)
    ensures -1 <= i < |s|
    ensures i >= 0 ==> s[i] == c
    ensures forall j :: 0 <= j < (if i < 0 then |s| else i) ==> s[j] != c
  {
    if s == "" then -1
    else if s[0] == c then 0
    else
      var i := IndexOf(s[1..], c);
      assert forall j :: 1 <= j < |s| ==> s[j] == s[1..][j - 1];
      if i < 0 then -1 else i + 1
  }

  predicate Lacks(s: string, c: char) {
    forall j :: 0 <= j < |s| ==> s[j] != c
  }

  /** The first separator of "left, separator, right" is the one in the middle when left has none. */
  lemma IndexOfJoint(left: string, c: char, right: string)
    requires Lacks(left, c)
    ensures IndexOf(left + [c] + right, c) == |left|
    ensures (left + [c] + right)[..|left|] == left && (left + [c] + right)[|left| + 1..] == right
  {
    var s := left + [c] + right;
    assert s[|left|] == c;
    assert forall j :: 0 <= j < |left| ==> s[j] == left[j];
  }

  /** Marker m starts at position i of s. */
  predicate At(s: string, m: string, i: int) {
    0 <= i && i + |m| <= |s| && s[i..i + |m|] == m
  }

  predicate Contains(s: string, m: string) {
    exists i :: 0 <= i < |s| && At(s, m, i)
  }

  lemma ContainsWithin(left: string, s: string, right: string, m: string)
    requires Contains(s, m)
    ensures Contains(left + s + right, m)
  {
    var i :| 0 <= i < |s| && At(s, m, i);
    var whole := left + s + right;
    assert whole[|left| + i..|left| + i + |m|] == s[i..i + |m|];
    assert At(whole, m, |left| + i);
  }

  lemma MarkSpans(s: string, m: string, i: int, k: int)
    requires At(s, m, i) && i <= k < i + |m|
    ensures s[k] == m[k - i]
  {
    assert s[k] == s[i..i + |m|][k - i];
  }

  function Join(ps: seq<string>, sep: char): string {
    if ps == [] then ""
    else if |ps| == 1 then ps[0]
    else ps[0] + [sep] + Join(ps[1..], sep)
  }
}
