/** Hexadecimal text (section 8 of RFC 4648), as used for names and key values. */
module Hex {
  import opened Prelude

  /** The lower-case table "0123456789abcdef". */
  function Digit(v: int): (c: char)
    requires 0 <= v < 16
    ensures Value(c) == Some(v)
  {
    if v < 10 then (v + '0' as int) as char else (v - 10 + 'a' as int) as char
  }

  function Value(c: char): (r: Option<int>)
    ensures r.Some? ==> 0 <= r.value < 16
  {
    if '0' <= c <= '9' then Some(c as int - '0' as int)
    else if 'a' <= c <= 'f' then Some(c as int - 'a' as int + 10)
    else if 'A' <= c <= 'F' then Some(c as int - 'A' as int + 10)
    else None
  }

  predicate IsHex(s: string) {
    forall i :: 0 <= i < |s| ==> Value(s[i]).Some?
  }

  /** Encoding is its own certificate: the text decodes back, so two inputs never share a text. */
  function Encode(b: bytes): (s: string)
    ensures |s| == 2 * |b| && IsHex(s)
    ensures Decode(s) == Some(b)
  {
    if b == [] then ""
    else
      var n := |b| - 1;
      var s := Encode(b[..n]) + [Digit(b[n] / 16), Digit(b[n] % 16)];
      assert s[..|s| - 2] == Encode(b[..n]) && b == b[..n] + [b[n]];
      s
  }

  /** Accepts either letter case; an odd length or a foreign character is an error. */
  function Decode(s: string): (r: Option<bytes>)
    ensures r.Some? ==> 2 * |r.value| == |s| && IsHex(s)
  {
    if s == "" then Some([])
    else if |s| == 1 then None
    else
      var n := |s| - 2;
      var front, high, low := Decode(s[..n]), Value(s[n]), Value(s[n + 1]);
      if front.Some? && high.Some? && low.Some? then Some(front.value + [high.value * 16 + low.value]) else None
  }

  /** Different digests never share a name. */
  lemma EncodeInjective(a: bytes, b: bytes)
    requires Encode(a) == Encode(b)
    ensures a == b
  {
    assert Decode(Encode(a)) == Some(a);
  }

  lemma {:induction false} EncodeAt(b: bytes, i: nat)
    requires i < |b|
    ensures Encode(b)[2 * i] == Digit(b[i] / 16) && Encode(b)[2 * i + 1] == Digit(b[i] % 16)
  {
    if i < |b| - 1 {
      EncodeAt(b[..|b| - 1], i);
    }
  }

  /** The table-driven loop that names kv-v2 records agrees with the library encoder. */
  method HexCid(digest: bytes) returns (name: string)
    ensures name == Encode(digest)
  {
    ghost var text := Encode(digest);
    var out := new char[2 * |digest|];
    for i := 0 to |digest|
      invariant forall k :: 0 <= k < 2 * i ==> out[k] == text[k]
    {
      EncodeAt(digest, i);
      out[i * 2] := Digit(digest[i] / 16);
      out[i * 2 + 1] := Digit(digest[i] % 16);
    }
    name := out[..];
  }

  /** Decoding looks at the value of each digit only, so either letter case will do. */
  lemma {:induction false} DecodeByValue(s: string, t: string)
    requires |s| == |t| && forall i :: 0 <= i < |s| ==> Value(s[i]) == Value(t[i])
    ensures Decode(s) == Decode(t)
  {
    if |s| >= 2 {
      DecodeByValue(s[..|s| - 2], t[..|t| - 2]);
    }
  }

  /** Digits are written in lower case and read in either. */
  lemma EitherCase(v: int)
    requires 0 <= v < 16
    ensures Digit(v) == "0123456789abcdef"[v]
    ensures Value("0123456789ABCDEF"[v]) == Some(v) == Value("0123456789abcdef"[v])
  {
  }
}
