/**
 Base64 with the standard and the URL-safe alphabet (sections 4 and 5 of RFC 4648),
 padded or not. Decoding skips line breaks and does not require zero trailing bits,
 as Go's encoding/base64 does.
 */
module Base64 {
  import opened Prelude

  datatype Alphabet = Std | Url

  type sextet = v: int | 0 <= v < 64

  // ---------- Regrouping eight-bit values into six-bit values ----------

  function Sextets(b: bytes): seq<sextet> {
    if |b| == 0 then []
    else if |b| == 1 then [b[0] / 4, b[0] % 4 * 16]
    else if |b| == 2 then [b[0] / 4, b[0] % 4 * 16 + b[1] / 16, b[1] % 16 * 4]
    else [b[0] / 4, b[0] % 4 * 16 + b[1] / 16, b[1] % 16 * 4 + b[2] / 64, b[2] % 64] + Sextets(b[3..])
  }

  /** One left-over sextet carries no byte, so that length is refused. */
  function Bytes(v: seq<sextet>): Option<bytes> {
    if |v| == 0 then Some([])
    else if |v| == 1 then None
    else
      var x: byte := (v[0] as int) * 4 + v[1] / 16;
      if |v| == 2 then Some([x])
      else
        var y: byte := (v[1] as int) % 16 * 16 + v[2] / 4;
        if |v| == 3 then Some([x, y])
        else
          var z: byte := (v[2] as int) % 4 * 64 + v[3];
          var rest := Bytes(v[4..]);
          if rest.Some? then Some([x, y, z] + rest.value) else None
  }

  lemma {:induction false} SextetsRoundTrip(b: bytes)
    ensures Bytes(Sextets(b)) == Some(b)
  {
    if |b| >= 3 {
      SextetsRoundTrip(b[3..]);
      assert Sextets(b)[4..] == Sextets(b[3..]);
      assert b == [b[0], b[1], b[2]] + b[3..];
    } else if |b| == 2 {
      assert b == [b[0], b[1]];
    } else if |b| == 1 {
      assert b == [b[0]];
    }
  }

  // ---------- Characters ----------

  /** Characters with a meaning around an encoded value; none is in either alphabet. */
  predicate Reserved(c: char) {
    c == '=' || c == '.' || c == ',' || c == ':' || c == ' ' || c == '\r' || c == '\n'
  }

  function Letter(a: Alphabet, v: sextet): (c: char)
    ensures ValueOf(a, c) == Some(v)
  {
    if v < 26 then (v + 'A' as int) as char
    else if v < 52 then (v - 26 + 'a' as int) as char
    else if v < 62 then (v - 52 + '0' as int) as char
    else if v == 62 then (if a.Std? then '+' else '-')
    else if a.Std? then '/' else '_'
  }

  function ValueOf(a: Alphabet, c: char): (r: Option<sextet>)
    ensures r.Some? ==> !Reserved(c) && (a.Std? ==> c != '-')
  {
    if 'A' <= c <= 'Z' then Some(c as int - 'A' as int)
    else if 'a' <= c <= 'z' then Some(c as int - 'a' as int + 26)
    else if '0' <= c <= '9' then Some(c as int - '0' as int + 52)
    else if c == (if a.Std? then '+' else '-') then Some(62)
    else if c == (if a.Std? then '/' else '_') then Some(63)
    else None
  }

  predicate InAlphabet(a: Alphabet, s: string) {
    forall i :: 0 <= i < |s| ==> ValueOf(a, s[i]).Some?
  }

  function Text(a: Alphabet, v: seq<sextet>): (s: string)
    ensures |s| == |v| && InAlphabet(a, s) && Values(a, s) == v
  {
    seq(|v|, i requires 0 <= i < |v| => Letter(a, v[i]))
  }

  function Values(a: Alphabet, s: string): seq<sextet>
    requires InAlphabet(a, s)
  {
    seq(|s|, i requires 0 <= i < |s| => ValueOf(a, s[i]).value)
  }

  // ---------- Encoding and decoding ----------

  function Padding(n: nat): string {
    if n % 3 == 1 then "==" else if n % 3 == 2 then "=" else ""
  }

  function Encode(a: Alphabet, padded: bool, b: bytes): string {
    Text(a, Sextets(b)) + if padded then Padding(|b|) else ""
  }

  function WithoutBreaks(s: string): string {
    if s == "" then ""
    else (if s[0] == '\r' || s[0] == '\n' then "" else [s[0]]) + WithoutBreaks(s[1..])
  }

  /** Drops at most two pad characters from the end of a whole number of groups. */
  function Unpad(t: string): Option<string> {
    if |t| % 4 != 0 then None
    else if |t| > 0 && t[|t| - 1] == '=' then
      Some(if t[|t| - 2] == '=' then t[..|t| - 2] else t[..|t| - 1])
    else Some(t)
  }

  function Decode(a: Alphabet, padded: bool, s: string): Option<bytes> {
    var t := WithoutBreaks(s);
    var body := if padded then Unpad(t) else Some(t);
    if body.Some? && InAlphabet(a, body.value) then Bytes(Values(a, body.value)) else None
  }

  lemma {:induction false} BreaksAbsent(s: string)
    requires forall i :: 0 <= i < |s| ==> s[i] != '\r' && s[i] != '\n'
    ensures WithoutBreaks(s) == s
  {
    if s != "" {
      assert s == [s[0]] + s[1..];
      BreaksAbsent(s[1..]);
    }
  }

  lemma {:induction false} EncodedLength(b: bytes)
    ensures |Sextets(b)| + |Padding(|b|)| == (|b| + 2) / 3 * 4
    ensures b != [] ==> |Sextets(b)| >= 2
  {
    if |b| >= 3 {
      var n := |b| - 3;
      EncodedLength(b[3..]);
      assert |b[3..]| == n && |Sextets(b)| == 4 + |Sextets(b[3..])|;
      GroupCount(n);
    }
  }

  lemma GroupCount(n: nat)
    ensures (n + 3 + 2) / 3 == (n + 2) / 3 + 1 && Padding(n + 3) == Padding(n)
  {
  }

  /** Encoded text: alphabet characters, then pad characters only where asked for. */
  lemma EncodeShape(a: Alphabet, padded: bool, b: bytes)
    ensures var s := Encode(a, padded, b);
            && (forall i :: 0 <= i < |s| ==> ValueOf(a, s[i]).Some? || (padded && s[i] == '='))
            && WithoutBreaks(s) == s
            && (padded ==> |s| == (|b| + 2) / 3 * 4)
            && (b != [] ==> |s| >= 2 && ValueOf(a, s[0]).Some?)
  {
    EncodedLength(b);
    var s, body := Encode(a, padded, b), Text(a, Sextets(b));
    forall i | 0 <= i < |s|
      ensures ValueOf(a, s[i]).Some? || (padded && s[i] == '=')
    {
      assert i < |body| ==> s[i] == body[i];
    }
    BreaksAbsent(s);
  }

  lemma UnpadText(a: Alphabet, body: string, pad: string, groups: nat)
    requires InAlphabet(a, body) && pad in ["", "=", "=="]
    requires |body| + |pad| == groups * 4 && (pad != "" ==> |body| >= 2)
    ensures Unpad(body + pad) == Some(body)
  {
    var s := body + pad;
    if pad == "" {
      assert s == body;
      assert body != "" ==> ValueOf(a, body[|body| - 1]).Some?;
    } else {
      assert ValueOf(a, body[|body| - 1]).Some?;
      assert s[..|body|] == body;
    }
  }

  /** Decoding undoes encoding, for every byte string and each of the four variants. */
  lemma RoundTrip(a: Alphabet, padded: bool, b: bytes)
    ensures Decode(a, padded, Encode(a, padded, b)) == Some(b)
  {
    EncodeShape(a, padded, b);
    EncodedLength(b);
    SextetsRoundTrip(b);
    if padded {
      UnpadText(a, Text(a, Sextets(b)), Padding(|b|), (|b| + 2) / 3);
    } else {
      assert Encode(a, padded, b) == Text(a, Sextets(b));
    }
  }

  /** The unpadded decoder either refuses padded text or agrees with it; it never returns other bytes. */
  lemma RawOnPadded(a: Alphabet, b: bytes)
    ensures Decode(a, false, Encode(a, true, b)) == if |b| % 3 == 0 then Some(b) else None
  {
    EncodeShape(a, true, b);
    SextetsRoundTrip(b);
    var s := Encode(a, true, b);
    if |b| % 3 == 0 {
      assert s == Text(a, Sextets(b));
    } else {
      assert s[|s| - 1] == '=';
    }
  }

  /** Unpadded first, then padded: how the token verifier reads both halves of a token. */
  function DecodeEither(a: Alphabet, s: string): Option<bytes> {
    var raw := Decode(a, false, s);
    if raw.Some? then raw else Decode(a, true, s)
  }

  lemma EitherRoundTrip(a: Alphabet, padded: bool, b: bytes)
    ensures DecodeEither(a, Encode(a, padded, b)) == Some(b)
  {
    RoundTrip(a, padded, b);
    RawOnPadded(a, b);
  }

  lemma {:induction false} BreaksOnly(s: string, i: nat)
    requires i < |s| && s[i] != '\r' && s[i] != '\n'
    ensures s[i] in WithoutBreaks(s)
  {
    if i > 0 {
      BreaksOnly(s[1..], i - 1);
    }
  }

  /** Decoding accepts nothing but the alphabet, line breaks and, where padding is meant, pad characters. */
  lemma DecodesOnlyAlphabet(a: Alphabet, padded: bool, s: string, i: nat)
    requires i < |s| && Decode(a, padded, s).Some?
    ensures s[i] == '\r' || s[i] == '\n' || ValueOf(a, s[i]).Some? || (padded && s[i] == '=')
  {
    if s[i] != '\r' && s[i] != '\n' {
      BreaksOnly(s, i);
      var t := WithoutBreaks(s);
      var k :| 0 <= k < |t| && t[k] == s[i];
      var body := if padded then Unpad(t).value else t;
      assert k < |body| ==> body[k] == t[k];
    }
  }

  lemma {:induction false} BreakInserted(s: string, c: char, t: string)
    requires c == '\r' || c == '\n'
    ensures WithoutBreaks(s + [c] + t) == WithoutBreaks(s + t)
  {
    if s == "" {
      assert s + [c] + t == [c] + t && s + t == t;
    } else {
      BreakInserted(s[1..], c, t);
      assert (s + [c] + t)[1..] == s[1..] + [c] + t && (s + t)[1..] == s[1..] + t;
    }
  }

  /** A line break anywhere in the text makes no difference. */
  lemma BreaksIgnored(a: Alphabet, padded: bool, s: string, c: char, t: string)
    requires c == '\r' || c == '\n'
    ensures Decode(a, padded, s + [c] + t) == Decode(a, padded, s + t)
  {
    BreakInserted(s, c, t);
  }

  /** Test vectors of section 10 of RFC 4648, and the two letters in which the alphabets differ. */
  lemma TestVectors()
    ensures Encode(Std, true, [0x66]) == "Zg==" && Encode(Std, true, [0x66, 0x6F]) == "Zm8="
    ensures Encode(Std, true, [0x66, 0x6F, 0x6F]) == "Zm9v"
    ensures Encode(Std, true, [0xFB, 0xFF]) == "+/8=" && Encode(Url, false, [0xFB, 0xFF]) == "-_8"
  {
    assert Sextets([0x66]) == [25, 32] && Sextets([0x66, 0x6F]) == [25, 38, 60];
    assert Sextets([0x66, 0x6F, 0x6F]) == [25, 38, 61, 47] + Sextets([]);
    assert [0x66, 0x6F, 0x6F][3..] == [];
    assert Sextets([0xFB, 0xFF]) == [62, 63, 60];
  }
}
