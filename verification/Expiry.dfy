/** The expiry query parameter: decimal parsing and the seconds-to-nanoseconds product. */
module Expiry {
  import opened Prelude

  const SECOND: int := 1_000_000_000
  const MAX_SECONDS: int := 9_223_372_036

  predicate IsDigits(s: string) {
    s != "" && forall i :: 0 <= i < |s| ==> '0' <= s[i] <= '9'
  }

  function DigitsValue(s: string): nat
    requires forall i :: 0 <= i < |s| ==> '0' <= s[i] <= '9'
  {
    if s == "" then 0 else DigitsValue(s[..|s| - 1]) * 10 + (s[|s| - 1] as int - '0' as int)
  }

  /** strconv.ParseInt in base ten: an optional sign, then digits, within int64. */
  function ParseInt64(s: string): (r: Option<int64>) {
    var signed := s != "" && (s[0] == '+' || s[0] == '-');
    var digits := if signed then s[1..] else s;
    if !IsDigits(digits) then None
    else
      var v: int := if signed && s[0] == '-' then 0 - DigitsValue(digits) else DigitsValue(digits);
      if MIN64 <= v <= MAX64 then Some(v) else None
  }

  /** time.Duration(secs) * time.Second in int64 arithmetic. */
  function Nanoseconds(secs: int64): int64 {
    Wrap64(secs * SECOND)
  }

  /**
   What a query value entitles to. Missing, unreadable and non-positive values leave the default in
   place; up to the bound the lifetime is the requested one; beyond it only the low 64 bits survive.
   */
  predicate Grants(query: string, fallback: int64, expiry: int64) {
    var secs := ParseInt64(query);
    if secs.None? || secs.value <= 0 then expiry == fallback
    else if secs.value <= MAX_SECONDS then expiry == secs.value * SECOND
    else expiry != secs.value * SECOND && (secs.value * SECOND - expiry) % TWO64 == 0
  }

  /** The duration handed to the backend for one query value. */
  method RequestedExpiry(query: string, fallback: int64) returns (expiry: int64)
    ensures Grants(query, fallback, expiry)
  {
    expiry := fallback;
    if query != "" {
      var secs := ParseInt64(query);
      if secs.Some? && secs.value > 0 {
        expiry := Nanoseconds(secs.value);
        ExpiryBound(secs.value);
        WrapCongruent(secs.value * SECOND);
      }
    }
  }

  lemma WrapCongruent(n: int)
    ensures (n - Wrap64(n)) % TWO64 == 0
  {
    var k := (n - MIN64) / TWO64;
    assert n - Wrap64(n) == k * TWO64;
  }

  function Decimal(n: nat): string {
    (if n < 10 then "" else Decimal(n / 10)) + [(n % 10 + '0' as int) as char]
  }

  lemma {:induction false} DecimalReads(n: nat)
    ensures IsDigits(Decimal(n)) && DigitsValue(Decimal(n)) == n
  {
    var s := Decimal(n);
    if n >= 10 {
      DecimalReads(n / 10);
      assert s[..|s| - 1] == Decimal(n / 10);
    } else {
      assert s[..|s| - 1] == "";
    }
  }

  /** An optional sign and the text behind it. */
  predicate SignedText(s: string, sign: string, digits: string) {
    && s == sign + digits
    && (sign == "+" || sign == "-" || (sign == "" && (digits == "" || (digits[0] != '+' && digits[0] != '-'))))
  }

  function Signed(sign: string, n: nat): int {
    if sign == "-" then 0 - n else n
  }

  /** The text reads as a number exactly when nothing but digits follow the sign and the value is an int64. */
  lemma ParseExactly(s: string, sign: string, digits: string)
    requires SignedText(s, sign, digits)
    ensures !IsDigits(digits) ==> ParseInt64(s) == None
    ensures IsDigits(digits) ==>
              var v := Signed(sign, DigitsValue(digits));
              ParseInt64(s) == if MIN64 <= v <= MAX64 then Some(v) else None
  {
    if sign == "" {
      assert s == digits;
    } else {
      assert s[0] == sign[0] && s[1..] == digits;
    }
  }

  /** Decimal text behind any sign reads back as its number, in range, and not at all out of range. */
  lemma SignedDecimalReads(sign: string, n: nat)
    requires sign == "" || sign == "+" || sign == "-"
    ensures var v := Signed(sign, n);
            ParseInt64(sign + Decimal(n)) == if MIN64 <= v <= MAX64 then Some(v) else None
  {
    DecimalReads(n);
    var digits := Decimal(n);
    assert '0' <= digits[0] <= '9';
    ParseExactly(sign + digits, sign, digits);
  }

  /** Base ten: an hour. */
  lemma HourReads()
    ensures ParseInt64("3600") == Some(3600)
  {
    var s := "3600";
    assert s[..3] == "360" && "360"[..2] == "36" && "36"[..1] == "3" && "3"[..0] == "";
    assert DigitsValue("3") == 3 && DigitsValue("36") == 36 && DigitsValue("360") == 360;
  }

  /** The default stays for minus signs, zero and numbers beyond int64, however many digits they have. */
  lemma DefaultForNumbers(sign: string, n: nat, fallback: int64, expiry: int64)
    requires (sign == "" || sign == "+" || sign == "-") && Grants(sign + Decimal(n), fallback, expiry)
    ensures sign == "-" || n == 0 || n > MAX64 ==> expiry == fallback
  {
    SignedDecimalReads(sign, n);
  }

  /** And for the empty text, a sign alone, and text with anything but digits behind its sign. */
  lemma DefaultForOtherText(query: string, sign: string, digits: string, fallback: int64, expiry: int64)
    requires SignedText(query, sign, digits) && !IsDigits(digits) && Grants(query, fallback, expiry)
    ensures expiry == fallback
  {
    ParseExactly(query, sign, digits);
  }

  /**
   Exact bound: for every positive int64 number of seconds, dividing the duration back gives
   the seconds if and only if they are at most 9223372036; beyond it the product has wrapped.
   */
  lemma ExpiryBound(secs: int64)
    requires secs > 0
    ensures Nanoseconds(secs) == secs * SECOND <==> secs <= MAX_SECONDS
    ensures Nanoseconds(secs) / SECOND == secs <==> secs <= MAX_SECONDS
  {
    if secs > MAX_SECONDS {
      assert secs * SECOND > MAX64;
    }
  }

  /** A request that writes its seconds in decimal gets exactly that lifetime iff they are within the bound. */
  lemma RequestedExpiryExact(sign: string, secs: int64, fallback: int64, expiry: int64)
    requires secs > 0 && (sign == "" || sign == "+") && Grants(sign + Decimal(secs), fallback, expiry)
    ensures expiry == secs * SECOND <==> secs <= MAX_SECONDS
    ensures secs == MAX_SECONDS + 1 ==> expiry < 0
  {
    SignedDecimalReads(sign, secs);
    assert ParseInt64(sign + Decimal(secs)) == Some(secs);
    if secs == MAX_SECONDS + 1 {
      assert secs * SECOND == 9_223_372_037_000_000_000;
    }
  }
}
