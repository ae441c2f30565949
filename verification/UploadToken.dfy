/** X-Upload-Token: minting, kid-dispatched verification and the audit label taken from it. */
module UploadToken {
  import opened Prelude
  import opened Text
  import Base64

  const PUBLIC_KEY_SIZE: nat := 32

  datatype Payload = Payload(cid: string, size: int64, exp: int64, iat: int64, kid: string)

  datatype TokenError = Malformed | PayloadInvalid | UnknownKid | BadSignature | Expired | CidMismatch | SizeMismatch

  type Keys = map<string, bytes>

  /**
   What the model takes from outside: the JSON reader and writer of payloads, the JSON
   reader that only looks at "kid", and the Ed25519 primitives. Secrets are abstract values.
   */
  datatype Primitives = Primitives(
    render: Payload -> bytes,
    parse: bytes -> Option<Payload>,
    parseKid: bytes -> Option<string>,
    publicKey: int -> bytes,
    sign: (int, bytes) -> bytes,
    verify: (bytes, bytes, bytes) -> bool)

  /** JSON reads back what it wrote; a signature verifies under its signer's public key and no other. */
  ghost predicate Lawful(x: Primitives) {
    && (forall p :: x.parse(x.render(p)) == Some(p) && x.render(p) != [])
    && (forall b :: x.parse(b).Some? ==> x.parseKid(b) == Some(x.parse(b).value.kid))
    && (forall sk, b :: x.sign(sk, b) != [])
    && (forall pk, sk, b :: x.verify(pk, b, x.sign(sk, b)) <==> pk == x.publicKey(sk))
  }

  /** Refuses an empty map and any key of the wrong length; otherwise copies the map. */
  method NewVerifier(keys: Keys) returns (r: Option<Keys>)
    ensures r.Some? <==> keys != map[] && forall kid :: kid in keys ==> |keys[kid]| == PUBLIC_KEY_SIZE
    ensures r.Some? ==> r.value == keys
  {
    if |keys| == 0 {
      return None;
    }
    var out: Keys, todo := map[], keys.Keys;
    while todo != {}
      invariant todo <= keys.Keys && out.Keys == keys.Keys - todo
      invariant forall kid :: kid in out ==> out[kid] == keys[kid] && |out[kid]| == PUBLIC_KEY_SIZE
      decreases todo
    {
      var kid :| kid in todo;
      if |keys[kid]| != PUBLIC_KEY_SIZE {
        return None;
      }
      out := out[kid := keys[kid]];
      todo := todo - {kid};
    }
    assert out == keys;
    r := Some(out);
  }

  /** None means accepted. The checks run in the source's order, so the first failing one is reported. */
  function Verify(x: Primitives, keys: Keys, token: string, cid: string, size: int, now: int): Option<TokenError> {
    var dot := IndexOf(token, '.');
    if dot < 1 || dot == |token| - 1 then Some(Malformed)
    else
      var payload := Base64.DecodeEither(Base64.Url, token[..dot]);
      var sig := Base64.DecodeEither(Base64.Url, token[dot + 1..]);
      if payload.None? || sig.None? then Some(Malformed)
      else
        var p := x.parse(payload.value);
        if p.None? then Some(PayloadInvalid)
        else CheckClaims(x, keys, p.value, payload.value, sig.value, cid, size, now)
  }

  function CheckClaims(x: Primitives, keys: Keys, p: Payload, payload: bytes, sig: bytes, cid: string, size: int,
      now: int)
    : Option<TokenError>
  {
    if p.kid !in keys then Some(UnknownKid)
    else if !x.verify(keys[p.kid], payload, sig) then Some(BadSignature)
    else if p.exp == 0 || now > p.exp then Some(Expired)
    else if p.cid != cid then Some(CidMismatch)
    else if p.size != size then Some(SizeMismatch)
    else None
  }

  /** The audit reason for each verification error. */
  function Classify(e: TokenError): string {
    match e
    case UnknownKid => "token_unknown_kid"
    case BadSignature => "token_invalid"
    case Expired => "token_expired"
    case CidMismatch => "token_cid_mismatch"
    case SizeMismatch => "token_size_mismatch"
    case Malformed => "token_malformed"
    case PayloadInvalid => "token_malformed"
  }

  /** The kid an audit record would show: the first decoding that is also readable JSON. */
  function KidOf(x: Primitives, token: string): string {
    var dot := IndexOf(token, '.');
    if dot < 1 then ""
    else
      var raw := KidUnder(x, token[..dot], false);
      var padded := KidUnder(x, token[..dot], true);
      if raw.Some? then raw.value else if padded.Some? then padded.value else ""
  }

  function KidUnder(x: Primitives, half: string, padded: bool): Option<string> {
    var b := Base64.Decode(Base64.Url, padded, half);
    if b.Some? then x.parseKid(b.value) else None
  }

  method ExtractKid(x: Primitives, token: string) returns (kid: string)
    ensures kid == KidOf(x, token)
  {
    var dot := IndexOf(token, '.');
    if dot < 1 {
      return "";
    }
    var decoders := [false, true];
    for i := 0 to |decoders|
      invariant forall k :: 0 <= k < i ==> KidUnder(x, token[..dot], decoders[k]).None?
    {
      var payload := Base64.Decode(Base64.Url, decoders[i], token[..dot]);
      if payload.Some? {
        var found := x.parseKid(payload.value);
        if found.Some? {
          assert i == 1 ==> KidUnder(x, token[..dot], decoders[0]).None?;
          return found.value;
        }
      }
    }
    assert KidUnder(x, token[..dot], decoders[0]).None? && KidUnder(x, token[..dot], decoders[1]).None?;
    kid := "";
  }

  /** A token as an operator issues it; each half may be padded or not. */
  function Mint(x: Primitives, secret: int, p: Payload, padPayload: bool, padSignature: bool): string {
    var payload := x.render(p);
    Base64.Encode(Base64.Url, padPayload, payload) + ['.'] +
    Base64.Encode(Base64.Url, padSignature, x.sign(secret, payload))
  }

  /** A minted token splits at its first dot and both halves decode to what was encoded. */
  lemma MintSplits(x: Primitives, secret: int, p: Payload, padPayload: bool, padSignature: bool)
    requires Lawful(x)
    ensures var token := Mint(x, secret, p, padPayload, padSignature);
            var dot := IndexOf(token, '.');
            && 1 <= dot < |token| - 1
            && Base64.DecodeEither(Base64.Url, token[..dot]) == Some(x.render(p))
            && Base64.DecodeEither(Base64.Url, token[dot + 1..]) == Some(x.sign(secret, x.render(p)))
  {
    var payload := x.render(p);
    var sig := x.sign(secret, payload);
    var left, right := Base64.Encode(Base64.Url, padPayload, payload), Base64.Encode(Base64.Url, padSignature, sig);
    Base64.EncodeShape(Base64.Url, padPayload, payload);
    Base64.EncodeShape(Base64.Url, padSignature, sig);
    Base64.EitherRoundTrip(Base64.Url, padPayload, payload);
    Base64.EitherRoundTrip(Base64.Url, padSignature, sig);
    IndexOfJoint(left, '.', right);
  }

  /**
   For every payload, signer, key map and clock: the verdict on a minted token is exactly
   the first claim that does not hold, and it is accepted if and only if all hold.
   */
  lemma MintVerifies(x: Primitives, secret: int, p: Payload, padPayload: bool, padSignature: bool,
                     keys: Keys, cid: string, size: int, now: int)
    requires Lawful(x)
    ensures var verdict := Verify(x, keys, Mint(x, secret, p, padPayload, padSignature), cid, size, now);
            var signerKnown := p.kid in keys && keys[p.kid] == x.publicKey(secret);
            var unexpired := p.exp != 0 && now <= p.exp;
            && (verdict == None <==> signerKnown && unexpired && p.cid == cid && p.size == size)
            && (verdict == Some(UnknownKid) <==> p.kid !in keys)
            && (verdict == Some(BadSignature) <==> p.kid in keys && !signerKnown)
            && (verdict == Some(Expired) <==> signerKnown && !unexpired)
            && (verdict == Some(CidMismatch) <==> signerKnown && unexpired && p.cid != cid)
            && (verdict == Some(SizeMismatch) <==> signerKnown && unexpired && p.cid == cid && p.size != size)
  {
    MintSplits(x, secret, p, padPayload, padSignature);
  }

  /** The audit reason for a token as it was issued, "" when it is accepted. */
  function MintReason(x: Primitives, secret: int, p: Payload, keys: Keys, cid: string, size: int, now: int): string {
    if p.kid !in keys then "token_unknown_kid"
    else if keys[p.kid] != x.publicKey(secret) then "token_invalid"
    else if p.exp == 0 || now > p.exp then "token_expired"
    else if p.cid != cid then "token_cid_mismatch"
    else if p.size != size then "token_size_mismatch"
    else ""
  }

  lemma MintClassified(x: Primitives, secret: int, p: Payload, padPayload: bool, padSignature: bool,
                       keys: Keys, cid: string, size: int, now: int)
    requires Lawful(x)
    ensures var verdict := Verify(x, keys, Mint(x, secret, p, padPayload, padSignature), cid, size, now);
            MintReason(x, secret, p, keys, cid, size, now) == if verdict.Some? then Classify(verdict.value) else ""
  {
    MintVerifies(x, secret, p, padPayload, padSignature, keys, cid, size, now);
    MintSplits(x, secret, p, padPayload, padSignature);
  }

  /** The payload a token carries, when both halves and the JSON can be read. */
  function PayloadOf(x: Primitives, token: string): Option<Payload> {
    var dot := IndexOf(token, '.');
    if dot < 1 then None
    else
      var payload := Base64.DecodeEither(Base64.Url, token[..dot]);
      if payload.None? then None else x.parse(payload.value)
  }

  /**
   What a token must be to count, said without the verifier: payload and signature text around its
   first dot, a payload that reads as claims, signed by the key registered under its kid, in force,
   and made out to this very upload.
   */
  predicate VouchedBy(x: Primitives, keys: Keys, token: string, left: string, right: string, payload: bytes,
                      sig: bytes, cid: string, size: int, now: int)
  {
    && token == left + ['.'] + right && Lacks(left, '.') && left != "" && right != ""
    && Base64.DecodeEither(Base64.Url, left) == Some(payload) && Base64.DecodeEither(Base64.Url, right) == Some(sig)
    && (match x.parse(payload)
        case Some(p) =>
          && p.kid in keys && x.verify(keys[p.kid], payload, sig)
          && p.exp != 0 && now <= p.exp && p.cid == cid && p.size == size
        case None => false)
  }

  ghost predicate Vouched(x: Primitives, keys: Keys, token: string, cid: string, size: int, now: int) {
    exists left, right, payload, sig :: VouchedBy(x, keys, token, left, right, payload, sig, cid, size, now)
  }

  /** For every token whatever: the verifier accepts it iff it is vouched for. */
  lemma VerifyExactly(x: Primitives, keys: Keys, token: string, cid: string, size: int, now: int)
    ensures Verify(x, keys, token, cid, size, now) == None <==> Vouched(x, keys, token, cid, size, now)
  {
    var dot := IndexOf(token, '.');
    if Verify(x, keys, token, cid, size, now) == None {
      var left, right := token[..dot], token[dot + 1..];
      var payload, sig := Base64.DecodeEither(Base64.Url, left).value, Base64.DecodeEither(Base64.Url, right).value;
      assert token == left + ['.'] + right;
      assert VouchedBy(x, keys, token, left, right, payload, sig, cid, size, now);
    }
    if Vouched(x, keys, token, cid, size, now) {
      var left, right, payload, sig :| VouchedBy(x, keys, token, left, right, payload, sig, cid, size, now);
      IndexOfJoint(left, '.', right);
    }
  }

  /** Whatever was verified, the kid logged afterwards is the kid that selected the key. */
  lemma VerifiedKid(x: Primitives, keys: Keys, token: string, cid: string, size: int, now: int)
    requires Lawful(x) && Verify(x, keys, token, cid, size, now) == None
    ensures PayloadOf(x, token).Some?
    ensures var p := PayloadOf(x, token).value;
            KidOf(x, token) == p.kid && p.kid in keys && p.cid == cid && p.size == size && now <= p.exp
  {
  }

  /** Key rotation: entries for other kids never change a verdict. */
  lemma OtherKidsIrrelevant(x: Primitives, keys: Keys, others: Keys, token: string, cid: string, size: int, now: int)
    requires PayloadOf(x, token).Some? ==>
               var kid := PayloadOf(x, token).value.kid;
               (kid in keys <==> kid in others) && (kid in keys ==> keys[kid] == others[kid])
    ensures Verify(x, keys, token, cid, size, now) == Verify(x, others, token, cid, size, now)
  {
  }

  /** A token names one CID and one size: it can never be accepted for two different uploads. */
  lemma TokenBindsUpload(x: Primitives, keys: Keys, token: string, cid: string, size: int, now: int,
                         cid': string, size': int, now': int)
    requires Verify(x, keys, token, cid, size, now) == None
    requires Verify(x, keys, token, cid', size', now') == None
    ensures cid == cid' && size == size'
  {
  }
}
