/** POST /v1/artifacts: the admission checks, their audit trail and the write behind them. */
module PushHandler {
  import opened Prelude
  import opened Mirrored
  import opened BodyLimit
  import opened UploadToken
  import opened Text
  import opened MirrorInterleaving

  const TOKEN_REJECTED := "<rejected>"

  /** The SDK's CID reader and its registered hash functions. */
  datatype Sdk = Sdk(parseCid: string -> Option<Cid>, hash: Hash)

  datatype Config = Config(
    verify: bool, maxBody: int64, policy: string, verifier: Option<Keys>, sdk: Sdk, tokens: Primitives)

  datatype Request = Request(cidHeader: string, body: Body, token: string, now: int)

  datatype Audit = Audit(reason: string, claimedCid: string)

  // ---------- What must hold of a request, check by check ----------

  datatype Check = CidPresent | CidReadable | BodyReadable | BodyWithinLimit | TokenPresent | TokenValid | DigestMatches

  /** The documented order of the checks. */
  function Rank(c: Check): nat {
    match c
    case CidPresent => 0
    case CidReadable => 1
    case BodyReadable => 2
    case BodyWithinLimit => 3
    case TokenPresent => 4
    case TokenValid => 5
    case DigestMatches => 6
  }

  function Received(cfg: Config, req: Request): BodyLimit.Outcome {
    ReadSpec(req.body, cfg.maxBody)
  }

  /** The bytes the later checks look at; empty when the body was not accepted. */
  function Data(cfg: Config, req: Request): bytes {
    match Received(cfg, req)
    case Whole(data) => data
    case _ => []
  }

  predicate TokensEnforced(cfg: Config) {
    cfg.policy != "off" && cfg.verifier.Some?
  }

  function TokenVerdict(cfg: Config, req: Request): Option<TokenError>
    requires TokensEnforced(cfg)
  {
    Verify(cfg.tokens, cfg.verifier.value, req.token, req.cidHeader, |Data(cfg, req)|, req.now)
  }

  predicate Passes(cfg: Config, req: Request, c: Check) {
    match c
    case CidPresent => req.cidHeader != ""
    case CidReadable => cfg.sdk.parseCid(req.cidHeader).Some?
    case BodyReadable => !Received(cfg, req).ReadError?
    case BodyWithinLimit => !Received(cfg, req).TooLarge?
    case TokenPresent => TokensEnforced(cfg) && cfg.policy == "required" ==> req.token != ""
    case TokenValid => TokensEnforced(cfg) && req.token != "" ==> TokenVerdict(cfg, req) == None
    case DigestMatches =>
      cfg.verify ==>
        match cfg.sdk.parseCid(req.cidHeader)
        case Some(cid) => Matches(cfg.sdk.hash, cid, Data(cfg, req))
        case None => false
  }

  function Reason(cfg: Config, req: Request, c: Check): string {
    match c
    case CidPresent => "missing_cid_header"
    case CidReadable => "invalid_cid_header"
    case BodyReadable => "read_body_error"
    case BodyWithinLimit => "size_exceeded"
    case TokenPresent => "token_required_missing"
    case TokenValid =>
      if TokensEnforced(cfg) && TokenVerdict(cfg, req).Some? then Classify(TokenVerdict(cfg, req).value) else ""
    case DigestMatches => "cid_mismatch"
  }

  function Status(c: Check): int {
    match c
    case BodyWithinLimit => 413
    case TokenPresent => 401
    case TokenValid => 401
    case _ => 400
  }

  function FirstFailed(cfg: Config, req: Request): Option<Check> {
    if !Passes(cfg, req, CidPresent) then Some(CidPresent)
    else if !Passes(cfg, req, CidReadable) then Some(CidReadable)
    else if !Passes(cfg, req, BodyReadable) then Some(BodyReadable)
    else if !Passes(cfg, req, BodyWithinLimit) then Some(BodyWithinLimit)
    else if !Passes(cfg, req, TokenPresent) then Some(TokenPresent)
    else if !Passes(cfg, req, TokenValid) then Some(TokenValid)
    else if !Passes(cfg, req, DigestMatches) then Some(DigestMatches)
    else None
  }

  /** The reported check fails, and every check before it in the documented order passes. */
  lemma FirstFailedIsFirst(cfg: Config, req: Request)
    ensures match FirstFailed(cfg, req)
            case Some(c) => !Passes(cfg, req, c) && forall d :: Rank(d) < Rank(c) ==> Passes(cfg, req, d)
            case None => forall d :: Passes(cfg, req, d)
  {
  }

  /** The request's token vouches for this very CID and body, under the configured keys. */
  ghost predicate TokenVouched(cfg: Config, req: Request)
    requires cfg.verifier.Some?
  {
    Vouched(cfg.tokens, cfg.verifier.value, req.token, req.cidHeader, |Data(cfg, req)|, req.now)
  }

  /** Header and body are fine; what remains are the token and the digest. */
  predicate Arrived(cfg: Config, req: Request) {
    req.cidHeader != "" && cfg.sdk.parseCid(req.cidHeader).Some? && Received(cfg, req).Whole?
  }

  /** Nothing before the digest check objects. */
  predicate PastTokens(cfg: Config, req: Request) {
    FirstFailed(cfg, req) in [None, Some(DigestMatches)]
  }

  /**
   The policy, said of the request itself. Without a verifier, or switched off, tokens play no part.
   Otherwise a missing token is refused iff one is required, and a token that is there, required or
   not, is refused iff it does not vouch for this upload.
   */
  lemma TokenPolicy(cfg: Config, req: Request)
    requires Arrived(cfg, req)
    ensures cfg.policy == "off" || cfg.verifier.None? ==> PastTokens(cfg, req)
    ensures cfg.policy != "off" && cfg.verifier.Some? && req.token == "" ==>
              if cfg.policy == "required" then FirstFailed(cfg, req) == Some(TokenPresent) else PastTokens(cfg, req)
    ensures cfg.policy != "off" && cfg.verifier.Some? && req.token != "" ==>
              if TokenVouched(cfg, req) then PastTokens(cfg, req) else FirstFailed(cfg, req) == Some(TokenValid)
  {
    if cfg.verifier.Some? {
      VerifyExactly(cfg.tokens, cfg.verifier.value, req.token, req.cidHeader, |Data(cfg, req)|, req.now);
    }
  }

  /** Status and reason of the rejection, if the request is rejected. */
  function Answer(cfg: Config, req: Request): Option<(int, string)> {
    match FirstFailed(cfg, req)
    case Some(c) => Some((Status(c), Reason(cfg, req, c)))
    case None => None
  }

  /** The documented statuses and reasons, for each kind of bad request. */
  lemma AnswerTable(cfg: Config, req: Request)
    ensures req.cidHeader == "" ==> Answer(cfg, req) == Some((400, "missing_cid_header"))
    ensures req.cidHeader != "" && cfg.sdk.parseCid(req.cidHeader).None? ==>
              Answer(cfg, req) == Some((400, "invalid_cid_header"))
    ensures req.cidHeader != "" && cfg.sdk.parseCid(req.cidHeader).Some? && Received(cfg, req).ReadError? ==>
              Answer(cfg, req) == Some((400, "read_body_error"))
    ensures req.cidHeader != "" && cfg.sdk.parseCid(req.cidHeader).Some? && Received(cfg, req).TooLarge? ==>
              Answer(cfg, req) == Some((413, "size_exceeded"))
    ensures Arrived(cfg, req) && cfg.verifier.Some? && cfg.policy == "required" && req.token == "" ==>
              Answer(cfg, req) == Some((401, "token_required_missing"))
    ensures PastTokens(cfg, req) ==>
              && Arrived(cfg, req)
              && var cid := cfg.sdk.parseCid(req.cidHeader).value;
                 Answer(cfg, req) == if cfg.verify && cfg.sdk.hash(cid.algorithm, Data(cfg, req)) != cid.digest
                                     then Some((400, "cid_mismatch")) else None
  {
  }

  lemma VerdictAnswers(cfg: Config, req: Request)
    requires Arrived(cfg, req) && cfg.policy != "off" && cfg.verifier.Some? && req.token != ""
    ensures var verdict := TokenVerdict(cfg, req);
            if verdict.Some? then Answer(cfg, req) == Some((401, Classify(verdict.value))) else PastTokens(cfg, req)
  {
  }

  /** And for tokens: one reason for each thing that can be wrong with a token as it was issued. */
  lemma MintedAnswers(cfg: Config, req: Request, secret: int, p: Payload, padPayload: bool, padSignature: bool)
    requires Lawful(cfg.tokens) && Arrived(cfg, req) && cfg.policy != "off" && cfg.verifier.Some?
    requires req.token == Mint(cfg.tokens, secret, p, padPayload, padSignature)
    ensures var reason :=
              MintReason(cfg.tokens, secret, p, cfg.verifier.value, req.cidHeader, |Data(cfg, req)|, req.now);
            if reason == "" then PastTokens(cfg, req) else Answer(cfg, req) == Some((401, reason))
  {
    MintSplits(cfg.tokens, secret, p, padPayload, padSignature);
    MintClassified(cfg.tokens, secret, p, padPayload, padSignature, cfg.verifier.value, req.cidHeader,
                   |Data(cfg, req)|, req.now);
    VerdictAnswers(cfg, req);
  }

  /** Text that is no token at all. */
  lemma GarbageAnswer(cfg: Config, req: Request)
    requires Arrived(cfg, req) && cfg.policy != "off" && cfg.verifier.Some? && req.token != ""
    ensures Lacks(req.token, '.') ==> Answer(cfg, req) == Some((401, "token_malformed"))
  {
  }

  /** The one kind of request to which the handler writes nothing: a valid token whose kid is the sentinel itself. */
  predicate Silent(cfg: Config, req: Request) {
    && FirstFailed(cfg, req) in [None, Some(DigestMatches)]
    && TokensEnforced(cfg) && req.token != "" && KidOf(cfg.tokens, req.token) == TOKEN_REJECTED
  }

  // ---------- The handler ----------

  class Handler {
    const cfg: Config
    const backend: MirroredStore
    var responses: seq<int>
    var audit: seq<Audit>

    constructor (cfg: Config, backend: MirroredStore)
      ensures this.cfg == cfg && this.backend == backend && responses == [] && audit == []
    {
      this.cfg := cfg;
      this.backend := backend;
      responses, audit := [], [];
    }

    method Reject(status: int, reason: string, claimedCid: string)
      modifies this
      ensures responses == old(responses) + [status] && audit == old(audit) + [Audit(reason, claimedCid)]
    {
      audit := audit + [Audit(reason, claimedCid)];
      responses := responses + [status];
    }

    /** One answer and one audit record were added, both for check c. */
    ghost predicate Rejected(responsesBefore: seq<int>, auditBefore: seq<Audit>, req: Request, c: Check)
      reads this
    {
      && responses == responsesBefore + [Status(c)]
      && audit == auditBefore + [Audit(Reason(cfg, req, c), req.cidHeader)]
    }

    /** Empty, a kid, or the sentinel after a rejection has been written. */
    method CheckUploadToken(req: Request, size: nat) returns (kid: string)
      requires size == |Data(cfg, req)|
      modifies this
      ensures !Passes(cfg, req, TokenPresent) ==>
                kid == TOKEN_REJECTED && Rejected(old(responses), old(audit), req, TokenPresent)
      ensures Passes(cfg, req, TokenPresent) && !Passes(cfg, req, TokenValid) ==>
                kid == TOKEN_REJECTED && Rejected(old(responses), old(audit), req, TokenValid)
      ensures Passes(cfg, req, TokenPresent) && Passes(cfg, req, TokenValid) ==>
                && responses == old(responses) && audit == old(audit)
                && kid == if TokensEnforced(cfg) && req.token != "" then KidOf(cfg.tokens, req.token) else ""
      ensures cfg.policy == "off" || cfg.verifier.None? ==>
                kid == "" && responses == old(responses) && audit == old(audit)
      ensures cfg.policy != "off" && cfg.verifier.Some? && req.token == "" ==>
                if cfg.policy == "required" then kid == TOKEN_REJECTED && responses == old(responses) + [401]
                else kid == "" && responses == old(responses) && audit == old(audit)
      ensures cfg.policy != "off" && cfg.verifier.Some? && req.token != "" ==>
                if TokenVouched(cfg, req) then kid == KidOf(cfg.tokens, req.token) && responses == old(responses)
                else kid == TOKEN_REJECTED && responses == old(responses) + [401]
    {
      if cfg.policy == "off" || cfg.verifier.None? {
        return "";
      }
      if req.token == "" {
        if cfg.policy == "required" {
          Reject(401, "token_required_missing", req.cidHeader);
          return TOKEN_REJECTED;
        }
        return "";
      }
      var verdict := Verify(cfg.tokens, cfg.verifier.value, req.token, req.cidHeader, size, req.now);
      VerifyExactly(cfg.tokens, cfg.verifier.value, req.token, req.cidHeader, size, req.now);
      if verdict.Some? {
        Reject(401, Classify(verdict.value), req.cidHeader);
        return TOKEN_REJECTED;
      }
      kid := ExtractKid(cfg.tokens, req.token);
    }

    /** Steps 1 and 2: the CID header and the whole body, or the first of their checks that failed. */
    method Receive(req: Request) returns (r: Option<(Cid, bytes)>)
      modifies this
      ensures r.Some? ==>
                && responses == old(responses) && audit == old(audit)
                && req.cidHeader != "" && cfg.sdk.parseCid(req.cidHeader) == Some(r.value.0)
                && Received(cfg, req) == Whole(r.value.1)
      ensures r.None? ==>
                && FirstFailed(cfg, req).Some? && Rank(FirstFailed(cfg, req).value) < Rank(TokenPresent)
                && Rejected(old(responses), old(audit), req, FirstFailed(cfg, req).value)
    {
      r := None;
      if req.cidHeader == "" {
        Reject(400, "missing_cid_header", req.cidHeader);
        return;
      }
      var parsed := cfg.sdk.parseCid(req.cidHeader);
      if parsed.None? {
        Reject(400, "invalid_cid_header", req.cidHeader);
        return;
      }
      var body := ReadBody(req.body, cfg.maxBody);
      if body.ReadError? {
        Reject(400, "read_body_error", req.cidHeader);
        return;
      }
      if body.TooLarge? {
        Reject(413, "size_exceeded", req.cidHeader);
        return;
      }
      r := Some((parsed.value, body.data));
    }

    ghost predicate BackendUntouched(history: seq<Event>, primary: Objects, mirror: Objects)
      reads backend, backend.primary, backend.mirror
    {
      backend.history == history && backend.primary.objects == primary && backend.mirror.objects == mirror
    }

    /**
     Exactly one of: the first failed check is answered and audited once, with the backend
     untouched; every check passed and the bytes were written; every check passed and the
     backend failed without effect; or the request was silent.
     */
    method ServeHTTP(req: Request, up: Legs)
      requires backend.Valid()
      modifies this, backend, backend.primary, backend.mirror
      ensures backend.Valid()
      ensures FirstFailed(cfg, req).Some? && !Silent(cfg, req) ==>
                && Rejected(old(responses), old(audit), req, FirstFailed(cfg, req).value)
                && BackendUntouched(old(backend.history), old(backend.primary.objects), old(backend.mirror.objects))
      ensures Silent(cfg, req) ==>
                && responses == old(responses) && audit == old(audit)
                && BackendUntouched(old(backend.history), old(backend.primary.objects), old(backend.mirror.objects))
      ensures FirstFailed(cfg, req).None? && !Silent(cfg, req) ==>
                if up.primary then
                  responses == old(responses) + [200] && audit == old(audit)
                    && Stored(old(backend.history), backend.history, req, up)
                else
                  && responses == old(responses) + [500]
                  && audit == old(audit) + [Audit("backend_error", req.cidHeader)]
                  && BackendUntouched(old(backend.history), old(backend.primary.objects), old(backend.mirror.objects))
    {
      var admitted := Admit(req);
      if admitted.Some? {
        VerifyAndPersist(req.cidHeader, admitted.value.0, admitted.value.1, up);
      }
    }

    /** Steps 1 to 3: everything before the digest check. */
    method Admit(req: Request) returns (r: Option<(Cid, bytes)>)
      modifies this
      ensures r.Some? ==>
                && responses == old(responses) && audit == old(audit) && !Silent(cfg, req)
                && cfg.sdk.parseCid(req.cidHeader) == Some(r.value.0) && Data(cfg, req) == r.value.1
                && FirstFailed(cfg, req) == (if cfg.verify && !Matches(cfg.sdk.hash, r.value.0, r.value.1)
                                             then Some(DigestMatches) else None)
      ensures r.None? ==>
                if Silent(cfg, req) then responses == old(responses) && audit == old(audit)
                else
                  && FirstFailed(cfg, req).Some?
                  && Rejected(old(responses), old(audit), req, FirstFailed(cfg, req).value)
    {
      r := Receive(req);
      if r.Some? {
        var kid := CheckUploadToken(req, |r.value.1|);
        if kid == TOKEN_REJECTED {
          r := None;
        }
      }
    }

    /** Steps 4 and 5: nothing reaches the backend before the digest check. */
    method VerifyAndPersist(header: string, cid: Cid, data: bytes, up: Legs)
      requires backend.Valid()
      modifies this, backend, backend.primary, backend.mirror
      ensures backend.Valid()
      ensures cfg.verify && !Matches(cfg.sdk.hash, cid, data) ==>
                && responses == old(responses) + [400] && audit == old(audit) + [Audit("cid_mismatch", header)]
                && BackendUntouched(old(backend.history), old(backend.primary.objects), old(backend.mirror.objects))
      ensures !cfg.verify || Matches(cfg.sdk.hash, cid, data) ==>
                if up.primary then
                  && responses == old(responses) + [200] && audit == old(audit)
                  && backend.history == old(backend.history) + [Pushed(cid, data, true, up.mirror)]
                else
                  && responses == old(responses) + [500] && audit == old(audit) + [Audit("backend_error", header)]
                  && BackendUntouched(old(backend.history), old(backend.primary.objects), old(backend.mirror.objects))
    {
      if cfg.verify && !Matches(cfg.sdk.hash, cid, data) {
        Reject(400, "cid_mismatch", header);
        return;
      }
      var ok := backend.Push(cid, data, up);
      if !ok {
        Reject(500, "backend_error", header);
        return;
      }
      responses := responses + [200];
    }

    /** The backend gained exactly one push: the request's CID with the whole accepted body. */
    ghost predicate Stored(before: seq<Event>, after: seq<Event>, req: Request, up: Legs) {
      match cfg.sdk.parseCid(req.cidHeader)
      case Some(cid) => after == before + [Pushed(cid, Data(cfg, req), true, up.mirror)]
      case None => false
    }
  }
}
