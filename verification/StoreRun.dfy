/** Start-up configuration, and whole runs of the store under it. */
module StoreRun {
  import opened Prelude
  import opened Mirrored
  import opened MirrorInterleaving
  import opened UploadToken
  import opened PushHandler
  import opened BodyLimit
  import InlineKeys

  // ---------- Start-up ----------

  datatype StartupError = BadPolicy | NoKeySource | TwoKeySources | BadKeys

  /** What start-up guarantees about policy and verifier together. */
  predicate StartupValid(policy: string, verifier: Option<Keys>) {
    match verifier
    case None => policy == "off"
    case Some(keys) =>
      policy in ["optional", "required"] && GoodKeys(keys)
  }

  predicate GoodKeys(keys: Keys) {
    keys != map[] && forall kid :: kid in keys ==> |keys[kid]| == PUBLIC_KEY_SIZE
  }

  /** The keys an inline list names, if it can be read. */
  function Loaded(pem: string -> Option<bytes>, inline: string): Option<Keys> {
    match InlineKeys.Parse(pem, inline)
    case Ok(keys) => Some(keys)
    case Err(_) => None
  }

  /** dirKeys is what the key directory, if configured, was read as. */
  method BuildUploadTokenVerifier(pem: string -> Option<bytes>, policy: string, inline: string, dir: string,
      dirKeys: Option<Keys>)
    returns (r: Result<Option<Keys>, StartupError>)
    ensures r.Ok? ==> StartupValid(policy, r.value)
    ensures r == Ok(None) <==> policy == "off"
    ensures r == Err(BadPolicy) <==> policy !in ["off", "optional", "required"]
    ensures policy in ["optional", "required"] ==>
              && (r == Err(NoKeySource) <==> inline == "" && dir == "")
              && (r == Err(TwoKeySources) <==> inline != "" && dir != "")
    ensures policy in ["optional", "required"] && (inline == "") != (dir == "") ==>
              var keys := if inline == "" then dirKeys else Loaded(pem, inline);
              if keys.Some? && GoodKeys(keys.value) then r == Ok(keys) else r == Err(BadKeys)
  {
    if policy == "off" {
      return Ok(None);
    }
    if policy != "optional" && policy != "required" {
      return Err(BadPolicy);
    }
    if inline == "" && dir == "" {
      return Err(NoKeySource);
    }
    if inline != "" && dir != "" {
      return Err(TwoKeySources);
    }
    var keys: Option<Keys> := dirKeys;
    if inline != "" {
      var parsed := InlineKeys.ParseInlinePubKeys(pem, inline);
      keys := if parsed.Ok? then Some(parsed.value) else None;
      if parsed.Ok? {
        InlineKeys.ParseSound(InlineKeys.Reader(pem), InlineKeys.Entries(inline), map[]);
      }
    }
    if keys.None? || |keys.value| == 0 {
      return Err(BadKeys);
    }
    var verifier := NewVerifier(keys.value);
    if verifier.None? {
      return Err(BadKeys);
    }
    r := Ok(verifier);
  }

  /**
   Under "required", a request that passes every check carries a token that vouches for this very
   upload: signed by the key registered under its kid, in force, for this CID and size.
   */
  lemma RequiredMeansVerified(cfg: Config, req: Request)
    requires StartupValid(cfg.policy, cfg.verifier) && cfg.policy == "required"
    requires FirstFailed(cfg, req).None?
    ensures TokenVouched(cfg, req)
  {
    TokenPolicy(cfg, req);
  }

  /** Under "optional", a request that passes carries either no token or one that vouches. */
  lemma OptionalMeansNoneOrVerified(cfg: Config, req: Request)
    requires StartupValid(cfg.policy, cfg.verifier) && cfg.policy == "optional"
    requires FirstFailed(cfg, req).None?
    ensures req.token == "" || TokenVouched(cfg, req)
  {
    TokenPolicy(cfg, req);
  }

  /** The handler answers every request when no key is registered under the sentinel. */
  lemma NeverSilent(cfg: Config, req: Request)
    requires Lawful(cfg.tokens)
    requires cfg.verifier.Some? ==> "<rejected>" !in cfg.verifier.value
    ensures !Silent(cfg, req)
  {
    if Silent(cfg, req) {
      VerifiedKid(cfg.tokens, cfg.verifier.value, req.token, req.cidHeader, |Data(cfg, req)|, req.now);
    }
  }

  /**
   And start-up accepts that kid: for its holder's correctly signed pushes the handler then stores
   nothing, audits nothing and writes no response of its own.
   */
  lemma SentinelKidSilences(cfg: Config, secret: int, header: string)
    requires Lawful(cfg.tokens) && TokensEnforced(cfg) && StartupValid(cfg.policy, cfg.verifier) && 0 <= cfg.maxBody
    requires "<rejected>" in cfg.verifier.value && cfg.verifier.value["<rejected>"] == cfg.tokens.publicKey(secret)
    requires header != "" && cfg.sdk.parseCid(header).Some?
    ensures exists req :: Silent(cfg, req)
  {
    var p := Payload(header, 0, 1, 0, "<rejected>");
    var req := Request(header, Body([], Eof, false), Mint(cfg.tokens, secret, p, false, false), 0);
    MintVerifies(cfg.tokens, secret, p, false, false, cfg.verifier.value, header, 0, 0);
    MintSplits(cfg.tokens, secret, p, false, false);
    VerifiedKid(cfg.tokens, cfg.verifier.value, req.token, header, 0, 0);
    assert Received(cfg, req) == Whole([]);
    assert FirstFailed(cfg, req) in [None, Some(DigestMatches)];
    assert Silent(cfg, req);
  }

  // ---------- Runs ----------

  /** Bytes that hash to their CID and respect the body limit. */
  predicate GoodObject(cfg: Config, cid: Cid, data: bytes) {
    cfg.sdk.hash(cid.algorithm, data) == cid.digest && |data| <= cfg.maxBody
  }

  ghost predicate GoodObjects(cfg: Config, m: Objects) {
    forall cid :: cid in m ==> GoodObject(cfg, cid, m[cid])
  }

  ghost predicate GoodHistory(cfg: Config, history: seq<Event>) {
    forall i :: 0 <= i < |history| && history[i].Pushed? ==> GoodObject(cfg, history[i].cid, history[i].data)
  }

  lemma {:induction false} ReplayIsGood(cfg: Config, base: Objects, history: seq<Event>, leg: Leg)
    requires GoodObjects(cfg, base) && GoodHistory(cfg, history)
    ensures GoodObjects(cfg, Replay(base, history, leg))
  {
    if history != [] {
      ReplayIsGood(cfg, base, history[..|history| - 1], leg);
    }
  }

  /** With verification on, an accepted body is good for its CID. */
  lemma AcceptedIsGood(cfg: Config, req: Request)
    requires cfg.verify && FirstFailed(cfg, req).None?
    ensures cfg.sdk.parseCid(req.cidHeader).Some?
    ensures GoodObject(cfg, cfg.sdk.parseCid(req.cidHeader).value, Data(cfg, req))
    ensures var cid := cfg.sdk.parseCid(req.cidHeader).value;
            cfg.sdk.hash(cid.algorithm, Data(cfg, req)) == cid.digest
  {
  }

  /** An operation, and which legs answer while it is served. */
  datatype Op =
    | Push(req: Request, up: Legs)
    | Fetch(cid: Cid, up: Legs)
    | Delete(cid: Cid, up: Legs)
    | Pin(cid: Cid, up: Legs)

  function Pushes(ops: seq<Op>): nat {
    if ops == [] then 0 else Pushes(ops[..|ops| - 1]) + if ops[|ops| - 1].Push? then 1 else 0
  }

  /** The handler writes a response to it. */
  predicate Answered(cfg: Config, op: Op) {
    op.Push? && !Silent(cfg, op.req)
  }

  function Answers(cfg: Config, ops: seq<Op>): nat {
    if ops == [] then 0 else Answers(cfg, ops[..|ops| - 1]) + if Answered(cfg, ops[|ops| - 1]) then 1 else 0
  }

  /** No key is registered under the sentinel kid, and the token primitives obey their laws. */
  ghost predicate NoSentinel(cfg: Config) {
    Lawful(cfg.tokens) && (cfg.verifier.Some? ==> "<rejected>" !in cfg.verifier.value)
  }

  /** Then every push is answered. */
  lemma {:induction false} PushesAreAnswered(cfg: Config, ops: seq<Op>)
    requires NoSentinel(cfg)
    ensures Answers(cfg, ops) == Pushes(ops)
  {
    if ops != [] {
      var op := ops[|ops| - 1];
      PushesAreAnswered(cfg, ops[..|ops| - 1]);
      if op.Push? {
        NeverSilent(cfg, op.req);
      }
    }
  }

  /**
   Any run of pushes, fetches, deletes and pins, with either leg down at any time and whatever keys
   and tokens: both legs hold only good objects throughout, every fetch that answers returns good
   bytes, and the responses are exactly one for each push that is not silent; without a key under
   the sentinel kid, one for each push.
   */
  method RunServer(h: Handler, ops: seq<Op>) returns (answers: seq<Option<bytes>>)
    requires h.backend.Valid() && h.cfg.verify && GoodObjects(h.cfg, h.backend.base)
             && GoodHistory(h.cfg, h.backend.history)
    modifies h, h.backend, h.backend.primary, h.backend.mirror
    ensures GoodObjects(h.cfg, h.backend.primary.objects) && GoodObjects(h.cfg, h.backend.mirror.objects)
    ensures |answers| == |ops| && forall i :: 0 <= i < |ops| ==> GoodAnswer(h.cfg, ops[i], answers[i])
    ensures |h.responses| == |old(h.responses)| + Answers(h.cfg, ops)
    ensures NoSentinel(h.cfg) ==> |h.responses| == |old(h.responses)| + Pushes(ops)
  {
    answers := [];
    for i := 0 to |ops|
      invariant h.backend.Valid() && GoodHistory(h.cfg, h.backend.history)
      invariant |answers| == i && forall k :: 0 <= k < i ==> GoodAnswer(h.cfg, ops[k], answers[k])
      invariant |h.responses| == |old(h.responses)| + Answers(h.cfg, ops[..i])
    {
      assert ops[..i + 1][..i] == ops[..i];
      var answer := Serve(h, ops[i]);
      answers := answers + [answer];
    }
    assert ops[..|ops|] == ops;
    ReplayIsGood(h.cfg, h.backend.base, h.backend.history, Primary);
    ReplayIsGood(h.cfg, h.backend.base, h.backend.history, Mirror);
    if NoSentinel(h.cfg) {
      PushesAreAnswered(h.cfg, ops);
    }
  }

  /** Only a fetch answers with bytes, and they are good for the CID it asked for. */
  predicate GoodAnswer(cfg: Config, op: Op, answer: Option<bytes>) {
    answer.Some? ==> op.Fetch? && GoodObject(cfg, op.cid, answer.value)
  }

  method Serve(h: Handler, op: Op) returns (answer: Option<bytes>)
    requires h.backend.Valid() && h.cfg.verify && GoodObjects(h.cfg, h.backend.base)
             && GoodHistory(h.cfg, h.backend.history)
    modifies h, h.backend, h.backend.primary, h.backend.mirror
    ensures h.backend.Valid() && GoodHistory(h.cfg, h.backend.history) && GoodAnswer(h.cfg, op, answer)
    ensures op.Fetch? && op.up.primary && op.cid in h.backend.primary.objects ==>
            answer == Some(h.backend.primary.objects[op.cid])
    ensures |h.responses| == |old(h.responses)| + if Answered(h.cfg, op) then 1 else 0
  {
    answer := None;
    match op {
      case Push(req, up) =>
        ServePush(h, req, up);
      case Fetch(cid, up) =>
        ReplayIsGood(h.cfg, h.backend.base, h.backend.history, Primary);
        ReplayIsGood(h.cfg, h.backend.base, h.backend.history, Mirror);
        var r := h.backend.Fetch(cid, up);
        answer := if r.Ok? then Some(r.value) else None;
      case Delete(cid, up) =>
        var _ := h.backend.Delete(cid, up);
      case Pin(cid, up) =>
        var _ := h.backend.Pin(cid, up);
    }
  }

  method ServePush(h: Handler, req: Request, up: Legs)
    requires h.backend.Valid() && h.cfg.verify && GoodHistory(h.cfg, h.backend.history)
    modifies h, h.backend, h.backend.primary, h.backend.mirror
    ensures h.backend.Valid() && GoodHistory(h.cfg, h.backend.history)
    ensures |h.responses| == |old(h.responses)| + if Silent(h.cfg, req) then 0 else 1
  {
    ghost var before := h.backend.history;
    h.ServeHTTP(req, up);
    if FirstFailed(h.cfg, req).None? && h.backend.history != before {
      AcceptedIsGood(h.cfg, req);
    }
  }
}
