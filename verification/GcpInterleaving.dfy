/**
 Concurrent calls on the Cloud KMS backend, interleaved at the granularity of one KMS or
 Firestore request. The global KEK is never destroyed, so what counts is when a call fetched the
 document. KMS looks at no shared state, so letting its answer and the call's return be one step
 loses no interleaving.
 */
module GcpInterleaving {
  import opened Prelude
  import opened KeyService
  import opened Gcp
  import opened Paths

  /**
   The request a call is about to send. A generation with an origin is part of a Rotate; an unwrap
   knows at which step its document was fetched.
   */
  datatype Stage =
    | Wrapping(g: Gen)
    | Creating(g: Gen)
    | Fetching(q: Query)
    | Unwrapping(q: Query, w: WrappedDek, at: nat)
    | Dropping(d: Digest, replacement: Option<Gen>)

  datatype Frame = Frame(start: nat, stage: Stage)

  /**
   docs is what Firestore holds and frames what the callers are doing. The rest is history: how
   and by whom each digest was made, which digests no caller was told, which were ever named,
   which are being deleted, and when each deletion was first acknowledged.
   */
  datatype State = State(
    docs: map<string, WrappedDek>,
    frames: map<nat, Frame>,
    clock: nat,
    gens: map<Digest, Gen>,
    owner: map<Digest, nat>,
    secret: set<Digest>,
    named: set<Digest>,
    doomed: set<Digest>,
    erasedAt: map<Digest, nat>)

  datatype Output =
    | Silence
    | ErrorOut
    | NewCid(g: Gen)
    | PlainOut(q: Query, plaintext: bytes, start: nat, at: nat)
    | EnvelopeOut(q: Query, material: bytes, start: nat, at: nat)
    | Gone(d: Digest)
    | RotatedOut(d: Digest, g: Gen, oldErased: bool, start: nat)

  datatype Action =
    | BeginGenerate(t: nat, g: Gen)
    | BeginQuery(t: nat, q: Query)
    | BeginDelete(t: nat, d: Digest)
    | Send(t: nat, fault: Fault, spare: Gen)

  predicate Initial(s: State) {
    s == State(map[], map[], 0, map[], map[], {}, {}, {}, map[])
  }

  // ---------- Steps ----------

  function Goto(s: State, t: nat, start: nat, stage: Stage): State { s.(frames := s.frames[t := Frame(start, stage)]) }
  function Return(s: State, t: nat): State { s.(frames := s.frames - {t}) }

  function StartGenerating(s: State, t: nat, start: nat, g: Gen): State {
    Goto(s.(gens := s.gens[g.digest := g], owner := s.owner[g.digest := t],
            secret := s.secret + {g.digest}, named := s.named + {g.digest}), t, start, Wrapping(g))
  }

  function SendCreate(s: State, t: nat, start: nat, g: Gen, fault: Fault): (res: (State, Output))
    ensures res.0.clock == s.clock && res.0.erasedAt == s.erasedAt
            && (res.1.Silence? || res.1.ErrorOut? || res.1.NewCid?)
    ensures res.0.docs == s.docs || (DocId(g.digest) !in s.docs
            && res.0.docs == s.docs[DocId(g.digest) := WrappedDek(Blob(g.dek))])
  {
    var created := s.(docs := s.docs[DocId(g.digest) := WrappedDek(Blob(g.dek))]);
    if fault == Fails || DocId(g.digest) in s.docs then (Return(s, t), ErrorOut)
    else if fault == Lost then (Return(created, t), ErrorOut)
    else
      match g.origin
      case None => (Return(created, t).(secret := s.secret - {g.digest}), NewCid(g))
      case Some(o) =>
        var d := o.query.digest;
        (Goto(created, t, start, Dropping(d, Some(g))).(doomed := s.doomed + {d}), Silence)
  }

  function Opened(q: Query, w: WrappedDek): Option<bytes> {
    if q.purpose.ToWrap? || |w.material| != KEY_SIZE + NONCE_SIZE then None
    else Open(w.material[..KEY_SIZE], w.material[KEY_SIZE..], q.purpose.ct)
  }

  /** The generation by which a Rotate of q continues, with fresh randomness. */
  function Derived(start: nat, q: Query, at: nat, spare: Gen): Gen {
    spare.(origin := Some(Origin(q, start, at)))
  }

  function SendUnwrap(
    s: State, t: nat, start: nat, q: Query, w: WrappedDek, at: nat, fault: Fault, spare: Gen): (res: (State, Output))
    ensures res.0.clock == s.clock && res.0.erasedAt == s.erasedAt && res.0.docs == s.docs
    ensures res.1.Silence? || res.1.ErrorOut? || res.1.PlainOut? || res.1.EnvelopeOut?
  {
    if fault != Works then (Return(s, t), ErrorOut)
    else if q.purpose.ToWrap? then (Return(s, t), EnvelopeOut(q, w.material, start, at))
    else if Opened(q, w).None? then (Return(s, t), ErrorOut)
    else if q.purpose.ToDecrypt? then (Return(s, t), PlainOut(q, Opened(q, w).value, start, at))
    else (StartGenerating(s, t, start, Derived(start, q, at, spare)), Silence)
  }

  function Acknowledge(s: State, d: Digest): map<Digest, nat> {
    if d in s.erasedAt then s.erasedAt else s.erasedAt[d := s.clock]
  }

  /** Delete returns; inside Rotate the replacement is handed out whether or not deletion worked. */
  function SendDrop(s: State, t: nat, start: nat, d: Digest, r: Option<Gen>, fault: Fault): (res: (State, Output))
    ensures res.0.clock == s.clock && res.0.erasedAt == if fault == Works then Acknowledge(s, d) else s.erasedAt
    ensures res.0.docs == s.docs || res.0.docs == s.docs - {DocId(d)}
    ensures res.1.ErrorOut? || res.1 == Gone(d) || (r.Some? && res.1 == RotatedOut(d, r.value, fault == Works, start))
    ensures res.1.Gone? ==> fault == Works
  {
    var dropped := if fault == Fails then s else s.(docs := s.docs - {DocId(d)});
    var done := Return(dropped, t).(erasedAt := if fault == Works then Acknowledge(s, d) else s.erasedAt);
    match r
    case None => (done, if fault == Works then Gone(d) else ErrorOut)
    case Some(g) => (done.(secret := s.secret - {g.digest}), RotatedOut(d, g, fault == Works, start))
  }

  function SendNext(s: State, t: nat, fault: Fault, spare: Gen): (res: (State, Output))
    requires t in s.frames
    ensures res.0.clock == s.clock
    ensures res.0.erasedAt == if s.frames[t].stage.Dropping? && fault == Works
            then Acknowledge(s, s.frames[t].stage.d) else s.erasedAt
    ensures res.1.Gone? || res.1.RotatedOut? ==>
              s.frames[t].stage.Dropping? && res.1.d == s.frames[t].stage.d
                && (res.1.Gone? || res.1.oldErased ==> fault == Works)
  {
    var start := s.frames[t].start;
    match s.frames[t].stage
    case Wrapping(g) =>
      if fault == Works then (Goto(s, t, start, Creating(g)), Silence) else (Return(s, t), ErrorOut)
    case Creating(g) => SendCreate(s, t, start, g, fault)
    case Fetching(q) =>
      if fault == Works && DocId(q.digest) in s.docs
      then (Goto(s, t, start, Unwrapping(q, s.docs[DocId(q.digest)], s.clock)), Silence)
      else (Return(s, t), ErrorOut)
    case Unwrapping(q, w, at) => SendUnwrap(s, t, start, q, w, at, fault, spare)
    case Dropping(d, r) => SendDrop(s, t, start, d, r, fault)
  }

  function Tick(s: State): State { s.(clock := s.clock + 1) }

  function Next(s: State, a: Action): (res: (State, Output))
    requires a.Send? ==> a.t in s.frames
    ensures res.0.clock == s.clock + 1
  {
    match a
    case BeginGenerate(t, g) => (Tick(StartGenerating(s, t, s.clock, g.(origin := None))), Silence)
    case BeginQuery(t, q) => (Tick(Goto(s, t, s.clock, Fetching(q)).(named := s.named + {q.digest})), Silence)
    case BeginDelete(t, d) =>
      (Tick(Goto(s, t, s.clock, Dropping(d, None)).(named := s.named + {d}, doomed := s.doomed + {d})), Silence)
    case Send(t, fault, spare) => var (s', o) := SendNext(s, t, fault, spare); (Tick(s'), o)
  }

  predicate FreshGen(env: Env, s: State, g: Gen) {
    GoodMaterial(g.dek) && g.digest == NewDigest(env, g.dek, g.plaintext) && g.digest !in s.named
  }

  /** Rotate read its plaintext and is about to generate. */
  predicate Rotates(stage: Stage, fault: Fault) {
    stage.Unwrapping? && fault == Works && stage.q.purpose.ToRotate? && Opened(stage.q, stage.w).Some?
  }

  predicate Enabled(env: Env, s: State, a: Action) {
    match a
    case BeginGenerate(t, g) => t !in s.frames && FreshGen(env, s, g)
    case BeginQuery(t, q) => t !in s.frames && q.digest !in s.secret
    case BeginDelete(t, d) => t !in s.frames && d !in s.secret
    case Send(t, fault, spare) =>
      && t in s.frames
      && (var stage := s.frames[t].stage;
          Rotates(stage, fault) ==> FreshGen(env, s, spare) && Opened(stage.q, stage.w) == Some(spare.plaintext))
  }

  // ---------- The invariant ----------

  predicate Mine(s: State, t: nat, g: Gen) {
    g.digest in s.gens && s.gens[g.digest] == g && g.digest in s.owner && s.owner[g.digest] == t && g.digest in s.secret
  }

  predicate Public(s: State, d: Digest) { d in s.named && d !in s.secret }

  /** Some call got hold of d's wrapped key at that step, before any deletion of d was acknowledged. */
  predicate Holds(s: State, at: nat, d: Digest) {
    at <= s.clock && Public(s, d) && (d in s.erasedAt ==> at <= s.erasedAt[d])
  }

  predicate OriginHeld(s: State, start: nat, g: Gen) {
    g.origin.Some? ==> Replaces(s, start, g.origin.value.query.digest, g)
  }

  /** g was derived from d by the call that started then. */
  predicate Replaces(s: State, start: nat, d: Digest, g: Gen) {
    && g.origin.Some? && g.origin.value.query.digest == d
    && g.origin.value.start == start <= g.origin.value.at && Holds(s, g.origin.value.at, d)
  }

  predicate FrameOk(s: State, t: nat, f: Frame) {
    && f.start <= s.clock
    && match f.stage
       case Wrapping(g) => Mine(s, t, g) && DocId(g.digest) !in s.docs && OriginHeld(s, f.start, g)
       case Creating(g) => Mine(s, t, g) && DocId(g.digest) !in s.docs && OriginHeld(s, f.start, g)
       case Fetching(q) => Public(s, q.digest)
       case Unwrapping(q, w, at) =>
         && f.start <= at && Holds(s, at, q.digest)
         && q.digest in s.gens && w == WrappedDek(Blob(s.gens[q.digest].dek))
       case Dropping(d, r) =>
         && Public(s, d) && d in s.doomed
         && (r.Some? ==> Mine(s, t, r.value) && DocId(r.value.digest) in s.docs && Replaces(s, f.start, d, r.value))
  }

  predicate DigestOk(env: Env, s: State, d: Digest) {
    && (d in s.gens ==>
          && s.gens[d].digest == d && GoodMaterial(s.gens[d].dek)
             && d == NewDigest(env, s.gens[d].dek, s.gens[d].plaintext)
          && d in s.named && d in s.owner
          && (s.gens[d].origin.Some? ==> ReEncrypts(s.gens, s.gens[d].origin.value.query, s.gens[d])))
    && (d in s.secret ==> d in s.gens)
    && (DocId(d) in s.docs ==> d in s.gens && s.docs[DocId(d)] == WrappedDek(Blob(s.gens[d].dek)))
    && (d in s.erasedAt ==> Public(s, d) && DocId(d) !in s.docs && s.erasedAt[d] <= s.clock)
    && (d in s.gens && d !in s.secret && d !in s.doomed ==> DocId(d) in s.docs)
  }

  ghost predicate Inv(env: Env, s: State) {
    (forall d :: DigestOk(env, s, d)) && forall t :: t in s.frames ==> FrameOk(s, t, s.frames[t])
  }

  /** What a step by t must not do to anyone else. */
  ghost predicate Respects(s: State, s': State, t: nat) {
    && s.clock <= s'.clock
    && (forall u :: u != t && u in s'.frames ==> u in s.frames && s'.frames[u] == s.frames[u])
    && (forall d :: d in s.gens ==>
          && d in s'.gens && s'.gens[d] == s.gens[d]
          && d in s.owner && d in s'.owner && s'.owner[d] == s.owner[d])
    && s.named <= s'.named && s.doomed <= s'.doomed
    && (forall d :: d in s.secret && d !in s'.secret ==> d in s.owner && s.owner[d] == t)
    && (forall d :: d in s'.secret && d !in s.secret ==> d !in s.named)
    && (forall d :: d in s.secret && d in s.owner && s.owner[d] != t ==> (DocId(d) in s'.docs <==> DocId(d) in s.docs))
    && (forall d :: d in s.erasedAt ==> d in s'.erasedAt && s'.erasedAt[d] == s.erasedAt[d])
    && (forall d :: d in s'.erasedAt && d !in s.erasedAt ==> s'.erasedAt[d] == s.clock)
  }

  lemma OtherFrameKept(s: State, s': State, t: nat, u: nat, f: Frame)
    requires FrameOk(s, u, f) && Respects(s, s', t) && u != t
    ensures FrameOk(s', u, f)
  {
    match f.stage
    case Wrapping(_) =>
    case Creating(_) =>
    case Fetching(_) =>
    case Unwrapping(_, _, _) =>
    case Dropping(_, _) =>
  }

  /** A step that respects the others only has to look after the digests and its own frame. */
  lemma InvFrom(env: Env, s: State, s': State, t: nat)
    requires Inv(env, s) && Respects(s, s', t) && forall d :: DigestOk(env, s', d)
    requires t in s'.frames ==> FrameOk(s', t, s'.frames[t])
    ensures Inv(env, s')
  {
    forall u | u in s'.frames ensures FrameOk(s', u, s'.frames[u]) {
      if u != t {
        assert FrameOk(s, u, s.frames[u]);
        OtherFrameKept(s, s', t, u, s.frames[u]);
      }
    }
  }

  lemma StartKeepsDigests(env: Env, s: State, t: nat, start: nat, g: Gen, d: Digest)
    requires FreshGen(env, s, g) && (g.origin.Some? ==> ReEncrypts(s.gens, g.origin.value.query, g))
    requires DigestOk(env, s, d) && DigestOk(env, s, g.digest)
    ensures DigestOk(env, StartGenerating(s, t, start, g), d)
  {
  }

  lemma StartKeepsInv(env: Env, s: State, t: nat, start: nat, g: Gen)
    requires Inv(env, s) && FreshGen(env, s, g) && start <= s.clock && OriginHeld(s, start, g)
    requires g.origin.Some? ==> ReEncrypts(s.gens, g.origin.value.query, g)
    ensures Inv(env, StartGenerating(s, t, start, g))
  {
    var s' := StartGenerating(s, t, start, g);
    assert DigestOk(env, s, g.digest);
    forall d ensures DigestOk(env, s', d) {
      StartKeepsDigests(env, s, t, start, g, d);
    }
    forall d | d in s.gens ensures d in s'.owner && s'.owner[d] == s.owner[d] {
      assert DigestOk(env, s, d);
    }
    InvFrom(env, s, s', t);
  }

  /** The caller only moves on or returns an error. */
  lemma QuietKeepsInv(env: Env, s: State, s': State, t: nat)
    requires Inv(env, s) && (s' == Return(s, t) || (t in s'.frames
             && s' == Goto(s, t, s'.frames[t].start, s'.frames[t].stage)))
    requires t in s'.frames ==> FrameOk(s, t, s'.frames[t])
    ensures Inv(env, s')
  {
    forall d ensures DigestOk(env, s', d) && (d in s.gens ==> d in s.owner) {
      assert DigestOk(env, s, d);
    }
    InvFrom(env, s, s', t);
  }

  /** Removing a document whose deletion was begun disturbs nobody but its readers to come. */
  lemma RemoveKeepsInv(env: Env, s: State, t: nat, d: Digest)
    requires Inv(env, s) && Public(s, d) && d in s.doomed
    ensures Inv(env, Return(s.(docs := s.docs - {DocId(d)}), t))
  {
    var s' := Return(s.(docs := s.docs - {DocId(d)}), t);
    forall e ensures DigestOk(env, s', e) && (e in s.gens ==> e in s.owner) {
      assert DigestOk(env, s, e);
    }
    InvFrom(env, s, s', t);
  }

  lemma AcknowledgeKeepsInv(env: Env, s: State, d: Digest)
    requires Inv(env, s) && Public(s, d) && DocId(d) !in s.docs
    ensures Inv(env, s.(erasedAt := Acknowledge(s, d)))
  {
    var s' := s.(erasedAt := Acknowledge(s, d));
    forall e ensures DigestOk(env, s', e) {
      assert DigestOk(env, s, e);
    }
    forall u | u in s'.frames ensures FrameOk(s', u, s'.frames[u]) {
      assert FrameOk(s, u, s.frames[u]);
    }
  }

  /** Rotate hands out its replacement, whose document is in. */
  lemma TellKeepsInv(env: Env, s: State, t: nat, g: Gen)
    requires Inv(env, s) && Mine(s, t, g) && t !in s.frames && DocId(g.digest) in s.docs
    ensures Inv(env, s.(secret := s.secret - {g.digest}))
  {
    var s' := s.(secret := s.secret - {g.digest});
    forall e ensures DigestOk(env, s', e) {
      assert DigestOk(env, s, e);
    }
    forall u | u in s'.frames ensures FrameOk(s', u, s'.frames[u]) {
      assert u != t && FrameOk(s, u, s.frames[u]);
    }
  }

  lemma DropKeepsInv(env: Env, s: State, t: nat, start: nat, d: Digest, r: Option<Gen>, fault: Fault)
    requires Inv(env, s) && t in s.frames && s.frames[t] == Frame(start, Dropping(d, r))
    ensures Inv(env, SendDrop(s, t, start, d, r, fault).0)
  {
    assert FrameOk(s, t, s.frames[t]);
    var m := Return(s, t);
    QuietKeepsInv(env, s, m, t);
    if fault != Fails {
      m := Return(s.(docs := s.docs - {DocId(d)}), t);
      RemoveKeepsInv(env, s, t, d);
    }
    if fault == Works {
      AcknowledgeKeepsInv(env, m, d);
      m := m.(erasedAt := Acknowledge(m, d));
    }
    if r.Some? {
      TellKeepsInv(env, m, t, r.value);
    }
  }

  lemma StoreKeepsInv(env: Env, s: State, t: nat, g: Gen)
    requires Inv(env, s) && Mine(s, t, g)
    ensures Inv(env, Return(s.(docs := s.docs[DocId(g.digest) := WrappedDek(Blob(g.dek))]), t))
  {
    var s' := Return(s.(docs := s.docs[DocId(g.digest) := WrappedDek(Blob(g.dek))]), t);
    forall d ensures DigestOk(env, s', d) && (d in s.gens ==> d in s.owner) {
      assert DigestOk(env, s, d);
    }
    InvFrom(env, s, s', t);
  }

  /** Rotate turns to the old digest. */
  lemma TurnKeepsInv(env: Env, s: State, t: nat, start: nat, g: Gen, d: Digest)
    requires Inv(env, s) && Mine(s, t, g) && DocId(g.digest) in s.docs && Replaces(s, start, d, g) && start <= s.clock
    ensures Inv(env, Goto(s, t, start, Dropping(d, Some(g))).(doomed := s.doomed + {d}))
  {
    var s' := Goto(s, t, start, Dropping(d, Some(g))).(doomed := s.doomed + {d});
    forall e ensures DigestOk(env, s', e) && (e in s.gens ==> e in s.owner) {
      assert DigestOk(env, s, e);
    }
    InvFrom(env, s, s', t);
  }

  lemma CreateKeepsInv(env: Env, s: State, t: nat, start: nat, g: Gen, fault: Fault)
    requires Inv(env, s) && t in s.frames && s.frames[t] == Frame(start, Creating(g))
    ensures Inv(env, SendCreate(s, t, start, g, fault).0)
  {
    assert FrameOk(s, t, s.frames[t]);
    if fault == Fails {
      QuietKeepsInv(env, s, Return(s, t), t);
      return;
    }
    StoreKeepsInv(env, s, t, g);
    var m := Return(s.(docs := s.docs[DocId(g.digest) := WrappedDek(Blob(g.dek))]), t);
    if fault == Works && g.origin.None? {
      TellKeepsInv(env, m, t, g);
    } else if fault == Works {
      var d := g.origin.value.query.digest;
      TurnKeepsInv(env, m, t, start, g, d);
      assert m.frames[t := Frame(start, Dropping(d, Some(g)))] == s.frames[t := Frame(start, Dropping(d, Some(g)))];
    }
  }

  lemma ReadKeepsInv(env: Env, s: State, t: nat, fault: Fault, spare: Gen)
    requires Inv(env, s) && t in s.frames && (s.frames[t].stage.Fetching? || s.frames[t].stage.Unwrapping?)
    requires Enabled(env, s, Send(t, fault, spare))
    ensures Inv(env, SendNext(s, t, fault, spare).0)
  {
    assert FrameOk(s, t, s.frames[t]);
    var stage := s.frames[t].stage;
    if Rotates(stage, fault) {
      assert DigestOk(env, s, stage.q.digest);
      StartKeepsInv(env, s, t, s.frames[t].start, Derived(s.frames[t].start, stage.q, stage.at, spare));
    } else {
      assert DigestOk(env, s, stage.q.digest);
      QuietKeepsInv(env, s, SendNext(s, t, fault, spare).0, t);
    }
  }

  lemma TickKeepsInv(env: Env, s: State)
    requires Inv(env, s)
    ensures Inv(env, Tick(s))
  {
    forall d ensures DigestOk(env, Tick(s), d) {
      assert DigestOk(env, s, d);
    }
    forall t | t in s.frames ensures FrameOk(Tick(s), t, s.frames[t]) {
      assert FrameOk(s, t, s.frames[t]);
    }
  }

  lemma BeginKeepsInv(env: Env, s: State, a: Action)
    requires Inv(env, s) && Enabled(env, s, a) && (a.BeginQuery? || a.BeginDelete?)
    ensures Inv(env, Next(s, a).0)
  {
    var s' := Next(s, a).0;
    forall d ensures DigestOk(env, s', d) && (d in s.gens ==> d in s.owner) {
      assert DigestOk(env, s, d);
    }
    InvFrom(env, s, s', a.t);
  }

  /** Every step keeps the invariant, whether requests work, fail or lose their response. */
  lemma StepKeepsInv(env: Env, s: State, a: Action)
    requires Inv(env, s) && Enabled(env, s, a)
    ensures Inv(env, Next(s, a).0)
  {
    match a
    case BeginGenerate(t, g) =>
      StartKeepsInv(env, s, t, s.clock, g.(origin := None));
      TickKeepsInv(env, StartGenerating(s, t, s.clock, g.(origin := None)));
    case BeginQuery(_, _) => BeginKeepsInv(env, s, a);
    case BeginDelete(_, _) => BeginKeepsInv(env, s, a);
    case Send(t, fault, spare) =>
      assert FrameOk(s, t, s.frames[t]);
      match s.frames[t].stage {
        case Wrapping(_) => QuietKeepsInv(env, s, SendNext(s, t, fault, spare).0, t);
        case Creating(g) => CreateKeepsInv(env, s, t, s.frames[t].start, g, fault);
        case Dropping(d, r) => DropKeepsInv(env, s, t, s.frames[t].start, d, r, fault);
        case _ => ReadKeepsInv(env, s, t, fault, spare);
      }
      TickKeepsInv(env, SendNext(s, t, fault, spare).0);
  }

  // ---------- Runs ----------

  function Steps(env: Env): Relation<State, Action, Output> {
    (s: State, a: Action, o: Output, s': State) => Enabled(env, s, a) && Next(s, a) == (s', o)
  }

  ghost predicate Run(env: Env, ss: seq<State>, acts: seq<Action>, outs: seq<Output>) {
    Path(Steps(env), ss, acts, outs) && Initial(ss[0])
  }

  lemma {:induction false} RunKeepsInv(env: Env, ss: seq<State>, acts: seq<Action>, outs: seq<Output>, i: nat)
    requires Run(env, ss, acts, outs) && i < |ss|
    ensures Inv(env, ss[i]) && ss[i].clock == i
  {
    if i > 0 {
      RunKeepsInv(env, ss, acts, outs, i - 1);
      assert StepAt(Steps(env), ss, acts, outs, i - 1);
      StepKeepsInv(env, ss[i - 1], acts[i - 1]);
    }
  }

  /** The caller was told that d is deleted. */
  predicate Acknowledges(o: Output, d: Digest) {
    o == Gone(d) || (o.RotatedOut? && o.d == d && o.oldErased)
  }

  /** The caller was given d's plaintext, its key material, or a re-encryption of it. */
  predicate Reveals(o: Output, d: Digest) {
    ((o.PlainOut? || o.EnvelopeOut?) && o.q.digest == d) || (o.RotatedOut? && o.d == d)
  }

  lemma ErasedStep(env: Env, s: State, a: Action, d: Digest)
    requires Enabled(env, s, a)
    ensures d in s.erasedAt ==> d in Next(s, a).0.erasedAt && Next(s, a).0.erasedAt[d] == s.erasedAt[d]
    ensures Acknowledges(Next(s, a).1, d) ==> d in Next(s, a).0.erasedAt
    ensures d in Next(s, a).0.erasedAt && d !in s.erasedAt ==> Next(s, a).0.erasedAt[d] == s.clock
  {
  }

  lemma ErasedStays(
    env: Env, ss: seq<State>, acts: seq<Action>, outs: seq<Output>, i: nat, j: nat, d: Digest)
    requires Run(env, ss, acts, outs) && i <= j < |ss| && d in ss[i].erasedAt
    ensures d in ss[j].erasedAt && ss[j].erasedAt[d] == ss[i].erasedAt[d]
  {
    var when := ss[i].erasedAt[d];
    var p := (s: State) => d in s.erasedAt && s.erasedAt[d] == when;
    forall s, a, o, s' | Steps(env)(s, a, o, s') && p(s) ensures p(s') {
      ErasedStep(env, s, a, d);
    }
    Stays(Steps(env), ss, acts, outs, p, i, j);
  }

  /** When the call got hold of what it reveals. */
  function At(o: Output): nat
    requires o.PlainOut? || o.EnvelopeOut? || (o.RotatedOut? && o.g.origin.Some?)
  {
    if o.RotatedOut? then o.g.origin.value.at else o.at
  }

  lemma UnwrapReveals(
    env: Env, s: State, t: nat, start: nat, q: Query, w: WrappedDek, at: nat, fault: Fault, spare: Gen)
    requires Inv(env, s) && t in s.frames && s.frames[t] == Frame(start, Unwrapping(q, w, at))
    ensures var o := SendUnwrap(s, t, start, q, w, at, fault, spare).1;
            o.PlainOut? || o.EnvelopeOut? ==>
              o.q == q && o.start == start <= o.at == at && Holds(s, at, q.digest) && Truth(s, o)
  {
    assert FrameOk(s, t, s.frames[t]) && DigestOk(env, s, q.digest);
  }

  /** What was handed out is the digest's own key and nonce, or the plaintext sealed under them. */
  predicate Truth(s: State, o: Output)
    requires o.PlainOut? || o.EnvelopeOut?
  {
    var d := o.q.digest;
    && d in s.gens
    && (o.EnvelopeOut? ==> o.material == Blob(s.gens[d].dek) && |o.material| == 44)
    && (o.PlainOut? ==> o.q.purpose.ToDecrypt? && o.q.purpose.ct == SealedFor(s.gens[d].dek, o.plaintext))
  }

  /** Whatever a call reveals, it fetched before any deletion was acknowledged; and it is the truth. */
  lemma RevealsHeld(env: Env, s: State, a: Action, d: Digest)
    requires Inv(env, s) && Enabled(env, s, a) && Reveals(Next(s, a).1, d)
    ensures Next(s, a).1.RotatedOut? ==> Next(s, a).1.g.origin.Some?
    ensures Next(s, a).1.start <= At(Next(s, a).1) && Holds(s, At(Next(s, a).1), d)
    ensures !Next(s, a).1.RotatedOut? ==> Truth(s, Next(s, a).1)
  {
    assert a.Send?;
    var f := s.frames[a.t];
    if f.stage.Unwrapping? {
      UnwrapReveals(env, s, a.t, f.start, f.stage.q, f.stage.w, f.stage.at, a.fault, a.spare);
    } else {
      assert FrameOk(s, a.t, f) && f.stage.Dropping?;
    }
  }

  lemma AcknowledgedIsErased(
    env: Env, ss: seq<State>, acts: seq<Action>, outs: seq<Output>, i: nat, j: nat, d: Digest)
    requires Run(env, ss, acts, outs) && i < j < |ss| && Acknowledges(outs[i], d)
    ensures d in ss[j].erasedAt && ss[j].erasedAt[d] <= i
  {
    RunKeepsInv(env, ss, acts, outs, i);
    assert StepAt(Steps(env), ss, acts, outs, i) && DigestOk(env, ss[i], d);
    ErasedStep(env, ss[i], acts[i], d);
    ErasedStays(env, ss, acts, outs, i + 1, j, d);
  }

  /**
   Erasure is permanent: what a call reveals after the acknowledgement, by action i, it had fetched
   no later than that, and so it had started no later either.
   */
  lemma ErasureIsPermanent(
    env: Env, ss: seq<State>, acts: seq<Action>, outs: seq<Output>, i: nat, j: nat, d: Digest)
    requires Run(env, ss, acts, outs) && i < j < |acts| && Acknowledges(outs[i], d) && Reveals(outs[j], d)
    ensures outs[j].RotatedOut? ==> outs[j].g.origin.Some?
    ensures outs[j].start <= At(outs[j]) <= i
  {
    AcknowledgedIsErased(env, ss, acts, outs, i, j, d);
    RunKeepsInv(env, ss, acts, outs, j);
    assert StepAt(Steps(env), ss, acts, outs, j);
    RevealsHeld(env, ss[j], acts[j], d);
  }

  /** A fetch that works finds the document of a disclosed digest nobody began to delete. */
  lemma FetchFinds(env: Env, s: State, t: nat, start: nat, q: Query, spare: Gen)
    requires Inv(env, s) && t in s.frames && s.frames[t] == Frame(start, Fetching(q))
    requires q.digest in s.gens && q.digest !in s.doomed
    ensures Next(s, Send(t, Works, spare)).0 ==
            Tick(Goto(s, t, start, Unwrapping(q, WrappedDek(Blob(s.gens[q.digest].dek)), s.clock)))
  {
    assert FrameOk(s, t, s.frames[t]) && DigestOk(env, s, q.digest);
  }

  /** And whoever acted since, deleting it included, an unwrap that works yields the plaintext. */
  lemma DecryptAnswers(env: Env, s: State, t: nat, start: nat, q: Query, w: WrappedDek, at: nat, spare: Gen)
    requires Inv(env, s) && t in s.frames && s.frames[t] == Frame(start, Unwrapping(q, w, at))
    requires q.digest in s.gens
    requires q.purpose == ToDecrypt(SealedFor(s.gens[q.digest].dek, s.gens[q.digest].plaintext))
    ensures Next(s, Send(t, Works, spare)).1 == PlainOut(q, s.gens[q.digest].plaintext, start, at)
  {
    assert FrameOk(s, t, s.frames[t]) && DigestOk(env, s, q.digest);
  }

  /** Or key and nonce, when they were asked for. */
  lemma WrapAnswers(env: Env, s: State, t: nat, start: nat, q: Query, w: WrappedDek, at: nat, spare: Gen)
    requires Inv(env, s) && t in s.frames && s.frames[t] == Frame(start, Unwrapping(q, w, at)) && q.purpose.ToWrap?
    ensures q.digest in s.gens
    ensures Next(s, Send(t, Works, spare)).1 == EnvelopeOut(q, Blob(s.gens[q.digest].dek), start, at)
  {
    assert FrameOk(s, t, s.frames[t]);
  }

  /** At every moment, a digest handed out and not yet begun to be deleted has its own document. */
  lemma DocumentsAgree(env: Env, ss: seq<State>, acts: seq<Action>, outs: seq<Output>, i: nat, d: Digest)
    requires Run(env, ss, acts, outs) && i < |ss|
    ensures var s := ss[i];
            && (DocId(d) in s.docs ==> d in s.gens && s.docs[DocId(d)] == WrappedDek(Blob(s.gens[d].dek)))
            && (d in s.gens && d !in s.secret && d !in s.doomed ==> DocId(d) in s.docs)
  {
    RunKeepsInv(env, ss, acts, outs, i);
    assert DigestOk(env, ss[i], d);
  }

  /** Before its Dropping request no call touches the document of a digest any caller can name. */
  lemma NothingErasedBeforeDropping(env: Env, s: State, a: Action, d: Digest)
    requires Inv(env, s) && Enabled(env, s, a) && a.Send? && d !in s.secret && !s.frames[a.t].stage.Dropping?
    ensures DocId(d) in s.docs ==> DocId(d) in Next(s, a).0.docs && Next(s, a).0.docs[DocId(d)] == s.docs[DocId(d)]
  {
    assert FrameOk(s, a.t, s.frames[a.t]);
    match s.frames[a.t].stage
    case Wrapping(_) =>
    case Creating(_) =>
    case Fetching(_) =>
    case Unwrapping(_, _, _) =>
  }

  /** g's document holds its own material, under which its ciphertext opens to its plaintext. */
  predicate Committed(s: State, g: Gen) {
    && DocId(g.digest) in s.docs && s.docs[DocId(g.digest)] == WrappedDek(Blob(g.dek))
    && Opened(Query(g.digest, ToDecrypt(SealedFor(g.dek, g.plaintext))), s.docs[DocId(g.digest)]) == Some(g.plaintext)
  }

  /** And Rotate drops the old document only while its replacement, with the old plaintext, is stored. */
  lemma ReplacementStored(env: Env, s: State, t: nat, start: nat, d: Digest, g: Gen, fault: Fault)
    requires Inv(env, s) && t in s.frames && s.frames[t] == Frame(start, Dropping(d, Some(g)))
    ensures Committed(s, g) && Committed(SendDrop(s, t, start, d, Some(g), fault).0, g)
    ensures SamePlaintext(env, s.gens, d, g)
  {
    assert FrameOk(s, t, s.frames[t]) && DigestOk(env, s, g.digest) && DigestOk(env, s, d);
    assert DocId(g.digest) in SendDrop(s, t, start, d, Some(g), fault).0.docs;
  }
}
