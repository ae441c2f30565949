/**
 Concurrent calls on the Vault backend, interleaved at the granularity of one backend request.
 A request may work, fail without effect, or take effect while its response is lost. A read that
 has been answered returns in a step of its own, which sends nothing.
 */
module VaultInterleaving {
  import opened Prelude
  import opened KeyService
  import opened Vault
  import opened Paths

  /**
   The request a caller is about to send. A generation with an origin is part of a Rotate. Holding
   sends nothing more: it has had the unwrapped key and nonce in hand since the step it names.
   */
  datatype Frame =
    | Creating(g: Gen)
    | Encrypting(g: Gen)
    | Storing(g: Gen, w: WrappedDek)
    | RollProbing(g: Gen)
    | RollAllowing(g: Gen)
    | RollDropping(g: Gen)
    | Fetching(q: Query)
    | Unwrapping(q: Query, w: WrappedDek)
    | Holding(q: Query, m: bytes, at: nat)
    | DroppingRecord(d: Digest, replacement: Option<Gen>)
    | Probing(d: Digest, replacement: Option<Gen>)
    | Allowing(d: Digest, replacement: Option<Gen>)
    | DroppingKey(d: Digest, replacement: Option<Gen>)

  /**
   remote is what Vault holds and frames what the callers are doing. The rest is history:
   gens, owner and blobs say how each digest was made, by whom, and as what it was wrapped;
   secret are the digests no caller has been told; named are all digests ever made or asked for;
   doomed are those whose deletion was started, erasedAt says when a deletion was first acknowledged;
   mislaid are those whose record was written while the response was lost; starts says when each
   caller began its latest call, by the clock that counts actions.
   */
  datatype State = State(
    remote: Remote,
    frames: map<nat, Frame>,
    gens: map<Digest, Gen>,
    owner: map<Digest, nat>,
    blobs: map<Digest, WrappedDek>,
    secret: set<Digest>,
    named: set<Digest>,
    doomed: set<Digest>,
    erasedAt: map<Digest, nat>,
    mislaid: set<Digest>,
    starts: map<nat, nat>,
    clock: nat)

  datatype Output =
    | Silence
    | NewCid(g: Gen)
    | PlainOut(q: Query, plaintext: bytes, at: nat)
    | EnvelopeOut(q: Query, material: bytes, at: nat)
    | Gone(d: Digest)
    | RotatedOut(d: Digest, g: Gen, oldErased: bool)
    | ErrorOut

  datatype Action =
    | BeginGenerate(t: nat, g: Gen)
    | BeginQuery(t: nat, q: Query)
    | BeginDelete(t: nat, d: Digest)
    | Send(t: nat, fault: Fault)
    | Deliver(t: nat, ok: bool, spare: Gen)  // ok: no local failure; spare: the randomness Rotate draws
    | Recreate(d: Digest)                    // someone else creates a Transit key of that name

  predicate Initial(s: State) {
    s == State(Remote(map[], map[], 0), map[], map[], map[], map[], {}, {}, {}, map[], {}, map[], 0)
  }

  // ---------- Steps ----------

  /** One request about e at most: nothing happened, or one effect under e's own names. */
  predicate OneRequest(r: Remote, r': Remote, e: Digest) {
    || r' == r || r' == CreateKey(r, TransitName(e)) || r' == DropKey(r, TransitName(e))
       || r' == DropRecord(r, KvName(e))
    || (TransitName(e) in r.transit && r' == AllowDeletion(r, TransitName(e)))
    || (KvName(e) in r'.kv && r' == PutRecord(r, KvName(e), r'.kv[KvName(e)]))
  }

  /** Record and Transit key of a digest are the same in both. */
  predicate Untouched(r: Remote, r': Remote, d: Digest) {
    && (KvName(d) in r.kv <==> KvName(d) in r'.kv)
    && (KvName(d) in r.kv ==> r'.kv[KvName(d)] == r.kv[KvName(d)])
    && (TransitName(d) in r.transit <==> TransitName(d) in r'.transit)
    && (TransitName(d) in r.transit ==> r'.transit[TransitName(d)] == r.transit[TransitName(d)])
  }

  lemma OthersUntouched(r: Remote, r': Remote, e: Digest, d: Digest)
    requires OneRequest(r, r', e) && d != e
    ensures Untouched(r, r', d)
  {
  }

  function Goto(s: State, t: nat, f: Frame): State { s.(frames := s.frames[t := f]) }
  function Return(s: State, t: nat): State { s.(frames := s.frames - {t}) }

  function StartOf(s: State, t: nat): nat { if t in s.starts then s.starts[t] else 0 }

  function StartGenerating(s: State, t: nat, g: Gen): State {
    Goto(s.(gens := s.gens[g.digest := g], owner := s.owner[g.digest := t],
            secret := s.secret + {g.digest}, named := s.named + {g.digest}), t, Creating(g))
  }

  function SendCreate(s: State, t: nat, g: Gen, fault: Fault): (res: (State, Output))
    ensures res.0.clock == s.clock
    ensures res.0.mislaid == s.mislaid
    ensures res.0.erasedAt == s.erasedAt && (res.1.Silence? || res.1.ErrorOut?)
  {
    var created := s.(remote := CreateKey(s.remote, TransitName(g.digest)));
    match fault
    case Works => (Goto(created, t, Encrypting(g)), Silence)
    case Fails => (Return(s, t), ErrorOut)
    case Lost => (Return(created, t), ErrorOut)
  }

  function SendEncrypt(s: State, t: nat, g: Gen, fault: Fault): (res: (State, Output))
    ensures res.0.clock == s.clock
    ensures res.0.mislaid == s.mislaid
    ensures res.0.erasedAt == s.erasedAt && (res.1.Silence? || res.1.ErrorOut?)
  {
    var name := TransitName(g.digest);
    if fault == Works && name in s.remote.transit then
      var w := WrappedDek(s.remote.transit[name].kek, Blob(g.dek));
      (Goto(s.(blobs := s.blobs[g.digest := w]), t, Storing(g, w)), Silence)
    else (Goto(s, t, RollProbing(g)), Silence)
  }

  function SendStore(s: State, t: nat, g: Gen, w: WrappedDek, fault: Fault): (res: (State, Output))
    ensures res.0.clock == s.clock
    ensures res.0.mislaid == if fault == Lost then s.mislaid + {g.digest} else s.mislaid
    ensures res.0.erasedAt == s.erasedAt && (res.1.Silence? || res.1.ErrorOut? || res.1.NewCid?)
  {
    var stored := s.(remote := PutRecord(s.remote, KvName(g.digest), w));
    match fault
    case Works => (
      match g.origin
      case None => (Return(stored, t).(secret := s.secret - {g.digest}), NewCid(g))
      case Some(o) =>
        (Goto(stored, t, DroppingRecord(o.query.digest, Some(g))).(doomed := s.doomed + {o.query.digest}), Silence))
    case Fails => (Goto(s, t, RollProbing(g)), Silence)
    case Lost => (Goto(stored, t, RollProbing(g)).(mislaid := s.mislaid + {g.digest}), Silence)
  }

  /** The rollback's own errors are ignored; the call returns its first error either way. */
  function SendRoll(s: State, t: nat, f: Frame, fault: Fault): (res: (State, Output))
    requires f.RollProbing? || f.RollAllowing? || f.RollDropping?
    ensures res.0.clock == s.clock
    ensures res.0.mislaid == s.mislaid
    ensures res.0.erasedAt == s.erasedAt && (res.1.Silence? || res.1.ErrorOut?)
  {
    var name := TransitName(f.g.digest);
    if fault == Fails || name !in s.remote.transit then (Return(s, t), ErrorOut)
    else if f.RollProbing? then (if fault == Works then (Goto(s, t, RollAllowing(f.g)), Silence)
      else (Return(s, t), ErrorOut))
    else if f.RollAllowing? then
      var allowed := s.(remote := AllowDeletion(s.remote, name));
      if fault == Works then (Goto(allowed, t, RollDropping(f.g)), Silence) else (Return(allowed, t), ErrorOut)
    else if s.remote.transit[name].deletable then (Return(s.(remote := DropKey(s.remote, name)), t), ErrorOut)
    else (Return(s, t), ErrorOut)
  }

  function SendFetch(s: State, t: nat, q: Query, fault: Fault): (res: (State, Output))
    ensures res.0.clock == s.clock
    ensures res.0.mislaid == s.mislaid && res.0.remote == s.remote
    ensures res.0.erasedAt == s.erasedAt && (res.1.Silence? || res.1.ErrorOut?)
  {
    if fault == Works && KvName(q.digest) in s.remote.kv
    then (Goto(s, t, Unwrapping(q, s.remote.kv[KvName(q.digest)])), Silence)
    else (Return(s, t), ErrorOut)
  }

  /** The key and nonce in hand, tried on the caller's ciphertext. */
  function Opening(q: Query, m: bytes): Option<bytes> {
    if q.purpose.ToWrap? || |m| != KEY_SIZE + NONCE_SIZE then None
    else Open(m[..KEY_SIZE], m[KEY_SIZE..], q.purpose.ct)
  }

  /** What Transit would return for the wrapped DEK now, tried on the caller's ciphertext. */
  function Opened(s: State, q: Query, w: WrappedDek): Option<bytes> {
    match DecryptUnder(s.remote, TransitName(q.digest), w)
    case Some(m) => Opening(q, m)
    case None => None
  }

  function SendUnwrap(s: State, t: nat, q: Query, w: WrappedDek, fault: Fault): (res: (State, Output))
    ensures res.0.clock == s.clock && res.0.erasedAt == s.erasedAt
    ensures res.0.mislaid == s.mislaid && res.0.remote == s.remote
    ensures res.1.Silence? || res.1.ErrorOut?
  {
    var m := DecryptUnder(s.remote, TransitName(q.digest), w);
    if fault == Works && m.Some? then (Goto(s, t, Holding(q, m.value, s.clock)), Silence)
    else (Return(s, t), ErrorOut)
  }

  /** The generation by which t's Rotate of q continues, with fresh randomness. */
  function Derived(s: State, t: nat, q: Query, at: nat, spare: Gen): Gen {
    spare.(origin := Some(Origin(q, StartOf(s, t), at)))
  }

  /** Rotate read its plaintext and is about to generate. */
  predicate Rotates(q: Query, m: bytes, ok: bool) {
    ok && q.purpose.ToRotate? && Opening(q, m).Some?
  }

  /** An answered read goes on by itself: it wraps, opens and returns, or Rotate begins to generate. */
  function Delivered(s: State, t: nat, q: Query, m: bytes, at: nat, ok: bool, spare: Gen): (res: (State, Output))
    ensures res.0.clock == s.clock && res.0.erasedAt == s.erasedAt
    ensures res.0.mislaid == s.mislaid && res.0.remote == s.remote
    ensures || res.1.Silence? || res.1.ErrorOut? || (q.purpose.ToWrap? && res.1 == EnvelopeOut(q, m, at))
            || (q.purpose.ToDecrypt? && Opening(q, m).Some? && res.1 == PlainOut(q, Opening(q, m).value, at))
  {
    if Rotates(q, m, ok) then (StartGenerating(s, t, Derived(s, t, q, at, spare)), Silence)
    else if ok && q.purpose.ToWrap? then (Return(s, t), EnvelopeOut(q, m, at))
    else if ok && q.purpose.ToDecrypt? && Opening(q, m).Some? then (Return(s, t), PlainOut(q, Opening(q, m).value, at))
    else (Return(s, t), ErrorOut)
  }

  /** The caller was told that d is deleted. */
  predicate Acknowledges(o: Output, d: Digest) {
    o == Gone(d) || (o.RotatedOut? && o.d == d && o.oldErased)
  }

  function Acknowledge(s: State, d: Digest): map<Digest, nat> {
    if d in s.erasedAt then s.erasedAt else s.erasedAt[d := s.clock]
  }

  /** Delete returns; inside Rotate the replacement is handed out whether or not deletion worked. */
  function FinishDelete(s: State, t: nat, d: Digest, replacement: Option<Gen>, ok: bool): (res: (State, Output))
    ensures res.0.clock == s.clock
    ensures res.1.Silence? || res.1.ErrorOut? || ((res.1.Gone? || res.1.RotatedOut?) && res.1.d == d)
    ensures res.0.erasedAt == (if Acknowledges(res.1, d) then Acknowledge(s, d) else s.erasedAt)
            && res.0.mislaid == s.mislaid
    ensures res.1.RotatedOut? ==> replacement == Some(res.1.g)
    ensures res.0.remote == s.remote && res.0.gens == s.gens
  {
    var done := Return(s, t).(erasedAt := if ok then Acknowledge(s, d) else s.erasedAt);
    match replacement
    case None => (done, if ok then Gone(d) else ErrorOut)
    case Some(g) => (done.(secret := s.secret - {g.digest}), RotatedOut(d, g, ok))
  }

  function SendDropRecord(s: State, t: nat, d: Digest, r: Option<Gen>, fault: Fault): (res: (State, Output))
    ensures res.0.clock == s.clock
    ensures res.1.Silence? || res.1.ErrorOut? || ((res.1.Gone? || res.1.RotatedOut?) && res.1.d == d)
    ensures res.0.erasedAt == (if Acknowledges(res.1, d) then Acknowledge(s, d) else s.erasedAt)
            && res.0.mislaid == s.mislaid
    ensures res.1.RotatedOut? ==> r == Some(res.1.g)
    ensures res.0.gens == s.gens
  {
    var dropped := s.(remote := DropRecord(s.remote, KvName(d)));
    match fault
    case Works => (Goto(dropped, t, Probing(d, r)), Silence)
    case Fails => FinishDelete(s, t, d, r, false)
    case Lost => FinishDelete(dropped, t, d, r, false)
  }

  function SendProbe(s: State, t: nat, d: Digest, r: Option<Gen>, fault: Fault): (res: (State, Output))
    ensures res.0.clock == s.clock
    ensures res.1.Silence? || res.1.ErrorOut? || ((res.1.Gone? || res.1.RotatedOut?) && res.1.d == d)
    ensures res.0.erasedAt == (if Acknowledges(res.1, d) then Acknowledge(s, d) else s.erasedAt)
            && res.0.mislaid == s.mislaid
    ensures res.1.RotatedOut? ==> r == Some(res.1.g)
    ensures res.0.gens == s.gens
  {
    if fault != Works then FinishDelete(s, t, d, r, false)
    else if TransitName(d) in s.remote.transit then (Goto(s, t, Allowing(d, r)), Silence)
    else FinishDelete(s, t, d, r, true)
  }

  function SendAllow(s: State, t: nat, d: Digest, r: Option<Gen>, fault: Fault): (res: (State, Output))
    ensures res.0.clock == s.clock
    ensures res.1.Silence? || res.1.ErrorOut? || ((res.1.Gone? || res.1.RotatedOut?) && res.1.d == d)
    ensures res.0.erasedAt == (if Acknowledges(res.1, d) then Acknowledge(s, d) else s.erasedAt)
            && res.0.mislaid == s.mislaid
    ensures res.1.RotatedOut? ==> r == Some(res.1.g)
    ensures res.0.gens == s.gens
  {
    if fault == Fails || TransitName(d) !in s.remote.transit then FinishDelete(s, t, d, r, false)
    else
      var allowed := s.(remote := AllowDeletion(s.remote, TransitName(d)));
      if fault == Works then (Goto(allowed, t, DroppingKey(d, r)), Silence) else FinishDelete(allowed, t, d, r, false)
  }

  function SendDropKey(s: State, t: nat, d: Digest, r: Option<Gen>, fault: Fault): (res: (State, Output))
    ensures res.0.clock == s.clock
    ensures res.1.Silence? || res.1.ErrorOut? || ((res.1.Gone? || res.1.RotatedOut?) && res.1.d == d)
    ensures res.0.erasedAt == (if Acknowledges(res.1, d) then Acknowledge(s, d) else s.erasedAt)
            && res.0.mislaid == s.mislaid
    ensures res.1.RotatedOut? ==> r == Some(res.1.g)
    ensures res.0.gens == s.gens
  {
    var name := TransitName(d);
    if fault == Fails then FinishDelete(s, t, d, r, false)
    else if name !in s.remote.transit then FinishDelete(s, t, d, r, fault == Works)
    else if !s.remote.transit[name].deletable then FinishDelete(s, t, d, r, false)
    else FinishDelete(s.(remote := DropKey(s.remote, name)), t, d, r, fault == Works)
  }

  /** Randomness is fresh: the digest was never made and never asked for. */
  predicate FreshGen(env: Env, s: State, g: Gen) {
    GoodMaterial(g.dek) && g.digest == NewDigest(env, g.dek, g.plaintext) && g.digest !in s.named
  }

  /** Callers can only name digests they were told, or guesses that are nobody's secret. */
  predicate Enabled(env: Env, s: State, a: Action) {
    match a
    case BeginGenerate(t, g) => t !in s.frames && FreshGen(env, s, g)
    case BeginQuery(t, q) => t !in s.frames && q.digest !in s.secret
    case BeginDelete(t, d) => t !in s.frames && d !in s.secret
    case Recreate(d) => d !in s.secret
    case Send(t, _) => t in s.frames && !s.frames[t].Holding?
    case Deliver(t, ok, spare) =>
      && t in s.frames && s.frames[t].Holding?
      && (var f := s.frames[t];
          Rotates(f.q, f.m, ok) ==> FreshGen(env, s, spare) && Opening(f.q, f.m) == Some(spare.plaintext))
  }

  /** The caller only reads; or it is deleting; otherwise it is generating, on a digest of its own. */
  predicate Reading(f: Frame) { f.Fetching? || f.Unwrapping? || f.Holding? }
  predicate Deleting(f: Frame) { f.DroppingRecord? || f.Probing? || f.Allowing? || f.DroppingKey? }

  function SendReading(s: State, t: nat, fault: Fault): (res: (State, Output))
    requires t in s.frames && Reading(s.frames[t])
    ensures res.0.clock == s.clock && res.0.erasedAt == s.erasedAt
    ensures res.0.mislaid == s.mislaid && res.0.remote == s.remote
    ensures res.1.Silence? || res.1.ErrorOut?
  {
    match s.frames[t]
    case Fetching(q) => SendFetch(s, t, q, fault)
    case Unwrapping(q, w) => SendUnwrap(s, t, q, w, fault)
    case Holding(_, _, _) => (s, Silence)
  }

  function SendDeleting(s: State, t: nat, fault: Fault): (res: (State, Output))
    requires t in s.frames && Deleting(s.frames[t])
    ensures res.0.clock == s.clock
    ensures res.1.Silence? || res.1.ErrorOut? || ((res.1.Gone? || res.1.RotatedOut?) && res.1.d == s.frames[t].d)
    ensures res.0.erasedAt == (if Acknowledges(res.1, s.frames[t].d) then Acknowledge(s, s.frames[t].d)
            else s.erasedAt) && res.0.mislaid == s.mislaid
    ensures res.1.RotatedOut? ==> s.frames[t].replacement == Some(res.1.g)
    ensures res.0.gens == s.gens
  {
    match s.frames[t]
    case DroppingRecord(d, r) => SendDropRecord(s, t, d, r, fault)
    case Probing(d, r) => SendProbe(s, t, d, r, fault)
    case Allowing(d, r) => SendAllow(s, t, d, r, fault)
    case DroppingKey(d, r) => SendDropKey(s, t, d, r, fault)
  }

  function SendGenerating(s: State, t: nat, fault: Fault): (res: (State, Output))
    requires t in s.frames && !Reading(s.frames[t]) && !Deleting(s.frames[t])
    ensures res.0.clock == s.clock
    ensures res.0.mislaid == if s.frames[t].Storing? && fault == Lost then s.mislaid + {s.frames[t].g.digest}
            else s.mislaid
    ensures res.0.erasedAt == s.erasedAt && (res.1.Silence? || res.1.ErrorOut? || res.1.NewCid?)
  {
    match s.frames[t]
    case Creating(g) => SendCreate(s, t, g, fault)
    case Encrypting(g) => SendEncrypt(s, t, g, fault)
    case Storing(g, w) => SendStore(s, t, g, w, fault)
    case RollProbing(_) => SendRoll(s, t, s.frames[t], fault)
    case RollAllowing(_) => SendRoll(s, t, s.frames[t], fault)
    case RollDropping(_) => SendRoll(s, t, s.frames[t], fault)
  }

  predicate Possible(s: State, a: Action) {
    (a.Send? ==> a.t in s.frames) && (a.Deliver? ==> a.t in s.frames && s.frames[a.t].Holding?)
  }

  function Act(s: State, a: Action): (res: (State, Output))
    requires Possible(s, a)
    ensures res.0.clock == s.clock
  {
    match a
    case BeginGenerate(t, g) => (StartGenerating(Begun(s, t), t, g.(origin := None)), Silence)
    case BeginQuery(t, q) => (Goto(Begun(s, t), t, Fetching(q)).(named := s.named + {q.digest}), Silence)
    case BeginDelete(t, d) =>
      (Goto(Begun(s, t), t, DroppingRecord(d, None)).(named := s.named + {d}, doomed := s.doomed + {d}), Silence)
    case Recreate(d) => (Recreated(s, d), Silence)
    case Deliver(t, ok, spare) =>
      Delivered(s, t, s.frames[t].q, s.frames[t].m, s.frames[t].at, ok, spare)
    case Send(t, fault) =>
      if Reading(s.frames[t]) then SendReading(s, t, fault)
      else if Deleting(s.frames[t]) then SendDeleting(s, t, fault)
      else SendGenerating(s, t, fault)
  }

  function Recreated(s: State, d: Digest): State {
    s.(remote := CreateKey(s.remote, TransitName(d)), named := s.named + {d})
  }

  function Begun(s: State, t: nat): State { s.(starts := s.starts[t := s.clock]) }
  function Tick(s: State): State { s.(clock := s.clock + 1) }

  function Next(s: State, a: Action): (State, Output)
    requires Possible(s, a)
  {
    (Tick(Act(s, a).0), Act(s, a).1)
  }

  // ---------- What always holds, even when responses are lost ----------

  predicate Mine(s: State, t: nat, g: Gen) {
    g.digest in s.gens && s.gens[g.digest] == g && g.digest in s.owner && s.owner[g.digest] == t && g.digest in s.secret
    && (g.origin.Some? ==> g.origin.value.start == StartOf(s, t) && Public(s, g.origin.value.query.digest))
  }

  predicate Public(s: State, d: Digest) {
    d in s.named && d !in s.secret
  }

  /** g is t's replacement for d. */
  predicate Replaces(s: State, t: nat, d: Digest, g: Gen) {
    Mine(s, t, g) && g.origin.Some? && g.origin.value.query.digest == d
  }

  /** t's call unwrapped d's key at that step, before any deletion of d was acknowledged. */
  predicate Holds(s: State, t: nat, at: nat, d: Digest) {
    StartOf(s, t) <= at <= s.clock && Public(s, d) && (d in s.erasedAt ==> at <= s.erasedAt[d])
  }

  predicate FrameBase(s: State, t: nat, f: Frame) {
    match f
    case Creating(g) => Mine(s, t, g) && KvName(g.digest) !in s.remote.kv && g.digest !in s.blobs
    case Encrypting(g) => Mine(s, t, g) && KvName(g.digest) !in s.remote.kv && g.digest !in s.blobs
    case Storing(g, w) =>
      Mine(s, t, g) && KvName(g.digest) !in s.remote.kv && g.digest in s.blobs && s.blobs[g.digest] == w
    case RollProbing(g) => Mine(s, t, g)
    case RollAllowing(g) => Mine(s, t, g)
    case RollDropping(g) => Mine(s, t, g)
    case Fetching(q) => Public(s, q.digest)
    case Unwrapping(q, w) => Public(s, q.digest) && q.digest in s.blobs && s.blobs[q.digest] == w
    case Holding(q, m, at) => Holds(s, t, at, q.digest) && q.digest in s.gens && m == Blob(s.gens[q.digest].dek)
    case DroppingRecord(d, r) => Public(s, d) && d in s.doomed && (r.Some? ==> Replaces(s, t, d, r.value))
    case Probing(d, r) => Public(s, d) && KvName(d) !in s.remote.kv && (r.Some? ==> Replaces(s, t, d, r.value))
    case Allowing(d, r) => Public(s, d) && KvName(d) !in s.remote.kv && (r.Some? ==> Replaces(s, t, d, r.value))
    case DroppingKey(d, r) => Public(s, d) && KvName(d) !in s.remote.kv && (r.Some? ==> Replaces(s, t, d, r.value))
  }

  predicate GenKnown(env: Env, s: State, d: Digest) {
    d in s.gens ==>
      && s.gens[d].digest == d && GoodMaterial(s.gens[d].dek) && d == NewDigest(env, s.gens[d].dek, s.gens[d].plaintext)
      && d in s.owner && d in s.named
  }

  /** A rotation unwrapped the old key after it started and before any deletion of it was acknowledged. */
  predicate OriginTrue(s: State, d: Digest) {
    d in s.gens && s.gens[d].origin.Some? ==>
      var o := s.gens[d].origin.value;
      && ReEncrypts(s.gens, o.query, s.gens[d]) && o.start <= o.at <= s.clock
      && (o.query.digest in s.erasedAt ==> o.at <= s.erasedAt[o.query.digest])
  }

  /** Each digest was wrapped at most once, and its record is that blob. */
  predicate BlobTrue(s: State, d: Digest) {
    && (d in s.blobs ==> d in s.gens && s.blobs[d].material == Blob(s.gens[d].dek) && s.blobs[d].kek < s.remote.nextKek)
    && (KvName(d) in s.remote.kv ==> d in s.blobs && s.remote.kv[KvName(d)] == s.blobs[d])
  }

  /** No record, and no key that could unwrap a saved copy of the blob. */
  predicate ErasedTrue(s: State, d: Digest) {
    d in s.erasedAt ==>
      && s.erasedAt[d] <= s.clock
      && Public(s, d) && KvName(d) !in s.remote.kv
      && (d in s.blobs ==> DecryptUnder(s.remote, TransitName(d), s.blobs[d]) == None)
  }

  /** Everything but the callers' own positions. */
  ghost predicate Globals(env: Env, s: State) {
    && (forall d :: GenKnown(env, s, d))
    && s.secret <= s.gens.Keys
    && (forall d :: BlobTrue(s, d))
    && (forall d :: ErasedTrue(s, d))
    && (forall n :: n in s.remote.transit ==> s.remote.transit[n].kek < s.remote.nextKek)
  }

  /** No call starts in the future, and every rotation has a true origin. */
  ghost predicate History(s: State) {
    (forall t :: t in s.starts ==> s.starts[t] <= s.clock) && forall d :: OriginTrue(s, d)
  }

  predicate SameHistory(s: State, s': State) {
    s'.gens == s.gens && s'.erasedAt == s.erasedAt && s'.starts == s.starts && s'.clock == s.clock
  }

  lemma HistoryKept(s: State, s': State)
    requires History(s) && SameHistory(s, s')
    ensures History(s')
  {
    forall d ensures OriginTrue(s', d) {
      assert OriginTrue(s, d);
    }
  }

  ghost predicate Base(env: Env, s: State) {
    Globals(env, s) && History(s) && forall t :: t in s.frames ==> FrameBase(s, t, s.frames[t])
  }

  /** What a step by t must not do to anyone else. */
  ghost predicate Respects(s: State, s': State, t: nat) {
    && (forall u :: u != t ==> (u in s'.frames <==> u in s.frames) && (u in s.frames ==> s'.frames[u] == s.frames[u]))
    && (forall d :: d in s.gens ==> d in s'.gens && s'.gens[d] == s.gens[d])
    && (forall d :: d in s.owner && d in s.gens ==> d in s'.owner && s'.owner[d] == s.owner[d])
    && (forall d :: d in s.blobs ==> d in s'.blobs && s'.blobs[d] == s.blobs[d])
    && (forall d :: d in s'.blobs && d !in s.blobs ==> d in s.owner && s.owner[d] == t && d in s.secret)
    && s.named <= s'.named && s.doomed <= s'.doomed
    && (s'.starts == s.starts || s'.starts == s.starts[t := s.clock])
    && s'.erasedAt == s.erasedAt && s'.clock == s.clock
    && (forall d :: d in s.secret && d !in s'.secret ==> d in s.owner && s.owner[d] == t)
    && (forall d :: d in s'.secret && d !in s.secret ==> d !in s.named)
    && (forall d :: KvName(d) in s'.remote.kv && KvName(d) !in s.remote.kv ==>
       d in s.owner && s.owner[d] == t && d in s.secret)
  }

  lemma MineKept(s: State, s': State, t: nat, u: nat, g: Gen)
    requires Mine(s, u, g) && Respects(s, s', t) && u != t
    ensures Mine(s', u, g)
    ensures g.digest in s.blobs <==> g.digest in s'.blobs
    ensures KvName(g.digest) !in s.remote.kv ==> KvName(g.digest) !in s'.remote.kv
  {
  }

  lemma DeletingFrameKept(s: State, s': State, t: nat, u: nat, f: Frame)
    requires FrameBase(s, u, f) && Respects(s, s', t) && u != t && Deleting(f)
    ensures FrameBase(s', u, f)
  {
    if f.replacement.Some? {
      MineKept(s, s', t, u, f.replacement.value);
    }
    assert KvName(f.d) !in s.remote.kv ==> KvName(f.d) !in s'.remote.kv;
  }

  lemma GeneratingFrameKept(s: State, s': State, t: nat, u: nat, f: Frame)
    requires FrameBase(s, u, f) && Respects(s, s', t) && u != t && !Deleting(f) && !Reading(f)
    ensures FrameBase(s', u, f)
  {
    MineKept(s, s', t, u, f.g);
  }

  lemma ReadingFrameKept(s: State, s': State, t: nat, u: nat, f: Frame)
    requires FrameBase(s, u, f) && Respects(s, s', t) && u != t && Reading(f)
    ensures FrameBase(s', u, f)
  {
  }

  lemma OtherFrameKept(env: Env, s: State, s': State, t: nat, u: nat)
    requires Base(env, s) && Respects(s, s', t) && u != t && u in s.frames
    ensures u in s'.frames && FrameBase(s', u, s'.frames[u])
  {
    var f := s.frames[u];
    assert FrameBase(s, u, f);
    if Deleting(f) {
      DeletingFrameKept(s, s', t, u, f);
    } else if Reading(f) {
      ReadingFrameKept(s, s', t, u, f);
    } else {
      GeneratingFrameKept(s, s', t, u, f);
    }
  }

  /** A step that respects the others only has to look after the shared facts and its own frame. */
  lemma BaseFrom(env: Env, s: State, s': State, t: nat)
    requires Base(env, s) && Respects(s, s', t) && Globals(env, s') && (SameHistory(s, s') || History(s'))
    requires t in s'.frames ==> FrameBase(s', t, s'.frames[t])
    ensures Base(env, s')
  {
    if SameHistory(s, s') {
      HistoryKept(s, s');
    }
    forall u | u in s'.frames
      ensures FrameBase(s', u, s'.frames[u])
    {
      if u != t {
        OtherFrameKept(env, s, s', t, u);
      }
    }
  }

  lemma StartKeepsGlobals(env: Env, s: State, t: nat, g: Gen)
    requires Globals(env, s) && FreshGen(env, s, g)
    ensures Globals(env, StartGenerating(s, t, g))
  {
    var s' := StartGenerating(s, t, g);
    assert GenKnown(env, s, g.digest) && BlobTrue(s, g.digest) && ErasedTrue(s, g.digest);
    forall d ensures GenKnown(env, s', d) && BlobTrue(s', d) && ErasedTrue(s', d) {
      assert GenKnown(env, s, d) && BlobTrue(s, d) && ErasedTrue(s, d);
    }
  }

  predicate OriginNow(s: State, t: nat, g: Gen) {
    g.origin.Some? ==>
      var o := g.origin.value;
      ReEncrypts(s.gens, o.query, g) && o.start == StartOf(s, t) && Holds(s, t, o.at, o.query.digest)
  }

  lemma StartKeepsHistory(env: Env, s: State, t: nat, g: Gen)
    requires Globals(env, s) && History(s) && FreshGen(env, s, g) && OriginNow(s, t, g)
    ensures History(StartGenerating(s, t, g))
  {
    var s' := StartGenerating(s, t, g);
    assert GenKnown(env, s, g.digest);
    forall d ensures OriginTrue(s', d) {
      assert OriginTrue(s, d);
    }
  }

  lemma StartKeepsBase(env: Env, s: State, t: nat, g: Gen)
    requires Base(env, s) && FreshGen(env, s, g) && OriginNow(s, t, g)
    ensures Base(env, StartGenerating(s, t, g))
  {
    StartKeepsGlobals(env, s, t, g);
    StartKeepsHistory(env, s, t, g);
    assert GenKnown(env, s, g.digest) && BlobTrue(s, g.digest);
    BaseFrom(env, s, StartGenerating(s, t, g), t);
  }

  /** Creating a key disturbs nobody: an existing key stays, and a new KEK opens no old blob. */
  lemma CreateKeepsGlobals(env: Env, s: State, e: Digest)
    requires Globals(env, s)
    ensures Globals(env, s.(remote := CreateKey(s.remote, TransitName(e))))
  {
    var s' := s.(remote := CreateKey(s.remote, TransitName(e)));
    forall d ensures GenKnown(env, s', d) && BlobTrue(s', d) && ErasedTrue(s', d) {
      assert GenKnown(env, s, d) && BlobTrue(s, d) && ErasedTrue(s, d);
    }
  }

  /** Removing a key, or making it deletable, opens no blob that was closed before. */
  lemma KeyChangeKeepsGlobals(env: Env, s: State, e: Digest, r: Remote)
    requires Globals(env, s) && TransitName(e) in s.remote.transit
    requires r == AllowDeletion(s.remote, TransitName(e)) || r == DropKey(s.remote, TransitName(e))
    ensures Globals(env, s.(remote := r))
  {
    var s' := s.(remote := r);
    forall d ensures GenKnown(env, s', d) && BlobTrue(s', d) && ErasedTrue(s', d) {
      assert GenKnown(env, s, d) && BlobTrue(s, d) && ErasedTrue(s, d);
    }
  }

  lemma DropRecordKeepsGlobals(env: Env, s: State, e: Digest)
    requires Globals(env, s)
    ensures Globals(env, s.(remote := DropRecord(s.remote, KvName(e))))
  {
    var s' := s.(remote := DropRecord(s.remote, KvName(e)));
    forall d ensures GenKnown(env, s', d) && BlobTrue(s', d) && ErasedTrue(s', d) {
      assert GenKnown(env, s, d) && BlobTrue(s, d) && ErasedTrue(s, d);
    }
  }

  /** A record is only ever written as the blob of a digest that is still secret. */
  lemma PutKeepsGlobals(env: Env, s: State, g: Gen, w: WrappedDek)
    requires Globals(env, s) && g.digest in s.blobs && s.blobs[g.digest] == w && g.digest in s.secret
    ensures Globals(env, s.(remote := PutRecord(s.remote, KvName(g.digest), w)))
  {
    var s' := s.(remote := PutRecord(s.remote, KvName(g.digest), w));
    forall d ensures GenKnown(env, s', d) && BlobTrue(s', d) && ErasedTrue(s', d) {
      assert GenKnown(env, s, d) && BlobTrue(s, d) && ErasedTrue(s, d);
    }
  }

  predicate OwnSecrets(s: State, t: nat, ds: set<Digest>) {
    forall d :: d in ds ==> d in s.secret && d in s.owner && s.owner[d] == t
  }

  /** m is s after t's request took effect: shared facts intact, records added only under t's own secrets. */
  ghost predicate Effect(env: Env, s: State, m: State, t: nat, added: set<Digest>) {
    && Base(env, s) && Globals(env, m) && m == s.(remote := m.remote)
    && OwnSecrets(s, t, added)
    && forall d :: KvName(d) in m.remote.kv ==> KvName(d) in s.remote.kv || d in added
  }

  /** The caller goes on to its next request. */
  lemma MoveKeepsBase(env: Env, s: State, m: State, t: nat, added: set<Digest>, f: Frame)
    requires Effect(env, s, m, t, added) && FrameBase(Goto(m, t, f), t, f)
    ensures Base(env, Goto(m, t, f))
  {
    var s' := Goto(m, t, f);
    forall d ensures GenKnown(env, s', d) && BlobTrue(s', d) && ErasedTrue(s', d) {
      assert GenKnown(env, m, d) && BlobTrue(m, d) && ErasedTrue(m, d);
    }
    BaseFrom(env, s, s', t);
  }

  /** The caller returns an error and discloses nothing. */
  lemma ReturnKeepsBase(env: Env, s: State, m: State, t: nat)
    requires Effect(env, s, m, t, {})
    ensures Base(env, Return(m, t))
  {
    var s' := Return(m, t);
    forall d ensures GenKnown(env, s', d) && BlobTrue(s', d) && ErasedTrue(s', d) {
      assert GenKnown(env, m, d) && BlobTrue(m, d) && ErasedTrue(m, d);
    }
    BaseFrom(env, s, s', t);
  }

  /** The caller returns a digest of its own making. */
  lemma TellKeepsBase(env: Env, s: State, m: State, t: nat, added: set<Digest>, e: Digest)
    requires Effect(env, s, m, t, added) && OwnSecrets(s, t, {e})
    ensures Base(env, Return(m, t).(secret := m.secret - {e}))
  {
    var s' := Return(m, t).(secret := m.secret - {e});
    assert GenKnown(env, m, e);
    forall d ensures GenKnown(env, s', d) && BlobTrue(s', d) && ErasedTrue(s', d) {
      assert GenKnown(env, m, d) && BlobTrue(m, d) && ErasedTrue(m, d);
    }
    BaseFrom(env, s, s', t);
  }

  lemma MarkedFrameKept(s: State, s': State, t: nat, f: Frame)
    requires FrameBase(s, t, f) && s.doomed <= s'.doomed
    requires s' == s.(doomed := s'.doomed, erasedAt := s'.erasedAt, mislaid := s'.mislaid)
    requires forall d :: d in s'.erasedAt ==>
               if d in s.erasedAt then s'.erasedAt[d] == s.erasedAt[d] else s'.erasedAt[d] == s.clock
    ensures FrameBase(s', t, f)
  {
  }

  /** A deletion may be acknowledged or marked as begun, and a record as mislaid, without touching the remote state. */
  lemma MarksKeepBase(
    env: Env, s: State, doomed: set<Digest>, erasedAt: map<Digest, nat>, mislaid: set<Digest>)
    requires Base(env, s) && s.doomed <= doomed
    requires forall d :: d in s.erasedAt ==> d in erasedAt && erasedAt[d] == s.erasedAt[d]
    requires forall d :: d in erasedAt && d !in s.erasedAt ==>
               && erasedAt[d] == s.clock && Public(s, d)
               && KvName(d) !in s.remote.kv && TransitName(d) !in s.remote.transit
    ensures Base(env, s.(doomed := doomed, erasedAt := erasedAt, mislaid := mislaid))
  {
    var s' := s.(doomed := doomed, erasedAt := erasedAt, mislaid := mislaid);
    forall d ensures GenKnown(env, s', d) && BlobTrue(s', d) && ErasedTrue(s', d) {
      assert GenKnown(env, s, d) && BlobTrue(s, d) && ErasedTrue(s, d);
    }
    forall d ensures OriginTrue(s', d) {
      assert OriginTrue(s, d);
    }
    forall u | u in s'.frames ensures FrameBase(s', u, s'.frames[u]) {
      assert FrameBase(s, u, s.frames[u]);
      MarkedFrameKept(s, s', u, s.frames[u]);
    }
  }

  lemma SendCreateKeepsBase(env: Env, s: State, t: nat, g: Gen, fault: Fault)
    requires Base(env, s) && t in s.frames && s.frames[t] == Creating(g)
    ensures Base(env, SendCreate(s, t, g, fault).0)
  {
    assert FrameBase(s, t, s.frames[t]);
    var m := s.(remote := CreateKey(s.remote, TransitName(g.digest)));
    CreateKeepsGlobals(env, s, g.digest);
    match fault
    case Works => MoveKeepsBase(env, s, m, t, {}, Encrypting(g));
    case Fails => ReturnKeepsBase(env, s, s, t);
    case Lost => ReturnKeepsBase(env, s, m, t);
  }

  /** Wrapping: the first and only blob of a digest, under a KEK that exists. */
  lemma WrapKeepsGlobals(env: Env, s: State, g: Gen, w: WrappedDek)
    requires Globals(env, s) && g.digest in s.gens && s.gens[g.digest] == g && g.digest !in s.blobs
    requires g.digest in s.secret && w.material == Blob(g.dek) && w.kek < s.remote.nextKek
    ensures Globals(env, s.(blobs := s.blobs[g.digest := w]))
  {
    var s' := s.(blobs := s.blobs[g.digest := w]);
    forall d ensures GenKnown(env, s', d) && BlobTrue(s', d) && ErasedTrue(s', d) {
      assert GenKnown(env, s, d) && BlobTrue(s, d) && ErasedTrue(s, d);
    }
  }

  lemma WrapKeepsBase(env: Env, s: State, t: nat, g: Gen, w: WrappedDek)
    requires Base(env, s) && t in s.frames && s.frames[t] == Encrypting(g)
    requires w.material == Blob(g.dek) && w.kek < s.remote.nextKek
    ensures Base(env, Goto(s.(blobs := s.blobs[g.digest := w]), t, Storing(g, w)))
  {
    assert FrameBase(s, t, s.frames[t]);
    WrapKeepsGlobals(env, s, g, w);
    var m := s.(blobs := s.blobs[g.digest := w]);
    GotoKeepsGlobals(env, m, t, Storing(g, w));
    WrapRespects(s, t, g, w);
    BaseFrom(env, s, Goto(m, t, Storing(g, w)), t);
  }

  lemma WrapRespects(s: State, t: nat, g: Gen, w: WrappedDek)
    requires t in s.frames && Mine(s, t, g) && g.digest !in s.blobs
    ensures Respects(s, Goto(s.(blobs := s.blobs[g.digest := w]), t, Storing(g, w)), t)
  {
  }

  lemma GotoKeepsGlobals(env: Env, s: State, t: nat, f: Frame)
    requires Globals(env, s)
    ensures Globals(env, Goto(s, t, f))
  {
    forall d ensures GenKnown(env, Goto(s, t, f), d) && BlobTrue(Goto(s, t, f), d) && ErasedTrue(Goto(s, t, f), d) {
      assert GenKnown(env, s, d) && BlobTrue(s, d) && ErasedTrue(s, d);
    }
  }

  lemma SendEncryptKeepsBase(env: Env, s: State, t: nat, g: Gen, fault: Fault)
    requires Base(env, s) && t in s.frames && s.frames[t] == Encrypting(g)
    ensures Base(env, SendEncrypt(s, t, g, fault).0)
  {
    var name := TransitName(g.digest);
    assert FrameBase(s, t, s.frames[t]);
    if fault == Works && name in s.remote.transit {
      WrapKeepsBase(env, s, t, g, WrappedDek(s.remote.transit[name].kek, Blob(g.dek)));
    } else {
      MoveKeepsBase(env, s, s, t, {}, RollProbing(g));
    }
  }

  /** Rotate has stored its replacement and turns to the old digest. */
  lemma TurnKeepsBase(env: Env, s: State, t: nat, g: Gen, w: WrappedDek, d: Digest)
    requires Base(env, s) && t in s.frames && s.frames[t] == Storing(g, w)
    requires g.origin.Some? && g.origin.value.query.digest == d
    ensures var m := s.(remote := PutRecord(s.remote, KvName(g.digest), w));
            Base(env, Goto(m, t, DroppingRecord(d, Some(g))).(doomed := s.doomed + {d}))
  {
    assert FrameBase(s, t, s.frames[t]);
    MarksKeepBase(env, s, s.doomed + {d}, s.erasedAt, s.mislaid);
    var s1 := s.(doomed := s.doomed + {d});
    PutKeepsGlobals(env, s1, g, w);
    var m1 := s1.(remote := PutRecord(s.remote, KvName(g.digest), w));
    MoveKeepsBase(env, s1, m1, t, {g.digest}, DroppingRecord(d, Some(g)));
  }

  lemma SendStoreKeepsBase(env: Env, s: State, t: nat, g: Gen, w: WrappedDek, fault: Fault)
    requires Base(env, s) && t in s.frames && s.frames[t] == Storing(g, w)
    ensures Base(env, SendStore(s, t, g, w, fault).0)
  {
    assert FrameBase(s, t, s.frames[t]);
    var m := s.(remote := PutRecord(s.remote, KvName(g.digest), w));
    PutKeepsGlobals(env, s, g, w);
    match fault
    case Fails => MoveKeepsBase(env, s, s, t, {}, RollProbing(g));
    case Lost =>
      MoveKeepsBase(env, s, m, t, {g.digest}, RollProbing(g));
      MarksKeepBase(env, Goto(m, t, RollProbing(g)), s.doomed, s.erasedAt, s.mislaid + {g.digest});
    case Works =>
      match g.origin
      case None => TellKeepsBase(env, s, m, t, {g.digest}, g.digest);
      case Some(o) => TurnKeepsBase(env, s, t, g, w, o.query.digest);
  }

  lemma SendRollKeepsBase(env: Env, s: State, t: nat, f: Frame, fault: Fault)
    requires Base(env, s) && t in s.frames && s.frames[t] == f && (f.RollProbing? || f.RollAllowing? || f.RollDropping?)
    ensures Base(env, SendRoll(s, t, f, fault).0)
  {
    assert FrameBase(s, t, s.frames[t]);
    var name := TransitName(f.g.digest);
    if fault == Fails || name !in s.remote.transit || (f.RollDropping? && !s.remote.transit[name].deletable) {
      ReturnKeepsBase(env, s, s, t);
    } else if f.RollProbing? {
      if fault == Works {
        MoveKeepsBase(env, s, s, t, {}, RollAllowing(f.g));
      } else {
        ReturnKeepsBase(env, s, s, t);
      }
    } else {
      var m := s.(remote := if f.RollAllowing? then AllowDeletion(s.remote, name) else DropKey(s.remote, name));
      KeyChangeKeepsGlobals(env, s, f.g.digest, m.remote);
      if f.RollAllowing? && fault == Works {
        MoveKeepsBase(env, s, m, t, {}, RollDropping(f.g));
      } else {
        ReturnKeepsBase(env, s, m, t);
      }
    }
  }

  lemma SendFetchKeepsBase(env: Env, s: State, t: nat, q: Query, fault: Fault)
    requires Base(env, s) && t in s.frames && s.frames[t] == Fetching(q)
    ensures Base(env, SendFetch(s, t, q, fault).0)
  {
    assert FrameBase(s, t, s.frames[t]) && BlobTrue(s, q.digest);
    if fault == Works && KvName(q.digest) in s.remote.kv {
      MoveKeepsBase(env, s, s, t, {}, Unwrapping(q, s.remote.kv[KvName(q.digest)]));
    } else {
      ReturnKeepsBase(env, s, s, t);
    }
  }

  /** An unwrap that works is one of a digest not erased, and yields that digest's own material. */
  lemma UnwrapHolds(env: Env, s: State, t: nat, q: Query, w: WrappedDek, m: bytes)
    requires Base(env, s) && t in s.frames && s.frames[t] == Unwrapping(q, w)
    requires DecryptUnder(s.remote, TransitName(q.digest), w) == Some(m)
    ensures FrameBase(s, t, Holding(q, m, s.clock))
  {
    assert FrameBase(s, t, s.frames[t]);
    assert BlobTrue(s, q.digest) && ErasedTrue(s, q.digest);
  }

  lemma SendUnwrapKeepsBase(env: Env, s: State, t: nat, q: Query, w: WrappedDek, fault: Fault)
    requires Base(env, s) && t in s.frames && s.frames[t] == Unwrapping(q, w)
    ensures Base(env, SendUnwrap(s, t, q, w, fault).0)
  {
    var m := DecryptUnder(s.remote, TransitName(q.digest), w);
    if fault == Works && m.Some? {
      UnwrapHolds(env, s, t, q, w, m.value);
      MoveKeepsBase(env, s, s, t, {}, Holding(q, m.value, s.clock));
    } else {
      ReturnKeepsBase(env, s, s, t);
    }
  }

  /** What Rotate holds is what it re-encrypts. */
  lemma DerivedReEncrypts(env: Env, s: State, t: nat, q: Query, m: bytes, at: nat, spare: Gen)
    requires Base(env, s) && t in s.frames && s.frames[t] == Holding(q, m, at)
    requires Rotates(q, m, true) && Opening(q, m) == Some(spare.plaintext)
    ensures OriginNow(s, t, Derived(s, t, q, at, spare))
  {
    assert FrameBase(s, t, s.frames[t]) && GenKnown(env, s, q.digest);
  }

  lemma DeliverCases(s: State, t: nat, q: Query, m: bytes, at: nat, ok: bool, spare: Gen)
    ensures Delivered(s, t, q, m, at, ok, spare).0 ==
              if Rotates(q, m, ok) then StartGenerating(s, t, Derived(s, t, q, at, spare)) else Return(s, t)
  {
  }

  lemma DeliverKeepsBase(env: Env, s: State, t: nat, q: Query, m: bytes, at: nat, ok: bool, spare: Gen)
    requires Base(env, s) && t in s.frames && s.frames[t] == Holding(q, m, at)
    requires Rotates(q, m, ok) ==> FreshGen(env, s, spare) && Opening(q, m) == Some(spare.plaintext)
    ensures Base(env, Delivered(s, t, q, m, at, ok, spare).0)
  {
    DeliverCases(s, t, q, m, at, ok, spare);
    if Rotates(q, m, ok) {
      DerivedReEncrypts(env, s, t, q, m, at, spare);
      StartKeepsBase(env, s, t, Derived(s, t, q, at, spare));
    } else {
      ReturnKeepsBase(env, s, s, t);
    }
  }

  /** Acknowledging a deletion is sound when neither record nor key is left. */
  lemma FinishKeepsBase(env: Env, s: State, m: State, t: nat, d: Digest, r: Option<Gen>, ok: bool)
    requires Effect(env, s, m, t, {}) && Public(s, d) && (r.Some? ==> Replaces(s, t, d, r.value))
    requires ok ==> KvName(d) !in m.remote.kv && TransitName(d) !in m.remote.transit
    ensures Base(env, FinishDelete(m, t, d, r, ok).0)
  {
    var s' := FinishDelete(m, t, d, r, ok).0;
    match r {
      case None => ReturnKeepsBase(env, s, m, t);
      case Some(g) => TellKeepsBase(env, s, m, t, {}, g.digest);
    }
    MarksKeepBase(env, s'.(erasedAt := m.erasedAt), m.doomed, s'.erasedAt, m.mislaid);
  }

  lemma SendDropRecordKeepsBase(env: Env, s: State, t: nat, d: Digest, r: Option<Gen>, fault: Fault)
    requires Base(env, s) && t in s.frames && s.frames[t] == DroppingRecord(d, r)
    ensures Base(env, SendDropRecord(s, t, d, r, fault).0)
  {
    assert FrameBase(s, t, s.frames[t]);
    var m := s.(remote := DropRecord(s.remote, KvName(d)));
    DropRecordKeepsGlobals(env, s, d);
    match fault
    case Works => MoveKeepsBase(env, s, m, t, {}, Probing(d, r));
    case Fails => FinishKeepsBase(env, s, s, t, d, r, false);
    case Lost => FinishKeepsBase(env, s, m, t, d, r, false);
  }

  lemma SendProbeKeepsBase(env: Env, s: State, t: nat, d: Digest, r: Option<Gen>, fault: Fault)
    requires Base(env, s) && t in s.frames && s.frames[t] == Probing(d, r)
    ensures Base(env, SendProbe(s, t, d, r, fault).0)
  {
    assert FrameBase(s, t, s.frames[t]);
    if fault == Works && TransitName(d) in s.remote.transit {
      MoveKeepsBase(env, s, s, t, {}, Allowing(d, r));
    } else {
      FinishKeepsBase(env, s, s, t, d, r, fault == Works);
    }
  }

  lemma SendAllowKeepsBase(env: Env, s: State, t: nat, d: Digest, r: Option<Gen>, fault: Fault)
    requires Base(env, s) && t in s.frames && s.frames[t] == Allowing(d, r)
    ensures Base(env, SendAllow(s, t, d, r, fault).0)
  {
    assert FrameBase(s, t, s.frames[t]);
    if fault == Fails || TransitName(d) !in s.remote.transit {
      FinishKeepsBase(env, s, s, t, d, r, false);
    } else {
      var m := s.(remote := AllowDeletion(s.remote, TransitName(d)));
      KeyChangeKeepsGlobals(env, s, d, m.remote);
      if fault == Works {
        MoveKeepsBase(env, s, m, t, {}, DroppingKey(d, r));
      } else {
        FinishKeepsBase(env, s, m, t, d, r, false);
      }
    }
  }

  lemma SendDropKeyKeepsBase(env: Env, s: State, t: nat, d: Digest, r: Option<Gen>, fault: Fault)
    requires Base(env, s) && t in s.frames && s.frames[t] == DroppingKey(d, r)
    ensures Base(env, SendDropKey(s, t, d, r, fault).0)
  {
    assert FrameBase(s, t, s.frames[t]);
    var name := TransitName(d);
    if fault != Fails && name in s.remote.transit && s.remote.transit[name].deletable {
      var m := s.(remote := DropKey(s.remote, name));
      KeyChangeKeepsGlobals(env, s, d, m.remote);
      FinishKeepsBase(env, s, m, t, d, r, fault == Works);
    } else {
      FinishKeepsBase(env, s, s, t, d, r, fault == Works && name !in s.remote.transit);
    }
  }

  lemma BegunKeepsBase(env: Env, s: State, t: nat)
    requires Base(env, s) && t !in s.frames
    ensures Base(env, Begun(s, t))
  {
    var s' := Begun(s, t);
    forall d ensures GenKnown(env, s', d) && BlobTrue(s', d) && ErasedTrue(s', d) {
      assert GenKnown(env, s, d) && BlobTrue(s, d) && ErasedTrue(s, d);
    }
    forall d ensures OriginTrue(s', d) {
      assert OriginTrue(s, d);
    }
    BaseFrom(env, s, s', t);
  }

  lemma TickKeepsBase(env: Env, s: State)
    requires Base(env, s)
    ensures Base(env, Tick(s))
  {
    var s' := Tick(s);
    forall d ensures GenKnown(env, s', d) && BlobTrue(s', d) && ErasedTrue(s', d) {
      assert GenKnown(env, s, d) && BlobTrue(s, d) && ErasedTrue(s, d);
    }
    forall d ensures OriginTrue(s', d) {
      assert OriginTrue(s, d);
    }
    forall u | u in s'.frames ensures FrameBase(s', u, s'.frames[u]) {
      assert FrameBase(s, u, s.frames[u]);
    }
  }

  /** A digest is asked for: it becomes known to exist, and a caller turns to it. */
  lemma NamedKeepsBase(env: Env, s: State, t: nat, f: Frame, d: Digest, doomed: set<Digest>)
    requires Base(env, s) && t !in s.frames && d !in s.secret && s.doomed <= doomed
    requires (f.Fetching? && f.q.digest == d) || (f == DroppingRecord(d, None) && d in doomed)
    ensures Base(env, Goto(s, t, f).(named := s.named + {d}, doomed := doomed))
  {
    var s' := Goto(s, t, f).(named := s.named + {d}, doomed := doomed);
    forall e ensures GenKnown(env, s', e) && BlobTrue(s', e) && ErasedTrue(s', e) {
      assert GenKnown(env, s, e) && BlobTrue(s, e) && ErasedTrue(s, e);
    }
    BaseFrom(env, s, s', t);
  }

  lemma RecreateKeepsBase(env: Env, s: State, d: Digest)
    requires Base(env, s) && d !in s.secret
    ensures Base(env, Recreated(s, d))
  {
    var m, s' := s.(remote := CreateKey(s.remote, TransitName(d))), Recreated(s, d);
    CreateKeepsGlobals(env, s, d);
    forall e ensures GenKnown(env, s', e) && BlobTrue(s', e) && ErasedTrue(s', e) {
      assert GenKnown(env, m, e) && BlobTrue(m, e) && ErasedTrue(m, e);
    }
    HistoryKept(s, s');
    forall u | u in s'.frames ensures FrameBase(s', u, s'.frames[u]) {
      OtherFrameKept(env, s, s', u + 1, u);
    }
  }

  /** Starting a call, or a key created by someone else. */
  lemma BeginKeepsBase(env: Env, s: State, a: Action)
    requires Base(env, s) && Enabled(env, s, a) && !a.Send? && !a.Deliver?
    ensures Base(env, Act(s, a).0)
  {
    if !a.Recreate? {
      BegunKeepsBase(env, s, a.t);
    }
    match a
    case BeginGenerate(t, g) => StartKeepsBase(env, Begun(s, t), t, g.(origin := None));
    case BeginQuery(t, q) => NamedKeepsBase(env, Begun(s, t), t, Fetching(q), q.digest, s.doomed);
    case BeginDelete(t, d) => NamedKeepsBase(env, Begun(s, t), t, DroppingRecord(d, None), d, s.doomed + {d});
    case Recreate(d) => RecreateKeepsBase(env, s, d);
  }

  lemma GeneratingKeepsBase(env: Env, s: State, t: nat, fault: Fault)
    requires Base(env, s) && t in s.frames && !Reading(s.frames[t]) && !Deleting(s.frames[t])
    ensures Base(env, SendGenerating(s, t, fault).0)
  {
    match s.frames[t]
    case Creating(g) => SendCreateKeepsBase(env, s, t, g, fault);
    case Encrypting(g) => SendEncryptKeepsBase(env, s, t, g, fault);
    case Storing(g, w) => SendStoreKeepsBase(env, s, t, g, w, fault);
    case RollProbing(_) => SendRollKeepsBase(env, s, t, s.frames[t], fault);
    case RollAllowing(_) => SendRollKeepsBase(env, s, t, s.frames[t], fault);
    case RollDropping(_) => SendRollKeepsBase(env, s, t, s.frames[t], fault);
  }

  lemma DeletingKeepsBase(env: Env, s: State, t: nat, fault: Fault)
    requires Base(env, s) && t in s.frames && Deleting(s.frames[t])
    ensures Base(env, SendDeleting(s, t, fault).0)
  {
    match s.frames[t]
    case DroppingRecord(d, r) => SendDropRecordKeepsBase(env, s, t, d, r, fault);
    case Probing(d, r) => SendProbeKeepsBase(env, s, t, d, r, fault);
    case Allowing(d, r) => SendAllowKeepsBase(env, s, t, d, r, fault);
    case DroppingKey(d, r) => SendDropKeyKeepsBase(env, s, t, d, r, fault);
  }

  /** Every step keeps these facts, whatever is lost. */
  lemma StepKeepsBase(env: Env, s: State, a: Action)
    requires Base(env, s) && Enabled(env, s, a)
    ensures Base(env, Next(s, a).0)
  {
    if a.Deliver? {
      var f := s.frames[a.t];
      DeliverKeepsBase(env, s, a.t, f.q, f.m, f.at, a.ok, a.spare);
    } else if !a.Send? {
      BeginKeepsBase(env, s, a);
    } else if Deleting(s.frames[a.t]) {
      DeletingKeepsBase(env, s, a.t, a.fault);
    } else if Reading(s.frames[a.t]) {
      match s.frames[a.t]
      case Fetching(q) => SendFetchKeepsBase(env, s, a.t, q, a.fault);
      case Unwrapping(q, w) => SendUnwrapKeepsBase(env, s, a.t, q, w, a.fault);
    } else {
      GeneratingKeepsBase(env, s, a.t, a.fault);
    }
    TickKeepsBase(env, Act(s, a).0);
  }

  // ---------- The two stores agree, up to mislaid records ----------

  /** A record that was not mislaid has its Transit key, holding the very KEK that wrapped it. */
  predicate Matched(s: State, d: Digest) {
    KvName(d) in s.remote.kv && d !in s.mislaid ==>
      TransitName(d) in s.remote.transit && s.remote.transit[TransitName(d)].kek == s.remote.kv[KvName(d)].kek
  }

  /** No caller is ever told the digest of a mislaid record. */
  predicate NeverTold(s: State, d: Digest) {
    d in s.mislaid ==> d in s.secret && d in s.blobs
  }

  /** A digest some caller was told, and nobody began to delete, still has its record. */
  predicate Available(s: State, d: Digest) {
    d in s.gens && d !in s.secret && d !in s.doomed ==> KvName(d) in s.remote.kv
  }

  predicate Kept(s: State, d: Digest) {
    KvName(d) in s.remote.kv && d !in s.mislaid
  }

  predicate FrameStrong(s: State, f: Frame) {
    match f
    case Storing(g, w) =>
      g.digest !in s.mislaid && TransitName(g.digest) in s.remote.transit
        && s.remote.transit[TransitName(g.digest)].kek == w.kek
    case RollProbing(g) => KvName(g.digest) !in s.remote.kv || g.digest in s.mislaid
    case RollAllowing(g) => KvName(g.digest) !in s.remote.kv || g.digest in s.mislaid
    case RollDropping(g) => KvName(g.digest) !in s.remote.kv || g.digest in s.mislaid
    case DroppingRecord(_, r) => r.Some? ==> Kept(s, r.value.digest)
    case Probing(_, r) => r.Some? ==> Kept(s, r.value.digest)
    case Allowing(_, r) => r.Some? ==> Kept(s, r.value.digest)
    case DroppingKey(_, r) => r.Some? ==> Kept(s, r.value.digest)
    case _ => true
  }

  ghost predicate Strong(env: Env, s: State) {
    && Base(env, s)
    && (forall d :: Matched(s, d) && Available(s, d) && NeverTold(s, d))
    && (forall t :: t in s.frames ==> FrameStrong(s, s.frames[t]))
  }

  /** A step by t leaves other callers' frames, and what is stored for their secrets, alone. */
  ghost predicate LeavesAlone(s: State, s': State, t: nat) {
    && (forall u :: u != t && u in s'.frames ==> u in s.frames && s'.frames[u] == s.frames[u])
    && (forall d :: d in s.secret && d in s.owner && s.owner[d] != t ==>
          && (KvName(d) in s'.remote.kv <==> KvName(d) in s.remote.kv)
          && (d in s'.mislaid <==> d in s.mislaid)
          && (TransitName(d) in s.remote.transit ==>
                TransitName(d) in s'.remote.transit
                  && s'.remote.transit[TransitName(d)].kek == s.remote.transit[TransitName(d)].kek))
  }

  lemma StrongFrom(env: Env, s: State, s': State, t: nat)
    requires Strong(env, s) && Base(env, s') && LeavesAlone(s, s', t)
    requires forall d :: Matched(s', d) && Available(s', d) && NeverTold(s', d)
    requires t in s'.frames ==> FrameStrong(s', s'.frames[t])
    ensures Strong(env, s')
  {
    forall u | u in s'.frames ensures FrameStrong(s', s'.frames[u]) {
      if u != t {
        assert FrameBase(s, u, s.frames[u]) && FrameStrong(s, s.frames[u]);
      }
    }
  }

  /** Steps that change no record and remove no key. */
  lemma QuietKeepsStrong(env: Env, s: State, s': State, t: nat)
    requires Strong(env, s) && Base(env, s') && s'.remote.kv == s.remote.kv && s'.mislaid == s.mislaid
    requires forall d :: d in s.blobs ==> d in s'.blobs
    requires forall u :: u != t && u in s'.frames ==> u in s.frames && s'.frames[u] == s.frames[u]
    requires forall n :: n in s.remote.transit ==>
               n in s'.remote.transit && s'.remote.transit[n].kek == s.remote.transit[n].kek
    requires forall d :: d in s'.gens && d !in s'.secret ==> (d in s.gens && d !in s.secret) || Kept(s, d)
    requires s.doomed <= s'.doomed
    requires t in s'.frames ==> FrameStrong(s', s'.frames[t])
    ensures Strong(env, s')
  {
    forall d ensures Matched(s', d) && Available(s', d) && NeverTold(s', d) {
      assert Matched(s, d) && Available(s, d) && NeverTold(s, d) && BlobTrue(s', d);
    }
    StrongFrom(env, s, s', t);
  }

  /** m is s with nothing removed: same records, and every key that was there holds its KEK. */
  ghost predicate Quiet(s: State, m: State) {
    && m == s.(remote := m.remote) && m.remote.kv == s.remote.kv
    && forall n :: n in s.remote.transit ==> n in m.remote.transit && m.remote.transit[n].kek == s.remote.transit[n].kek
  }

  lemma QuietMove(env: Env, s: State, m: State, t: nat, f: Frame)
    requires Strong(env, s) && Quiet(s, m) && Base(env, Goto(m, t, f)) && FrameStrong(m, f)
    ensures Strong(env, Goto(m, t, f))
  {
    QuietKeepsStrong(env, s, Goto(m, t, f), t);
  }

  lemma QuietReturn(env: Env, s: State, m: State, t: nat)
    requires Strong(env, s) && Quiet(s, m) && Base(env, Return(m, t))
    ensures Strong(env, Return(m, t))
  {
    QuietKeepsStrong(env, s, Return(m, t), t);
  }

  lemma QuietFinish(env: Env, s: State, m: State, t: nat, d: Digest, r: Option<Gen>, ok: bool)
    requires Strong(env, s) && Quiet(s, m) && Base(env, FinishDelete(m, t, d, r, ok).0)
    requires r.Some? ==> Kept(s, r.value.digest)
    ensures Strong(env, FinishDelete(m, t, d, r, ok).0)
  {
    match r
    case None => QuietKeepsStrong(env, s, FinishDelete(m, t, d, r, ok).0, t);
    case Some(g) => QuietKeepsStrong(env, s, FinishDelete(m, t, d, r, ok).0, t);
  }

  lemma StartKeepsStrong(env: Env, s: State, t: nat, g: Gen)
    requires Strong(env, s) && FreshGen(env, s, g) && Base(env, StartGenerating(s, t, g))
    ensures Strong(env, StartGenerating(s, t, g))
  {
    QuietKeepsStrong(env, s, StartGenerating(s, t, g), t);
  }

  lemma BegunKeepsStrong(env: Env, s: State, t: nat)
    requires Strong(env, s) && t !in s.frames
    ensures Strong(env, Begun(s, t))
  {
    BegunKeepsBase(env, s, t);
    QuietKeepsStrong(env, s, Begun(s, t), t);
  }

  lemma NamedKeepsStrong(env: Env, s: State, t: nat, f: Frame, d: Digest, doomed: set<Digest>)
    requires Strong(env, s) && s.doomed <= doomed && (f.Fetching? || f == DroppingRecord(d, None))
    requires Base(env, Goto(s, t, f).(named := s.named + {d}, doomed := doomed))
    ensures Strong(env, Goto(s, t, f).(named := s.named + {d}, doomed := doomed))
  {
    QuietKeepsStrong(env, s, Goto(s, t, f).(named := s.named + {d}, doomed := doomed), t);
  }

  lemma RecreateKeepsStrong(env: Env, s: State, d: Digest)
    requires Strong(env, s) && Base(env, Recreated(s, d))
    ensures Strong(env, Recreated(s, d))
  {
    QuietKeepsStrong(env, s, Recreated(s, d), 0);
  }

  lemma BeginKeepsStrong(env: Env, s: State, a: Action)
    requires Strong(env, s) && Enabled(env, s, a) && !a.Send? && !a.Deliver?
    ensures Strong(env, Act(s, a).0)
  {
    BeginKeepsBase(env, s, a);
    if a.Recreate? {
      RecreateKeepsStrong(env, s, a.d);
      return;
    }
    BegunKeepsStrong(env, s, a.t);
    match a
    case BeginGenerate(t, g) => StartKeepsStrong(env, Begun(s, t), t, g.(origin := None));
    case BeginQuery(t, q) => NamedKeepsStrong(env, Begun(s, t), t, Fetching(q), q.digest, s.doomed);
    case BeginDelete(t, d) => NamedKeepsStrong(env, Begun(s, t), t, DroppingRecord(d, None), d, s.doomed + {d});
  }

  lemma TickKeepsStrong(env: Env, s: State)
    requires Strong(env, s)
    ensures Strong(env, Tick(s))
  {
    var s' := Tick(s);
    TickKeepsBase(env, s);
    forall d ensures Matched(s', d) && Available(s', d) && NeverTold(s', d) {
      assert Matched(s, d) && Available(s, d) && NeverTold(s, d);
    }
    forall u | u in s'.frames ensures FrameStrong(s', s'.frames[u]) {
      assert FrameStrong(s, s.frames[u]);
    }
  }

  lemma CreateKeepsStrong(env: Env, s: State, t: nat, g: Gen, fault: Fault)
    requires Strong(env, s) && t in s.frames && s.frames[t] == Creating(g)
    ensures Strong(env, SendCreate(s, t, g, fault).0)
  {
    SendCreateKeepsBase(env, s, t, g, fault);
    QuietKeepsStrong(env, s, SendCreate(s, t, g, fault).0, t);
  }

  lemma EncryptKeepsStrong(env: Env, s: State, t: nat, g: Gen, fault: Fault)
    requires Strong(env, s) && t in s.frames && s.frames[t] == Encrypting(g)
    ensures Strong(env, SendEncrypt(s, t, g, fault).0)
  {
    SendEncryptKeepsBase(env, s, t, g, fault);
    assert FrameBase(s, t, s.frames[t]) && NeverTold(s, g.digest);
    if fault == Works && TransitName(g.digest) in s.remote.transit {
      QuietKeepsStrong(env, s, SendEncrypt(s, t, g, fault).0, t);
    } else {
      QuietMove(env, s, s, t, RollProbing(g));
    }
  }

  lemma FetchKeepsStrong(env: Env, s: State, t: nat, q: Query, fault: Fault)
    requires Strong(env, s) && t in s.frames && s.frames[t] == Fetching(q)
    ensures Strong(env, SendFetch(s, t, q, fault).0)
  {
    SendFetchKeepsBase(env, s, t, q, fault);
    if fault == Works && KvName(q.digest) in s.remote.kv {
      QuietMove(env, s, s, t, Unwrapping(q, s.remote.kv[KvName(q.digest)]));
    } else {
      QuietReturn(env, s, s, t);
    }
  }

  lemma UnwrapKeepsStrong(env: Env, s: State, t: nat, q: Query, w: WrappedDek, fault: Fault)
    requires Strong(env, s) && t in s.frames && s.frames[t] == Unwrapping(q, w)
    ensures Strong(env, SendUnwrap(s, t, q, w, fault).0)
  {
    SendUnwrapKeepsBase(env, s, t, q, w, fault);
    var m := DecryptUnder(s.remote, TransitName(q.digest), w);
    if fault == Works && m.Some? {
      QuietMove(env, s, s, t, Holding(q, m.value, s.clock));
    } else {
      QuietReturn(env, s, s, t);
    }
  }

  lemma DeliverKeepsStrong(env: Env, s: State, t: nat, q: Query, m: bytes, at: nat, ok: bool, spare: Gen)
    requires Strong(env, s) && t in s.frames && s.frames[t] == Holding(q, m, at)
    requires Rotates(q, m, ok) ==> FreshGen(env, s, spare) && Opening(q, m) == Some(spare.plaintext)
    ensures Strong(env, Delivered(s, t, q, m, at, ok, spare).0)
  {
    DeliverKeepsBase(env, s, t, q, m, at, ok, spare);
    DeliverCases(s, t, q, m, at, ok, spare);
    if Rotates(q, m, ok) {
      StartKeepsStrong(env, s, t, Derived(s, t, q, at, spare));
    } else {
      QuietReturn(env, s, s, t);
    }
  }

  lemma StoreKeepsStrong(env: Env, s: State, t: nat, g: Gen, w: WrappedDek, fault: Fault)
    requires Strong(env, s) && t in s.frames && s.frames[t] == Storing(g, w)
    ensures Strong(env, SendStore(s, t, g, w, fault).0)
  {
    SendStoreKeepsBase(env, s, t, g, w, fault);
    assert FrameBase(s, t, s.frames[t]) && FrameStrong(s, s.frames[t]);
    var stored := s.(remote := PutRecord(s.remote, KvName(g.digest), w));
    match fault
    case Fails => QuietMove(env, s, s, t, RollProbing(g));
    case Lost =>
      StoredKeepsStrong(env, s, t, g, w, Goto(stored, t, RollProbing(g)).(mislaid := s.mislaid + {g.digest}));
    case Works =>
      match g.origin
      case None => StoredKeepsStrong(env, s, t, g, w, Return(stored, t).(secret := s.secret - {g.digest}));
      case Some(o) =>
        var d := o.query.digest;
        StoredKeepsStrong(env, s, t, g, w, Goto(stored, t, DroppingRecord(d, Some(g))).(doomed := s.doomed + {d}));
  }

  /** The record is in: its writer goes on, returns the digest, or has mislaid it. */
  lemma StoredKeepsStrong(env: Env, s: State, t: nat, g: Gen, w: WrappedDek, s': State)
    requires Strong(env, s) && t in s.frames && s.frames[t] == Storing(g, w) && Base(env, s')
    requires s'.remote == PutRecord(s.remote, KvName(g.digest), w) && s'.gens == s.gens && s'.blobs == s.blobs
    requires s.doomed <= s'.doomed && s'.secret <= s.secret && s.secret <= s'.secret + {g.digest}
    requires s'.mislaid == s.mislaid || (s'.mislaid == s.mislaid + {g.digest} && g.digest in s'.secret)
    requires forall u :: u != t && u in s'.frames ==> u in s.frames && s'.frames[u] == s.frames[u]
    requires t in s'.frames ==> FrameStrong(s', s'.frames[t])
    ensures Strong(env, s')
  {
    assert FrameBase(s, t, s.frames[t]) && FrameStrong(s, s.frames[t]) && BlobTrue(s, g.digest);
    forall d ensures Matched(s', d) && Available(s', d) && NeverTold(s', d) {
      assert Matched(s, d) && Available(s, d) && NeverTold(s, d);
    }
    StrongFrom(env, s, s', t);
  }

  /** Deleting a key whose digest has no record, by the only caller entitled to it. */
  lemma KeyGoneReturn(env: Env, s: State, t: nat, e: Digest)
    requires Strong(env, s) && (KvName(e) !in s.remote.kv || e in s.mislaid)
             && (e in s.secret ==> e in s.owner && s.owner[e] == t)
    requires Base(env, Return(s.(remote := DropKey(s.remote, TransitName(e))), t))
    ensures Strong(env, Return(s.(remote := DropKey(s.remote, TransitName(e))), t))
  {
    var s' := Return(s.(remote := DropKey(s.remote, TransitName(e))), t);
    forall d ensures Matched(s', d) && Available(s', d) && NeverTold(s', d) {
      assert Matched(s, d) && Available(s, d) && NeverTold(s, d);
    }
    StrongFrom(env, s, s', t);
  }

  lemma RollKeepsStrong(env: Env, s: State, t: nat, f: Frame, fault: Fault)
    requires Strong(env, s) && t in s.frames && s.frames[t] == f
             && (f.RollProbing? || f.RollAllowing? || f.RollDropping?)
    ensures Strong(env, SendRoll(s, t, f, fault).0)
  {
    SendRollKeepsBase(env, s, t, f, fault);
    assert FrameBase(s, t, f) && FrameStrong(s, f);
    var name := TransitName(f.g.digest);
    if fault == Fails || name !in s.remote.transit || (f.RollDropping? && !s.remote.transit[name].deletable) {
      QuietReturn(env, s, s, t);
    } else if f.RollDropping? {
      KeyGoneReturn(env, s, t, f.g.digest);
    } else {
      var m := if f.RollProbing? then s else s.(remote := AllowDeletion(s.remote, name));
      if fault == Works {
        QuietMove(env, s, m, t, if f.RollProbing? then RollAllowing(f.g) else RollDropping(f.g));
      } else {
        QuietReturn(env, s, m, t);
      }
    }
  }

  lemma DropRecordKeepsStrong(env: Env, s: State, t: nat, d: Digest, r: Option<Gen>, fault: Fault)
    requires Strong(env, s) && t in s.frames && s.frames[t] == DroppingRecord(d, r)
    ensures Strong(env, SendDropRecord(s, t, d, r, fault).0)
  {
    SendDropRecordKeepsBase(env, s, t, d, r, fault);
    assert FrameBase(s, t, s.frames[t]) && FrameStrong(s, s.frames[t]);
    var m := s.(remote := DropRecord(s.remote, KvName(d)));
    match fault
    case Fails => QuietFinish(env, s, s, t, d, r, false);
    case Works => RecordGoneKeepsStrong(env, s, t, d, Goto(m, t, Probing(d, r)));
    case Lost =>
      DropRecordKeepsGlobals(env, s, d);
      ReturnKeepsBase(env, s, m, t);
      RecordGoneKeepsStrong(env, s, t, d, Return(m, t));
      FinishKeepsStrong(env, m, t, d, r, false);
  }

  /** The record of a doomed digest is gone; its key may wait. */
  lemma RecordGoneKeepsStrong(env: Env, s: State, t: nat, d: Digest, s': State)
    requires Strong(env, s) && d in s.doomed && d !in s.secret && Base(env, s')
    requires s' == s.(remote := DropRecord(s.remote, KvName(d)), frames := s'.frames)
    requires forall u :: u != t && u in s'.frames ==> u in s.frames && s'.frames[u] == s.frames[u]
    requires t in s'.frames ==> FrameStrong(s', s'.frames[t])
    ensures Strong(env, s')
  {
    forall e ensures Matched(s', e) && Available(s', e) && NeverTold(s', e) {
      assert Matched(s, e) && Available(s, e) && NeverTold(s, e);
    }
    StrongFrom(env, s, s', t);
  }

  /** Returning from a deletion discloses the replacement, if any, whose record is in. */
  lemma FinishKeepsStrong(env: Env, m: State, t: nat, d: Digest, r: Option<Gen>, ok: bool)
    requires Strong(env, Return(m, t)) && Base(env, FinishDelete(m, t, d, r, ok).0)
    requires r.Some? ==> Kept(m, r.value.digest)
    ensures Strong(env, FinishDelete(m, t, d, r, ok).0)
  {
    match r
    case None => QuietKeepsStrong(env, Return(m, t), FinishDelete(m, t, d, r, ok).0, t);
    case Some(g) => QuietKeepsStrong(env, Return(m, t), FinishDelete(m, t, d, r, ok).0, t);
  }

  lemma ProbeKeepsStrong(env: Env, s: State, t: nat, d: Digest, r: Option<Gen>, fault: Fault)
    requires Strong(env, s) && t in s.frames && s.frames[t] == Probing(d, r)
    ensures Strong(env, SendProbe(s, t, d, r, fault).0)
  {
    SendProbeKeepsBase(env, s, t, d, r, fault);
    assert FrameStrong(s, s.frames[t]);
    if fault == Works && TransitName(d) in s.remote.transit {
      QuietMove(env, s, s, t, Allowing(d, r));
    } else {
      QuietFinish(env, s, s, t, d, r, fault == Works);
    }
  }

  lemma AllowingIsQuiet(s: State, name: string)
    requires name in s.remote.transit
    ensures Quiet(s, s.(remote := AllowDeletion(s.remote, name)))
  {
  }

  lemma AllowKeepsStrong(env: Env, s: State, t: nat, d: Digest, r: Option<Gen>, fault: Fault)
    requires Strong(env, s) && t in s.frames && s.frames[t] == Allowing(d, r)
    ensures Strong(env, SendAllow(s, t, d, r, fault).0)
  {
    SendAllowKeepsBase(env, s, t, d, r, fault);
    assert FrameStrong(s, s.frames[t]);
    if fault == Fails || TransitName(d) !in s.remote.transit {
      QuietFinish(env, s, s, t, d, r, false);
    } else {
      AllowingIsQuiet(s, TransitName(d));
      var m := s.(remote := AllowDeletion(s.remote, TransitName(d)));
      if fault == Works {
        QuietMove(env, s, m, t, DroppingKey(d, r));
      } else {
        QuietFinish(env, s, m, t, d, r, false);
      }
    }
  }

  /** Rotate hands out its replacement, whose record is in; Delete hands out nothing. */
  lemma KeyGoneFinish(env: Env, s: State, t: nat, d: Digest, r: Option<Gen>, ok: bool)
    requires Strong(env, s) && KvName(d) !in s.remote.kv && d !in s.secret && TransitName(d) in s.remote.transit
    requires r.Some? ==> Kept(s, r.value.digest)
    requires Base(env, FinishDelete(s.(remote := DropKey(s.remote, TransitName(d))), t, d, r, ok).0)
    ensures Strong(env, FinishDelete(s.(remote := DropKey(s.remote, TransitName(d))), t, d, r, ok).0)
  {
    var m := s.(remote := DropKey(s.remote, TransitName(d)));
    KeyChangeKeepsGlobals(env, s, d, m.remote);
    ReturnKeepsBase(env, s, m, t);
    KeyGoneReturn(env, s, t, d);
    FinishKeepsStrong(env, m, t, d, r, ok);
  }

  lemma DropKeyKeepsStrong(env: Env, s: State, t: nat, d: Digest, r: Option<Gen>, fault: Fault)
    requires Strong(env, s) && t in s.frames && s.frames[t] == DroppingKey(d, r)
    ensures Strong(env, SendDropKey(s, t, d, r, fault).0)
  {
    SendDropKeyKeepsBase(env, s, t, d, r, fault);
    assert FrameBase(s, t, s.frames[t]) && FrameStrong(s, s.frames[t]);
    var name := TransitName(d);
    if fault != Fails && name in s.remote.transit && s.remote.transit[name].deletable {
      KeyGoneFinish(env, s, t, d, r, fault == Works);
    } else {
      QuietFinish(env, s, s, t, d, r, fault == Works && name !in s.remote.transit);
    }
  }

  lemma GeneratingKeepsStrong(env: Env, s: State, t: nat, fault: Fault)
    requires Strong(env, s) && t in s.frames && !Reading(s.frames[t]) && !Deleting(s.frames[t])
    ensures Strong(env, SendGenerating(s, t, fault).0)
  {
    match s.frames[t]
    case Creating(g) => CreateKeepsStrong(env, s, t, g, fault);
    case Encrypting(g) => EncryptKeepsStrong(env, s, t, g, fault);
    case Storing(g, w) => StoreKeepsStrong(env, s, t, g, w, fault);
    case RollProbing(_) => RollKeepsStrong(env, s, t, s.frames[t], fault);
    case RollAllowing(_) => RollKeepsStrong(env, s, t, s.frames[t], fault);
    case RollDropping(_) => RollKeepsStrong(env, s, t, s.frames[t], fault);
  }

  lemma DeletingKeepsStrong(env: Env, s: State, t: nat, fault: Fault)
    requires Strong(env, s) && t in s.frames && Deleting(s.frames[t])
    ensures Strong(env, SendDeleting(s, t, fault).0)
  {
    match s.frames[t]
    case DroppingRecord(d, r) => DropRecordKeepsStrong(env, s, t, d, r, fault);
    case Probing(d, r) => ProbeKeepsStrong(env, s, t, d, r, fault);
    case Allowing(d, r) => AllowKeepsStrong(env, s, t, d, r, fault);
    case DroppingKey(d, r) => DropKeyKeepsStrong(env, s, t, d, r, fault);
  }

  /** Every step, its response lost or not, keeps the two stores in agreement. */
  lemma StepKeepsStrong(env: Env, s: State, a: Action)
    requires Strong(env, s) && Enabled(env, s, a)
    ensures Strong(env, Next(s, a).0)
  {
    if a.Deliver? {
      var f := s.frames[a.t];
      DeliverKeepsStrong(env, s, a.t, f.q, f.m, f.at, a.ok, a.spare);
    } else if !a.Send? {
      BeginKeepsStrong(env, s, a);
    } else if Deleting(s.frames[a.t]) {
      DeletingKeepsStrong(env, s, a.t, a.fault);
    } else if Reading(s.frames[a.t]) {
      match s.frames[a.t]
      case Fetching(q) => FetchKeepsStrong(env, s, a.t, q, a.fault);
      case Unwrapping(q, w) => UnwrapKeepsStrong(env, s, a.t, q, w, a.fault);
    } else {
      GeneratingKeepsStrong(env, s, a.t, a.fault);
    }
    TickKeepsStrong(env, Act(s, a).0);
  }

  // ---------- What each kind of step returns and leaves alone ----------

  /** The caller was handed d's plaintext, its key material, or a re-encryption of its plaintext. */
  predicate Reveals(o: Output, d: Digest) {
    ((o.PlainOut? || o.EnvelopeOut?) && o.q.digest == d) || (o.RotatedOut? && o.d == d)
  }

  /** When the call unwrapped what it reveals. */
  function At(o: Output): nat
    requires o.PlainOut? || o.EnvelopeOut? || (o.RotatedOut? && o.g.origin.Some?)
  {
    if o.RotatedOut? then o.g.origin.value.at else o.at
  }

  /** Decrypting ct under d's record, as it stands, gives pt. */
  predicate Decrypts(s: State, d: Digest, ct: Ciphertext, pt: bytes) {
    KvName(d) in s.remote.kv && Opened(s, Query(d, ToDecrypt(ct)), s.remote.kv[KvName(d)]) == Some(pt)
  }

  lemma CreateOne(s: State, t: nat, g: Gen, fault: Fault)
    ensures OneRequest(s.remote, SendCreate(s, t, g, fault).0.remote, g.digest)
  {
  }

  lemma StoreOne(s: State, t: nat, g: Gen, w: WrappedDek, fault: Fault)
    ensures OneRequest(s.remote, SendStore(s, t, g, w, fault).0.remote, g.digest)
  {
  }

  lemma RollOne(s: State, t: nat, f: Frame, fault: Fault)
    requires f.RollProbing? || f.RollAllowing? || f.RollDropping?
    ensures OneRequest(s.remote, SendRoll(s, t, f, fault).0.remote, f.g.digest)
  {
  }

  /** A generating caller's request is about its own digest only. */
  lemma GeneratingOne(s: State, t: nat, fault: Fault)
    requires t in s.frames && !Reading(s.frames[t]) && !Deleting(s.frames[t])
    ensures OneRequest(s.remote, SendGenerating(s, t, fault).0.remote, s.frames[t].g.digest)
  {
    var f := s.frames[t];
    if f.Creating? {
      CreateOne(s, t, f.g, fault);
    } else if f.Storing? {
      StoreOne(s, t, f.g, f.w, fault);
    } else if !f.Encrypting? {
      RollOne(s, t, f, fault);
    }
  }

  lemma DropRecordOne(s: State, t: nat, d: Digest, r: Option<Gen>, fault: Fault)
    ensures OneRequest(s.remote, SendDropRecord(s, t, d, r, fault).0.remote, d)
  {
  }

  lemma AllowOne(s: State, t: nat, d: Digest, r: Option<Gen>, fault: Fault)
    ensures OneRequest(s.remote, SendAllow(s, t, d, r, fault).0.remote, d)
  {
  }

  lemma DropKeyOne(s: State, t: nat, d: Digest, r: Option<Gen>, fault: Fault)
    ensures OneRequest(s.remote, SendDropKey(s, t, d, r, fault).0.remote, d)
  {
  }

  /** A deleting caller's request is about the digest it deletes only. */
  lemma DeletingOne(s: State, t: nat, fault: Fault)
    requires t in s.frames && Deleting(s.frames[t])
    ensures OneRequest(s.remote, SendDeleting(s, t, fault).0.remote, s.frames[t].d)
  {
    match s.frames[t]
    case DroppingRecord(d, r) => DropRecordOne(s, t, d, r, fault);
    case Probing(_, _) =>
    case Allowing(d, r) => AllowOne(s, t, d, r, fault);
    case DroppingKey(d, r) => DropKeyOne(s, t, d, r, fault);
  }

  /** g has its record and the matching key: it unwraps to its own material and decrypts to its plaintext. */
  predicate Committed(s: State, g: Gen) {
    && g.digest in s.gens && s.gens[g.digest] == g && KvName(g.digest) in s.remote.kv
    && DecryptUnder(s.remote, TransitName(g.digest), s.remote.kv[KvName(g.digest)]) == Some(Blob(g.dek))
    && Decrypts(s, g.digest, SealedFor(g.dek, g.plaintext), g.plaintext)
  }

  lemma StoredIsCommitted(env: Env, s: State, g: Gen)
    requires Strong(env, s) && g.digest in s.gens && s.gens[g.digest] == g && Kept(s, g.digest)
    ensures Committed(s, g)
  {
    assert Matched(s, g.digest) && BlobTrue(s, g.digest) && GenKnown(env, s, g.digest);
  }

  // ---------- Runs ----------

  function Steps(env: Env): Relation<State, Action, Output> {
    (s: State, a: Action, o: Output, s': State) => Enabled(env, s, a) && Next(s, a) == (s', o)
  }

  /** A run: states, the actions between them, and what each action returned to its caller. */
  ghost predicate Run(env: Env, ss: seq<State>, acts: seq<Action>, outs: seq<Output>) {
    Path(Steps(env), ss, acts, outs) && Initial(ss[0])
  }

  lemma {:induction false} RunKeepsBase(
    env: Env, ss: seq<State>, acts: seq<Action>, outs: seq<Output>, i: nat)
    requires Run(env, ss, acts, outs) && i < |ss|
    ensures Base(env, ss[i]) && ss[i].clock == i
  {
    if i > 0 {
      RunKeepsBase(env, ss, acts, outs, i - 1);
      assert StepAt(Steps(env), ss, acts, outs, i - 1);
      StepKeepsBase(env, ss[i - 1], acts[i - 1]);
    }
  }

  lemma {:induction false} RunKeepsStrong(env: Env, ss: seq<State>, acts: seq<Action>, outs: seq<Output>, i: nat)
    requires Run(env, ss, acts, outs) && i < |ss|
    ensures Strong(env, ss[i])
  {
    if i > 0 {
      RunKeepsStrong(env, ss, acts, outs, i - 1);
      assert StepAt(Steps(env), ss, acts, outs, i - 1);
      StepKeepsStrong(env, ss[i - 1], acts[i - 1]);
    }
  }

  /** The action writes d's record and loses the response. */
  predicate LosesWrite(s: State, a: Action, d: Digest) {
    a.Send? && a.fault == Lost && a.t in s.frames && s.frames[a.t].Storing? && s.frames[a.t].g.digest == d
  }

  lemma MislaidGrows(env: Env, s: State, a: Action, d: Digest)
    requires Enabled(env, s, a) && d !in s.mislaid
    ensures d in Next(s, a).0.mislaid <==> LosesWrite(s, a, d)
  {
  }

  /** Records are mislaid by a lost kv-v2 write response and by nothing else. */
  lemma {:induction false} MislaidHasCause(env: Env, ss: seq<State>, acts: seq<Action>, outs: seq<Output>, i: nat,
      d: Digest)
    requires Run(env, ss, acts, outs) && i < |ss| && d in ss[i].mislaid
    ensures exists k :: 0 <= k < i && LosesWrite(ss[k], acts[k], d)
  {
    if i > 0 && d in ss[i - 1].mislaid {
      MislaidHasCause(env, ss, acts, outs, i - 1, d);
    } else if i > 0 {
      assert StepAt(Steps(env), ss, acts, outs, i - 1);
      MislaidGrows(env, ss[i - 1], acts[i - 1], d);
    }
  }

  /**
   Under every interleaving and any faults: every record has the Transit key whose KEK wrapped it,
   unless the response to its write was lost, and then no caller ever learns its digest. Every
   digest that was handed out and not yet begun to be deleted unwraps to its own key and nonce.
   */
  lemma StoresAgree(env: Env, ss: seq<State>, acts: seq<Action>, outs: seq<Output>, i: nat, d: Digest)
    requires Run(env, ss, acts, outs) && i < |ss|
    ensures Matched(ss[i], d)
    ensures d in ss[i].mislaid ==> d in ss[i].secret
    ensures d in ss[i].gens && d !in ss[i].secret && d !in ss[i].doomed ==> Committed(ss[i], ss[i].gens[d])
  {
    RunKeepsStrong(env, ss, acts, outs, i);
    var s := ss[i];
    assert Matched(s, d) && Available(s, d) && NeverTold(s, d) && GenKnown(env, s, d);
    if d in s.gens && d !in s.secret && d !in s.doomed {
      StoredIsCommitted(env, s, s.gens[d]);
    }
  }

  /** Without lost responses the agreement has no exception. */
  lemma NothingMislaid(env: Env, ss: seq<State>, acts: seq<Action>, outs: seq<Output>, i: nat, d: Digest)
    requires Run(env, ss, acts, outs) && i < |ss| && KvName(d) in ss[i].remote.kv
    requires forall k :: 0 <= k < i && acts[k].Send? ==> acts[k].fault != Lost
    ensures TransitName(d) in ss[i].remote.transit
            && ss[i].remote.transit[TransitName(d)].kek == ss[i].remote.kv[KvName(d)].kek
  {
    StoresAgree(env, ss, acts, outs, i, d);
    if d in ss[i].mislaid {
      MislaidHasCause(env, ss, acts, outs, i, d);
    }
  }

  lemma RecordThere(env: Env, s: State, t: nat, q: Query)
    requires Strong(env, s) && t in s.frames && s.frames[t] == Fetching(q)
    requires q.digest in s.gens && q.digest !in s.doomed
    ensures KvName(q.digest) in s.remote.kv && q.digest in s.blobs
    ensures s.remote.kv[KvName(q.digest)] == s.blobs[q.digest]
  {
    assert FrameBase(s, t, s.frames[t]);
    assert Available(s, q.digest) && BlobTrue(s, q.digest);
  }

  /** A fetch that works finds the record of a disclosed digest nobody began to delete. */
  lemma FetchFinds(env: Env, s: State, t: nat, q: Query)
    requires Strong(env, s) && t in s.frames && s.frames[t] == Fetching(q)
    requires q.digest in s.gens && q.digest !in s.doomed
    ensures q.digest in s.blobs
    ensures Next(s, Send(t, Works)).0 == Tick(Goto(s, t, Unwrapping(q, s.blobs[q.digest])))
  {
    RecordThere(env, s, t, q);
    assert Act(s, Send(t, Works)).0 == SendFetch(s, t, q, Works).0;
  }

  lemma StillOpens(env: Env, s: State, t: nat, q: Query, w: WrappedDek)
    requires Strong(env, s) && t in s.frames && s.frames[t] == Unwrapping(q, w)
    requires q.digest in s.gens && q.digest !in s.doomed
    ensures DecryptUnder(s.remote, TransitName(q.digest), w) == Some(Blob(s.gens[q.digest].dek))
    ensures GoodMaterial(s.gens[q.digest].dek)
  {
    var d := q.digest;
    assert FrameBase(s, t, s.frames[t]);
    assert Matched(s, d) && Available(s, d) && NeverTold(s, d) && BlobTrue(s, d) && GenKnown(env, s, d);
  }

  /** Whoever acted since, as long as nobody began to delete it, an unwrap that works yields its key and nonce. */
  lemma UnwrapAnswers(env: Env, s: State, t: nat, q: Query, w: WrappedDek)
    requires Strong(env, s) && t in s.frames && s.frames[t] == Unwrapping(q, w)
    requires q.digest in s.gens && q.digest !in s.doomed
    ensures Next(s, Send(t, Works)).0 == Tick(Goto(s, t, Holding(q, Blob(s.gens[q.digest].dek), s.clock)))
  {
    StillOpens(env, s, t, q, w);
    assert Act(s, Send(t, Works)).0 == SendUnwrap(s, t, q, w, Works).0;
  }

  /** From then on nothing anyone does keeps the caller from the plaintext. */
  lemma DecryptAnswers(env: Env, s: State, t: nat, q: Query, m: bytes, at: nat, spare: Gen)
    requires Base(env, s) && t in s.frames && s.frames[t] == Holding(q, m, at) && q.digest in s.gens
    requires q.purpose == ToDecrypt(SealedFor(s.gens[q.digest].dek, s.gens[q.digest].plaintext))
    ensures Next(s, Deliver(t, true, spare)).1 == PlainOut(q, s.gens[q.digest].plaintext, at)
  {
    assert FrameBase(s, t, s.frames[t]) && GenKnown(env, s, q.digest);
    assert Opening(q, m) == Some(s.gens[q.digest].plaintext);
  }

  /** Nor from handing key and nonce to the recipient, when that is what was asked. */
  lemma WrapAnswers(env: Env, s: State, t: nat, q: Query, m: bytes, at: nat, spare: Gen)
    requires Base(env, s) && t in s.frames && s.frames[t] == Holding(q, m, at) && q.purpose.ToWrap?
    ensures q.digest in s.gens
    ensures Next(s, Deliver(t, true, spare)).1 == EnvelopeOut(q, Blob(s.gens[q.digest].dek), at)
  {
    assert FrameBase(s, t, s.frames[t]);
  }

  /** Only an answered read hands anything out, and it is what that read holds. */
  lemma HandedFromFrame(s: State, a: Action)
    requires Possible(s, a) && (Next(s, a).1.PlainOut? || Next(s, a).1.EnvelopeOut?)
    ensures a.Deliver?
    ensures var f, o := s.frames[a.t], Next(s, a).1;
            && o.q == f.q && o.at == f.at
            && if o.EnvelopeOut? then o.material == f.m
               else o.q.purpose.ToDecrypt? && Opening(f.q, f.m) == Some(o.plaintext)
  {
    assert a.Deliver?;
  }

  /** Even with lost responses: what a successful read returns is what was sealed under that digest. */
  lemma ReadsAreTrue(env: Env, s: State, a: Action)
    requires Base(env, s) && Enabled(env, s, a) && (Next(s, a).1.PlainOut? || Next(s, a).1.EnvelopeOut?)
    ensures var o := Next(s, a).1;
            && o.q.digest in s.gens
            && var g := s.gens[o.q.digest];
               && (o.EnvelopeOut? ==> o.material == Blob(g.dek) && |o.material| == 44)
               && (o.PlainOut? ==>
                     && o.q.purpose.ToDecrypt? && o.q.purpose.ct == SealedFor(g.dek, o.plaintext)
                     && (env.hash(o.q.purpose.ct) == o.q.digest && CollisionFree(env) ==>
                           o.plaintext == g.plaintext))
  {
    HandedFromFrame(s, a);
    assert FrameBase(s, a.t, s.frames[a.t]) && GenKnown(env, s, s.frames[a.t].q.digest);
  }

  lemma ErasedGrows(env: Env, s: State, a: Action, d: Digest)
    requires Enabled(env, s, a)
    ensures d in s.erasedAt ==> d in Next(s, a).0.erasedAt && Next(s, a).0.erasedAt[d] == s.erasedAt[d]
    ensures d !in s.erasedAt && d in Next(s, a).0.erasedAt ==> Next(s, a).0.erasedAt[d] == s.clock
    ensures Acknowledges(Next(s, a).1, d) ==> d in Next(s, a).0.erasedAt
  {
    if a.Deliver? {
      var f := s.frames[a.t];
      assert Act(s, a) == Delivered(s, a.t, f.q, f.m, f.at, a.ok, a.spare);
    } else if !a.Send? {
      assert Act(s, a).0.erasedAt == s.erasedAt && Act(s, a).1.Silence?;
    } else if Reading(s.frames[a.t]) {
      assert Act(s, a) == SendReading(s, a.t, a.fault);
    } else if Deleting(s.frames[a.t]) {
      assert Act(s, a) == SendDeleting(s, a.t, a.fault);
    } else {
      assert Act(s, a) == SendGenerating(s, a.t, a.fault);
    }
  }

  lemma ErasedStays(
    env: Env, ss: seq<State>, acts: seq<Action>, outs: seq<Output>, i: nat, j: nat, d: Digest)
    requires Run(env, ss, acts, outs) && i <= j < |ss| && d in ss[i].erasedAt
    ensures d in ss[j].erasedAt && ss[j].erasedAt[d] == ss[i].erasedAt[d]
  {
    var when := ss[i].erasedAt[d];
    var p := (s: State) => d in s.erasedAt && s.erasedAt[d] == when;
    forall s, a, o, s' | Steps(env)(s, a, o, s') && p(s) ensures p(s') {
      ErasedGrows(env, s, a, d);
    }
    Stays(Steps(env), ss, acts, outs, p, i, j);
  }

  lemma ErasedNext(env: Env, ss: seq<State>, acts: seq<Action>, outs: seq<Output>, i: nat, d: Digest)
    requires Run(env, ss, acts, outs) && i < |acts|
    ensures d in ss[i].erasedAt ==> d in ss[i + 1].erasedAt && ss[i + 1].erasedAt[d] == ss[i].erasedAt[d]
    ensures d !in ss[i].erasedAt && d in ss[i + 1].erasedAt ==> ss[i + 1].erasedAt[d] == ss[i].clock
    ensures Acknowledges(outs[i], d) ==> d in ss[i + 1].erasedAt
  {
    assert StepAt(Steps(env), ss, acts, outs, i);
    ErasedGrows(env, ss[i], acts[i], d);
  }

  lemma AcknowledgedIsErased(
    env: Env, ss: seq<State>, acts: seq<Action>, outs: seq<Output>, i: nat, j: nat, d: Digest)
    requires Run(env, ss, acts, outs) && i < j < |ss| && Acknowledges(outs[i], d)
    ensures d in ss[j].erasedAt && ss[j].erasedAt[d] <= i
  {
    RunKeepsBase(env, ss, acts, outs, i);
    assert ErasedTrue(ss[i], d);
    ErasedNext(env, ss, acts, outs, i, d);
    ErasedStays(env, ss, acts, outs, i + 1, j, d);
  }

  /** No blob of an erased digest unwraps, and so no call that still asks for it gets it. */
  lemma ErasedStaysClosed(env: Env, s: State, a: Action, d: Digest)
    requires Base(env, s) && Enabled(env, s, a) && d in s.erasedAt
    ensures d in s.blobs ==> DecryptUnder(s.remote, TransitName(d), s.blobs[d]) == None
    ensures Asks(s, a, d) ==> Next(s, a).1.ErrorOut? && a.t !in Next(s, a).0.frames
  {
    assert ErasedTrue(s, d);
    if Asks(s, a, d) {
      var f := s.frames[a.t];
      assert FrameBase(s, a.t, f);
      assert f.Unwrapping? ==> Act(s, a) == SendUnwrap(s, a.t, f.q, f.w, a.fault);
      assert f.Fetching? ==> Act(s, a) == SendFetch(s, a.t, f.q, a.fault);
    }
  }

  /** The action is a request for d's record, or to unwrap d's key. */
  predicate Asks(s: State, a: Action, d: Digest) {
    a.Send? && a.t in s.frames && (s.frames[a.t].Fetching? || s.frames[a.t].Unwrapping?) && s.frames[a.t].q.digest == d
  }

  /** Whatever a call reveals, it unwrapped after it started and before any deletion was acknowledged. */
  lemma RevealsHeld(env: Env, s: State, a: Action, d: Digest)
    requires Base(env, s) && Enabled(env, s, a) && Reveals(Next(s, a).1, d)
    ensures (a.Send? || a.Deliver?) && (Next(s, a).1.RotatedOut? ==> Next(s, a).1.g.origin.Some?)
    ensures var at := At(Next(s, a).1); StartOf(s, a.t) <= at && (d in s.erasedAt ==> at <= s.erasedAt[d])
  {
    if Next(s, a).1.RotatedOut? {
      RotatedFromFrame(s, a);
      RotatedOrigin(env, s, a.t, d, Next(s, a).1.g);
    } else {
      HandedFromFrame(s, a);
      assert FrameBase(s, a.t, s.frames[a.t]);
    }
  }

  /** A rotation returns only from its deleting phase, with the replacement it holds there. */
  lemma RotatedFromFrame(s: State, a: Action)
    requires Possible(s, a) && Next(s, a).1.RotatedOut?
    ensures a.Send? && Deleting(s.frames[a.t])
    ensures s.frames[a.t].replacement == Some(Next(s, a).1.g) && s.frames[a.t].d == Next(s, a).1.d
  {
    assert a.Send?;
  }

  /** That replacement is the one its caller's current call derived from the old digest. */
  lemma RotatedOrigin(env: Env, s: State, t: nat, d: Digest, g: Gen)
    requires Base(env, s) && t in s.frames && Deleting(s.frames[t])
    requires s.frames[t].replacement == Some(g) && s.frames[t].d == d
    ensures g.origin.Some? && g.digest in s.gens && s.gens[g.digest] == g
    ensures g.origin.value.query.digest == d && g.origin.value.start == StartOf(s, t) && OriginTrue(s, g.digest)
  {
    assert FrameBase(s, t, s.frames[t]);
  }

  /**
   Erasure is permanent under every interleaving, lost responses included. Once a deletion of d was
   acknowledged, by action i: what any call still reveals of d it had unwrapped no later than that,
   and so it had started no later either; no request for d succeeds any more; and no saved copy of
   its wrapped DEK can be unwrapped, even after a Transit key of that name is created again.
   */
  lemma ErasureIsPermanent(
    env: Env, ss: seq<State>, acts: seq<Action>, outs: seq<Output>, i: nat, j: nat, d: Digest)
    requires Run(env, ss, acts, outs) && i < j < |acts| && Acknowledges(outs[i], d)
    ensures Reveals(outs[j], d) ==>
              && (acts[j].Send? || acts[j].Deliver?) && (outs[j].RotatedOut? ==> outs[j].g.origin.Some?)
              && StartOf(ss[j], acts[j].t) <= At(outs[j]) <= i
    ensures Asks(ss[j], acts[j], d) ==> outs[j].ErrorOut? && acts[j].t !in ss[j + 1].frames
    ensures d in ss[j].blobs ==> DecryptUnder(ss[j].remote, TransitName(d), ss[j].blobs[d]) == None
  {
    AcknowledgedIsErased(env, ss, acts, outs, i, j, d);
    RunKeepsBase(env, ss, acts, outs, j);
    assert StepAt(Steps(env), ss, acts, outs, j);
    ErasedStaysClosed(env, ss[j], acts[j], d);
    if Reveals(outs[j], d) {
      RevealsHeld(env, ss[j], acts[j], d);
    }
  }

  /**
   Rotate never erases early. Until a caller starts deleting, its requests leave alone whatever is
   stored for every digest any caller can name, lost responses included.
   */
  lemma NothingErasedBeforeDeleting(env: Env, s: State, a: Action, d: Digest)
    requires Base(env, s) && Enabled(env, s, a) && Precedes(s, a) && d !in s.secret
    ensures Untouched(s.remote, Next(s, a).0.remote, d)
  {
    assert FrameBase(s, a.t, s.frames[a.t]);
    if a.Send? && !Reading(s.frames[a.t]) {
      GeneratingOne(s, a.t, a.fault);
      OthersUntouched(s.remote, Next(s, a).0.remote, s.frames[a.t].g.digest, d);
    }
  }

  /** A step of a call that is not, or not yet, deleting. */
  predicate Precedes(s: State, a: Action) {
    (a.Send? || a.Deliver?) && a.t in s.frames && !Deleting(s.frames[a.t])
  }

  /** So a digest that decrypts before such a step decrypts after it, whatever becomes of the request. */
  lemma OldStillDecrypts(env: Env, s: State, a: Action, d: Digest, ct: Ciphertext, pt: bytes)
    requires Base(env, s) && Enabled(env, s, a) && Precedes(s, a) && d !in s.secret
    requires Decrypts(s, d, ct, pt)
    ensures Decrypts(Next(s, a).0, d, ct, pt)
  {
    NothingErasedBeforeDeleting(env, s, a, d);
  }

  lemma ReplacementSays(env: Env, s: State, t: nat, d: Digest, g: Gen)
    requires Base(env, s) && Replaces(s, t, d, g)
    ensures SamePlaintext(env, s.gens, d, g)
  {
    assert GenKnown(env, s, d) && OriginTrue(s, g.digest);
  }

  /** And at every moment of Rotate's deleting phase its replacement is committed, with the old plaintext. */
  lemma ReplacementCommitted(env: Env, s: State, t: nat)
    requires Strong(env, s) && t in s.frames && Deleting(s.frames[t]) && s.frames[t].replacement.Some?
    ensures Committed(s, s.frames[t].replacement.value)
    ensures SamePlaintext(env, s.gens, s.frames[t].d, s.frames[t].replacement.value)
    ensures s.frames[t].replacement.value.digest != s.frames[t].d
  {
    assert FrameBase(s, t, s.frames[t]) && FrameStrong(s, s.frames[t]);
    StoredIsCommitted(env, s, s.frames[t].replacement.value);
    ReplacementSays(env, s, t, s.frames[t].d, s.frames[t].replacement.value);
  }

  lemma CommittedUntouched(s: State, s': State, g: Gen)
    requires Committed(s, g) && s'.gens == s.gens && Untouched(s.remote, s'.remote, g.digest)
    ensures Committed(s', g)
  {
  }

  /** A rotation that returns, its delete done or failed, returns a digest that decrypts to the old plaintext. */
  lemma RotatedStillDecrypts(env: Env, s: State, a: Action)
    requires Strong(env, s) && Enabled(env, s, a) && Next(s, a).1.RotatedOut?
    ensures Committed(Next(s, a).0, Next(s, a).1.g)
    ensures SamePlaintext(env, Next(s, a).0.gens, Next(s, a).1.d, Next(s, a).1.g)
  {
    var s', d, g := Next(s, a).0, Next(s, a).1.d, Next(s, a).1.g;
    RotatedFromFrame(s, a);
    ReplacementCommitted(env, s, a.t);
    DeletingOne(s, a.t, a.fault);
    assert s' == Tick(SendDeleting(s, a.t, a.fault).0);
    OthersUntouched(s.remote, s'.remote, d, g.digest);
    CommittedUntouched(s, s', g);
  }
}
