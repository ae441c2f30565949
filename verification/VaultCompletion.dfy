/**
 Calls on the Vault machine come to their proper end: a call whose own steps work, while nobody else
 acts on its digest, is answered as the service promises, after a bounded number of its own steps and
 whatever other callers do to other digests meanwhile.
 */
module VaultCompletion {
  import opened Prelude
  import opened KeyService
  import opened Vault
  import opened Paths
  import opened VaultInterleaving

  // ---------- On the way ----------

  /** t is on its way with the job, and nothing stands in it. */
  predicate Ready(s: State, t: nat, job: Job) {
    && t in s.frames
    && match s.frames[t]
       case Fetching(q) => job == Asking(q) && Fits(s.gens, q) && q.digest !in s.doomed
       case Unwrapping(q, _) => job == Asking(q) && Fits(s.gens, q) && q.digest !in s.doomed
       case Holding(q, _, _) => job == Asking(q) && Fits(s.gens, q)
       case Creating(g) => Serves(job, g)
       case Encrypting(g) => Serves(job, g) && TransitName(g.digest) in s.remote.transit
       case Storing(g, _) => Serves(job, g)
       case DroppingRecord(d, r) => Removes(job, d, r)
       case Probing(d, r) => Removes(job, d, r)
       case Allowing(d, r) => Removes(job, d, r) && TransitName(d) in s.remote.transit
       case DroppingKey(d, r) => Removes(job, d, r) && Deletable(s, d)
       case _ => false
  }

  predicate Deletable(s: State, d: Digest) {
    TransitName(d) in s.remote.transit ==> s.remote.transit[TransitName(d)].deletable
  }

  /** How many of its own steps the caller has at most ahead of it. */
  function Ahead(f: Frame): nat {
    match f
    case Fetching(_) => 10
    case Unwrapping(_, _) => 9
    case Holding(_, _, _) => 8
    case Creating(_) => 7
    case Encrypting(_) => 6
    case Storing(_, _) => 5
    case DroppingRecord(_, _) => 4
    case Probing(_, _) => 3
    case Allowing(_, _) => 2
    case _ => 1
  }

  // ---------- The end ----------

  predicate Absent(s: State, d: Digest) {
    KvName(d) !in s.remote.kv && TransitName(d) !in s.remote.transit
  }

  /** The answer the job deserves, and the state it leaves. */
  predicate Done(s: State, o: Output, job: Job) {
    match job
    case Making(g) => o == NewCid(g) && Committed(s, g)
    case Removing(d) => o == Gone(d) && Absent(s, d)
    case Asking(q) =>
      match q.purpose
      case ToDecrypt(ct) => ct.Sealed? && o.PlainOut? && o.q == q && o.plaintext == ct.plaintext
      case ToWrap(_) => q.digest in s.gens && o.EnvelopeOut? && o.q == q && o.material == Blob(s.gens[q.digest].dek)
      case ToRotate(ct) =>
        && ct.Sealed? && o.RotatedOut? && o.d == q.digest && o.oldErased && o.g.plaintext == ct.plaintext
        && Committed(s, o.g) && Absent(s, q.digest)
  }

  /** The caller got on, or is done. */
  predicate Progress(s: State, t: nat, job: Job, s': State, o: Output)
    requires t in s.frames
  {
    || (Ready(s', t, job) && Ahead(s'.frames[t]) < Ahead(s.frames[t]))
    || (t !in s'.frames && Done(s', o, job))
  }

  // ---------- The caller's own steps ----------

  /** A step of t's that works. */
  predicate Own(s: State, t: nat, a: Action) {
    && t in s.frames
    && if s.frames[t].Holding? then a.Deliver? && a.t == t && a.ok else a == Send(t, Works)
  }

  /** The caller got on to frame f, with the remote state r. */
  lemma MovesOn(s: State, t: nat, job: Job, r: Remote, f: Frame)
    requires t in s.frames && Ready(Goto(s.(remote := r), t, f), t, job) && Ahead(f) < Ahead(s.frames[t])
    ensures Progress(s, t, job, Tick(Goto(s.(remote := r), t, f)), Silence)
  {
    var m, s' := Goto(s.(remote := r), t, f), Tick(Goto(s.(remote := r), t, f));
    assert s'.frames == m.frames && s'.remote == m.remote && s'.gens == m.gens && s'.doomed == m.doomed;
  }

  lemma OwnRead(env: Env, s: State, t: nat, job: Job)
    requires Strong(env, s) && Ready(s, t, job) && (s.frames[t].Fetching? || s.frames[t].Unwrapping?)
    ensures Progress(s, t, job, Next(s, Send(t, Works)).0, Next(s, Send(t, Works)).1)
  {
    var q := s.frames[t].q;
    if s.frames[t].Fetching? {
      FetchFinds(env, s, t, q);
      MovesOn(s, t, job, s.remote, Unwrapping(q, s.blobs[q.digest]));
    } else {
      UnwrapAnswers(env, s, t, q, s.frames[t].w);
      MovesOn(s, t, job, s.remote, Holding(q, Blob(s.gens[q.digest].dek), s.clock));
    }
  }

  lemma OwnDeliver(env: Env, s: State, t: nat, job: Job, a: Action)
    requires Strong(env, s) && Enabled(env, s, a) && Ready(s, t, job) && Own(s, t, a) && s.frames[t].Holding?
    ensures Progress(s, t, job, Next(s, a).0, Next(s, a).1)
  {
    var q, m, at := s.frames[t].q, s.frames[t].m, s.frames[t].at;
    assert FrameBase(s, t, s.frames[t]) && GenKnown(env, s, q.digest);
    assert q.purpose.ToWrap? || Opening(q, m) == Some(q.purpose.ct.plaintext);
    assert Act(s, a) == Delivered(s, t, q, m, at, true, a.spare);
    DeliverCases(s, t, q, m, at, true, a.spare);
  }

  lemma CreateWorks(s: State, t: nat, g: Gen)
    requires t in s.frames && s.frames[t] == Creating(g)
    ensures Next(s, Send(t, Works)) ==
            (Tick(Goto(s.(remote := CreateKey(s.remote, TransitName(g.digest))), t, Encrypting(g))), Silence)
  {
    assert Act(s, Send(t, Works)) == SendCreate(s, t, g, Works);
  }

  lemma OwnCreate(s: State, t: nat, job: Job)
    requires Ready(s, t, job) && s.frames[t].Creating?
    ensures Progress(s, t, job, Next(s, Send(t, Works)).0, Next(s, Send(t, Works)).1)
  {
    var g := s.frames[t].g;
    CreateWorks(s, t, g);
    MovesOn(s, t, job, CreateKey(s.remote, TransitName(g.digest)), Encrypting(g));
  }

  lemma EncryptWorks(s: State, t: nat, g: Gen) returns (w: WrappedDek)
    requires t in s.frames && s.frames[t] == Encrypting(g) && TransitName(g.digest) in s.remote.transit
    ensures Next(s, Send(t, Works)) == (Tick(Goto(s.(blobs := s.blobs[g.digest := w]), t, Storing(g, w))), Silence)
  {
    w := WrappedDek(s.remote.transit[TransitName(g.digest)].kek, Blob(g.dek));
    assert Act(s, Send(t, Works)) == SendEncrypt(s, t, g, Works);
  }

  lemma OwnEncrypt(s: State, t: nat, job: Job)
    requires Ready(s, t, job) && s.frames[t].Encrypting?
    ensures Progress(s, t, job, Next(s, Send(t, Works)).0, Next(s, Send(t, Works)).1)
  {
    var w := EncryptWorks(s, t, s.frames[t].g);
    assert Next(s, Send(t, Works)).0.frames[t] == Storing(s.frames[t].g, w);
  }

  lemma StoreWorks(s: State, t: nat, g: Gen, w: WrappedDek)
    requires t in s.frames && s.frames[t] == Storing(g, w)
    ensures var stored := s.(remote := PutRecord(s.remote, KvName(g.digest), w));
            Next(s, Send(t, Works)) ==
            match g.origin {
              case None => (Tick(Return(stored, t).(secret := s.secret - {g.digest})), NewCid(g))
              case Some(o) =>
                var d := o.query.digest;
                (Tick(Goto(stored, t, DroppingRecord(d, Some(g))).(doomed := s.doomed + {d})), Silence)
            }
  {
    assert Act(s, Send(t, Works)) == SendStore(s, t, g, w, Works);
  }

  lemma TurnIsReady(s: State, t: nat, g: Gen, job: Job)
    requires g.origin.Some? && Serves(job, g)
    requires t in s.frames && s.frames[t] == DroppingRecord(g.origin.value.query.digest, Some(g))
    ensures Ready(s, t, job) && Ahead(s.frames[t]) == 4
  {
  }

  lemma OwnStore(env: Env, s: State, t: nat, job: Job)
    requires Strong(env, s) && Ready(s, t, job) && s.frames[t].Storing?
    ensures Progress(s, t, job, Next(s, Send(t, Works)).0, Next(s, Send(t, Works)).1)
  {
    var g := s.frames[t].g;
    StoreWorks(s, t, g, s.frames[t].w);
    if g.origin.None? {
      NewIsCommitted(env, s, t, g);
    } else {
      TurnIsReady(Next(s, Send(t, Works)).0, t, g, job);
    }
  }

  lemma NewIsCommitted(env: Env, s: State, t: nat, g: Gen)
    requires Strong(env, s) && t in s.frames && s.frames[t].Storing? && s.frames[t].g == g && g.origin.None?
    ensures Committed(Next(s, Send(t, Works)).0, g)
  {
    assert FrameBase(s, t, s.frames[t]) && FrameStrong(s, s.frames[t]);
    StoreWorks(s, t, g, s.frames[t].w);
    StepKeepsStrong(env, s, Send(t, Works));
    StoredIsCommitted(env, Next(s, Send(t, Works)).0, g);
  }

  lemma DropRecordWorks(s: State, t: nat, d: Digest, r: Option<Gen>)
    requires t in s.frames && s.frames[t] == DroppingRecord(d, r)
    ensures Next(s, Send(t, Works)) ==
            (Tick(Goto(s.(remote := DropRecord(s.remote, KvName(d))), t, Probing(d, r))), Silence)
  {
    assert Act(s, Send(t, Works)) == SendDropRecord(s, t, d, r, Works);
  }

  lemma OwnDropRecord(s: State, t: nat, job: Job)
    requires Ready(s, t, job) && s.frames[t].DroppingRecord?
    ensures Progress(s, t, job, Next(s, Send(t, Works)).0, Next(s, Send(t, Works)).1)
  {
    var d, r := s.frames[t].d, s.frames[t].replacement;
    DropRecordWorks(s, t, d, r);
    MovesOn(s, t, job, DropRecord(s.remote, KvName(d)), Probing(d, r));
  }

  lemma AllowWorks(s: State, t: nat, d: Digest, r: Option<Gen>)
    requires t in s.frames && s.frames[t] == Allowing(d, r) && TransitName(d) in s.remote.transit
    ensures Next(s, Send(t, Works)) ==
            (Tick(Goto(s.(remote := AllowDeletion(s.remote, TransitName(d))), t, DroppingKey(d, r))), Silence)
  {
    assert Act(s, Send(t, Works)) == SendAllow(s, t, d, r, Works);
  }

  lemma OwnAllow(s: State, t: nat, job: Job)
    requires Ready(s, t, job) && s.frames[t].Allowing?
    ensures Progress(s, t, job, Next(s, Send(t, Works)).0, Next(s, Send(t, Works)).1)
  {
    var d, r := s.frames[t].d, s.frames[t].replacement;
    AllowWorks(s, t, d, r);
    MovesOn(s, t, job, AllowDeletion(s.remote, TransitName(d)), DroppingKey(d, r));
  }

  /** What a deletion that worked tells its caller. */
  function Report(d: Digest, r: Option<Gen>): Output {
    match r
    case None => Gone(d)
    case Some(g) => RotatedOut(d, g, true)
  }

  lemma ProbeWorks(s: State, t: nat, d: Digest, r: Option<Gen>)
    requires t in s.frames && s.frames[t] == Probing(d, r)
    ensures var s', o := Next(s, Send(t, Works)).0, Next(s, Send(t, Works)).1;
            if TransitName(d) in s.remote.transit then s' == Tick(Goto(s, t, Allowing(d, r))) && o == Silence
            else t !in s'.frames && s'.remote == s.remote && o == Report(d, r)
  {
    assert Act(s, Send(t, Works)) == SendProbe(s, t, d, r, Works);
  }

  lemma FinishReports(s: State, t: nat, d: Digest, r: Option<Gen>)
    ensures var (s', o) := FinishDelete(s, t, d, r, true); t !in s'.frames && s'.remote == s.remote && o == Report(d, r)
  {
  }

  lemma DropKeyWorks(s: State, t: nat, d: Digest, r: Option<Gen>)
    requires t in s.frames && s.frames[t] == DroppingKey(d, r) && Deletable(s, d)
    ensures var s', o := Next(s, Send(t, Works)).0, Next(s, Send(t, Works)).1;
            && t !in s'.frames && o == Report(d, r)
            && TransitName(d) !in s'.remote.transit && s'.remote.kv == s.remote.kv
  {
    assert Act(s, Send(t, Works)) == SendDropKey(s, t, d, r, Works);
    FinishReports(s, t, d, r);
    FinishReports(s.(remote := DropKey(s.remote, TransitName(d))), t, d, r);
  }

  /** The deletion is through: the report is the answer the job deserves. */
  lemma ReportIsDone(env: Env, s: State, t: nat, job: Job, d: Digest, r: Option<Gen>)
    requires Strong(env, s) && t in s.frames && Removes(job, d, r)
    requires Next(s, Send(t, Works)).1 == Report(d, r) && Absent(Next(s, Send(t, Works)).0, d)
    requires !s.frames[t].Holding?
    ensures Done(Next(s, Send(t, Works)).0, Next(s, Send(t, Works)).1, job)
  {
    if r.Some? {
      RotatedStillDecrypts(env, s, Send(t, Works));
    }
  }

  lemma OwnProbe(env: Env, s: State, t: nat, job: Job)
    requires Strong(env, s) && Ready(s, t, job) && s.frames[t].Probing?
    ensures Progress(s, t, job, Next(s, Send(t, Works)).0, Next(s, Send(t, Works)).1)
  {
    var d, r := s.frames[t].d, s.frames[t].replacement;
    ProbeWorks(s, t, d, r);
    if TransitName(d) in s.remote.transit {
      MovesOn(s, t, job, s.remote, Allowing(d, r));
    } else {
      assert FrameBase(s, t, s.frames[t]);
      ReportIsDone(env, s, t, job, d, r);
    }
  }

  lemma OwnDropKey(env: Env, s: State, t: nat, job: Job)
    requires Strong(env, s) && Ready(s, t, job) && s.frames[t].DroppingKey?
    ensures Progress(s, t, job, Next(s, Send(t, Works)).0, Next(s, Send(t, Works)).1)
  {
    var d, r := s.frames[t].d, s.frames[t].replacement;
    assert FrameBase(s, t, s.frames[t]);
    DropKeyWorks(s, t, d, r);
    ReportIsDone(env, s, t, job, d, r);
  }

  /** Every step of the caller's own that works brings it on, or to its proper end. */
  lemma OwnStep(env: Env, s: State, t: nat, job: Job, a: Action)
    requires Strong(env, s) && Enabled(env, s, a) && Ready(s, t, job) && Own(s, t, a)
    ensures Progress(s, t, job, Next(s, a).0, Next(s, a).1)
  {
    var f := s.frames[t];
    if f.Holding? {
      OwnDeliver(env, s, t, job, a);
    } else if Reading(f) {
      OwnRead(env, s, t, job);
    } else if Deleting(f) {
      OwnDelete(env, s, t, job);
    } else if f.Creating? {
      OwnCreate(s, t, job);
    } else if f.Encrypting? {
      OwnEncrypt(s, t, job);
    } else {
      OwnStore(env, s, t, job);
    }
  }

  lemma OwnDelete(env: Env, s: State, t: nat, job: Job)
    requires Strong(env, s) && Ready(s, t, job) && Deleting(s.frames[t])
    ensures Progress(s, t, job, Next(s, Send(t, Works)).0, Next(s, Send(t, Works)).1)
  {
    match s.frames[t]
    case DroppingRecord(_, _) => OwnDropRecord(s, t, job);
    case Probing(_, _) => OwnProbe(env, s, t, job);
    case Allowing(_, _) => OwnAllow(s, t, job);
    case DroppingKey(_, _) => OwnDropKey(env, s, t, job);
  }

  // ---------- The others' steps ----------

  predicate NotBy(a: Action, t: nat) {
    a.Recreate? || a.t != t
  }

  /** The frame's next request is about d, or turns to deleting d. */
  predicate Concerns(f: Frame, d: Digest) {
    if Deleting(f) then f.d == d
    else !Reading(f) && (f.g.digest == d || (f.g.origin.Some? && f.g.origin.value.query.digest == d))
  }

  /** The action is not about d; reading d does no harm. */
  predicate Aloof(s: State, a: Action, d: Digest) {
    match a
    case BeginDelete(_, e) => e != d
    case Recreate(e) => e != d
    case Send(u, _) => u in s.frames && !Concerns(s.frames[u], d)
    case _ => true
  }

  predicate Elsewhere(s: State, a: Action, t: nat, job: Job) {
    NotBy(a, t) && Aloof(s, a, Target(job))
  }

  /** Only u's frame changed, no generation was made, and only digests of extra may be newly doomed. */
  predicate Local(s: State, s': State, u: nat, extra: set<Digest>) {
    && s'.gens == s.gens && s'.doomed <= s.doomed + extra
    && (s'.frames == s.frames - {u} || (u in s'.frames && s'.frames == s.frames[u := s'.frames[u]]))
  }

  lemma MoveLocal(s: State, m: State, u: nat, f: Frame)
    requires m.gens == s.gens && m.doomed == s.doomed && m.frames == s.frames
    ensures Local(s, Goto(m, u, f), u, {})
  {
  }

  lemma ReturnLocal(s: State, m: State, u: nat)
    requires m.gens == s.gens && m.doomed == s.doomed && m.frames == s.frames
    ensures Local(s, Return(m, u), u, {})
  {
  }

  lemma CreateLocal(s: State, u: nat, g: Gen, fault: Fault)
    ensures Local(s, SendCreate(s, u, g, fault).0, u, {})
  {
  }

  lemma EncryptLocal(s: State, u: nat, g: Gen, fault: Fault)
    ensures Local(s, SendEncrypt(s, u, g, fault).0, u, {})
  {
    var name := TransitName(g.digest);
    if fault == Works && name in s.remote.transit {
      var w := WrappedDek(s.remote.transit[name].kek, Blob(g.dek));
      MoveLocal(s, s.(blobs := s.blobs[g.digest := w]), u, Storing(g, w));
    } else {
      MoveLocal(s, s, u, RollProbing(g));
    }
  }

  lemma StoreLocal(s: State, u: nat, g: Gen, w: WrappedDek, fault: Fault)
    ensures Local(s, SendStore(s, u, g, w, fault).0, u, if g.origin.Some? then {g.origin.value.query.digest} else {})
  {
  }

  lemma RollLocal(s: State, u: nat, f: Frame, fault: Fault)
    requires f.RollProbing? || f.RollAllowing? || f.RollDropping?
    ensures Local(s, SendRoll(s, u, f, fault).0, u, {})
  {
    var name := TransitName(f.g.digest);
    ReturnLocal(s, s, u);
    if name in s.remote.transit && fault != Fails {
      var allowed := s.(remote := AllowDeletion(s.remote, name));
      MoveLocal(s, s, u, RollAllowing(f.g));
      MoveLocal(s, allowed, u, RollDropping(f.g));
      ReturnLocal(s, allowed, u);
      ReturnLocal(s, s.(remote := DropKey(s.remote, name)), u);
    }
  }

  lemma FinishLocal(s: State, u: nat, d: Digest, r: Option<Gen>, ok: bool)
    ensures Local(s, FinishDelete(s, u, d, r, ok).0, u, {})
  {
  }

  lemma DropRecordLocal(s: State, u: nat, d: Digest, r: Option<Gen>, fault: Fault)
    ensures Local(s, SendDropRecord(s, u, d, r, fault).0, u, {})
  {
    FinishLocal(s, u, d, r, false);
    FinishLocal(s.(remote := DropRecord(s.remote, KvName(d))), u, d, r, false);
  }

  lemma ProbeLocal(s: State, u: nat, d: Digest, r: Option<Gen>, fault: Fault)
    ensures Local(s, SendProbe(s, u, d, r, fault).0, u, {})
  {
    FinishLocal(s, u, d, r, false);
    FinishLocal(s, u, d, r, true);
  }

  lemma AllowLocal(s: State, u: nat, d: Digest, r: Option<Gen>, fault: Fault)
    ensures Local(s, SendAllow(s, u, d, r, fault).0, u, {})
  {
    FinishLocal(s, u, d, r, false);
    if TransitName(d) in s.remote.transit {
      FinishLocal(s.(remote := AllowDeletion(s.remote, TransitName(d))), u, d, r, false);
    }
  }

  lemma DropKeyLocal(s: State, u: nat, d: Digest, r: Option<Gen>, fault: Fault)
    ensures Local(s, SendDropKey(s, u, d, r, fault).0, u, {})
  {
    FinishLocal(s, u, d, r, false);
    FinishLocal(s, u, d, r, fault == Works);
    FinishLocal(s.(remote := DropKey(s.remote, TransitName(d))), u, d, r, fault == Works);
  }

  lemma ReadLocal(s: State, u: nat, fault: Fault)
    requires u in s.frames && Reading(s.frames[u])
    ensures Local(s, SendReading(s, u, fault).0, u, {})
  {
    ReturnLocal(s, s, u);
    match s.frames[u]
    case Fetching(q) =>
      if KvName(q.digest) in s.remote.kv {
        MoveLocal(s, s, u, Unwrapping(q, s.remote.kv[KvName(q.digest)]));
      }
    case Unwrapping(q, w) =>
      var m := DecryptUnder(s.remote, TransitName(q.digest), w);
      if m.Some? {
        MoveLocal(s, s, u, Holding(q, m.value, s.clock));
      }
    case Holding(_, _, _) =>
      assert s.frames[u := s.frames[u]] == s.frames;
  }

  lemma DeletingLocal(s: State, u: nat, fault: Fault)
    requires u in s.frames && Deleting(s.frames[u])
    ensures Local(s, SendDeleting(s, u, fault).0, u, {})
  {
    match s.frames[u]
    case DroppingRecord(d, r) => DropRecordLocal(s, u, d, r, fault);
    case Probing(d, r) => ProbeLocal(s, u, d, r, fault);
    case Allowing(d, r) => AllowLocal(s, u, d, r, fault);
    case DroppingKey(d, r) => DropKeyLocal(s, u, d, r, fault);
  }

  lemma GeneratingLocal(s: State, u: nat, fault: Fault)
    requires u in s.frames && !Reading(s.frames[u]) && !Deleting(s.frames[u])
    ensures var o := s.frames[u].g.origin;
            Local(s, SendGenerating(s, u, fault).0, u, if o.Some? then {o.value.query.digest} else {})
  {
    var f := s.frames[u];
    if f.Creating? {
      CreateLocal(s, u, f.g, fault);
    } else if f.Encrypting? {
      EncryptLocal(s, u, f.g, fault);
    } else if f.Storing? {
      StoreLocal(s, u, f.g, f.w, fault);
    } else {
      RollLocal(s, u, f, fault);
    }
  }

  /** What an action that is not about e, by someone else than t, leaves as it was. */
  predicate Spared(s: State, s': State, t: nat, e: Digest) {
    && (t in s.frames ==> t in s'.frames && s'.frames[t] == s.frames[t])
    && (e in s.gens ==> e in s'.gens && s'.gens[e] == s.gens[e])
    && (e !in s.doomed ==> e !in s'.doomed)
    && Untouched(s.remote, s'.remote, e)
  }

  lemma SendSpares(s: State, u: nat, fault: Fault, t: nat, e: Digest)
    requires u in s.frames && u != t && !Concerns(s.frames[u], e)
    ensures Spared(s, Act(s, Send(u, fault)).0, t, e)
  {
    var f, s' := s.frames[u], Act(s, Send(u, fault)).0;
    if Reading(f) {
      assert s' == SendReading(s, u, fault).0;
      ReadLocal(s, u, fault);
    } else if Deleting(f) {
      assert s' == SendDeleting(s, u, fault).0;
      DeletingLocal(s, u, fault);
      DeletingOne(s, u, fault);
      OthersUntouched(s.remote, s'.remote, f.d, e);
    } else {
      assert s' == SendGenerating(s, u, fault).0;
      GeneratingLocal(s, u, fault);
      GeneratingOne(s, u, fault);
      OthersUntouched(s.remote, s'.remote, f.g.digest, e);
    }
  }

  lemma DeliverSpares(env: Env, s: State, a: Action, t: nat, e: Digest)
    requires Base(env, s) && Enabled(env, s, a) && a.Deliver? && a.t != t
    ensures Spared(s, Act(s, a).0, t, e)
  {
    var f := s.frames[a.t];
    DeliverCases(s, a.t, f.q, f.m, f.at, a.ok, a.spare);
    assert GenKnown(env, s, e);
    assert Act(s, a).0 == Delivered(s, a.t, f.q, f.m, f.at, a.ok, a.spare).0;
  }

  lemma BeginSpares(env: Env, s: State, a: Action, t: nat, e: Digest)
    requires Base(env, s) && Enabled(env, s, a) && !a.Send? && !a.Deliver? && NotBy(a, t) && Aloof(s, a, e)
    ensures Spared(s, Act(s, a).0, t, e)
  {
    assert GenKnown(env, s, e);
    if a.Recreate? {
      OthersUntouched(s.remote, Act(s, a).0.remote, a.d, e);
    }
  }

  lemma OtherSpares(env: Env, s: State, a: Action, t: nat, e: Digest)
    requires Base(env, s) && Enabled(env, s, a) && NotBy(a, t) && Aloof(s, a, e)
    ensures Spared(s, Next(s, a).0, t, e)
  {
    if a.Send? {
      SendSpares(s, a.t, a.fault, t, e);
    } else if a.Deliver? {
      DeliverSpares(env, s, a, t, e);
    } else {
      BeginSpares(env, s, a, t, e);
    }
  }

  /** Nobody else can be about a digest that only t knows. */
  lemma SecretAloof(env: Env, s: State, a: Action, t: nat, g: Gen)
    requires Base(env, s) && Enabled(env, s, a) && NotBy(a, t) && Mine(s, t, g)
    ensures Aloof(s, a, g.digest)
  {
    if a.Send? {
      assert FrameBase(s, a.t, s.frames[a.t]);
    }
  }

  /** Whoever else acts, on other digests, the caller stays on its way, where it was. */
  lemma OtherStep(env: Env, s: State, t: nat, job: Job, a: Action)
    requires Strong(env, s) && Enabled(env, s, a) && Ready(s, t, job) && Elsewhere(s, a, t, job)
    ensures Ready(Next(s, a).0, t, job) && Next(s, a).0.frames[t] == s.frames[t]
  {
    OtherSpares(env, s, a, t, Target(job));
    if s.frames[t].Encrypting? {
      assert FrameBase(s, t, s.frames[t]);
      SecretAloof(env, s, a, t, s.frames[t].g);
      OtherSpares(env, s, a, t, s.frames[t].g.digest);
    }
  }

  // ---------- Whole calls ----------

  /** The job a call begins with. */
  function JobOf(a: Action): Job
    requires a.BeginGenerate? || a.BeginQuery? || a.BeginDelete?
  {
    match a
    case BeginGenerate(_, g) => Making(g.(origin := None))
    case BeginQuery(_, q) => Asking(q)
    case BeginDelete(_, d) => Removing(d)
  }

  /** A call that is begun, a query on a digest that fits and that nobody is deleting, is on its way. */
  lemma Begins(env: Env, s: State, a: Action)
    requires Enabled(env, s, a) && (a.BeginGenerate? || a.BeginQuery? || a.BeginDelete?)
    requires a.BeginQuery? ==> Fits(s.gens, a.q) && a.q.digest !in s.doomed
    ensures Ready(Next(s, a).0, a.t, JobOf(a))
  {
  }

  /** t's way with the job. */
  function Way(t: nat, job: Job): Course<State, Action, Output> {
    Course((a: Action) => !NotBy(a, t),
           (s: State) => Ready(s, t, job),
           (s: State) => if t in s.frames then Ahead(s.frames[t]) else 0,
           (s: State, o: Output) => Done(s, o, job))
  }

  /** Between i and j the caller's own steps work, and nobody else acts on its digest. */
  predicate Undisturbed(ss: seq<State>, acts: seq<Action>, t: nat, job: Job, i: nat, j: nat)
    requires i <= j <= |acts| < |ss|
  {
    forall k :: i <= k < j ==> Own(ss[k], t, acts[k]) || Elsewhere(ss[k], acts[k], t, job)
  }

  lemma OneMore(env: Env, s: State, a: Action, t: nat, job: Job)
    requires Strong(env, s) && Enabled(env, s, a) && Ready(s, t, job) && (Own(s, t, a) || Elsewhere(s, a, t, job))
    ensures Advances(Way(t, job), s, a, Next(s, a).1, Next(s, a).0)
  {
    if Own(s, t, a) {
      OwnStep(env, s, t, job, a);
    } else {
      OtherStep(env, s, t, job, a);
    }
  }

  lemma OneMoreInRun(
    env: Env, ss: seq<State>, acts: seq<Action>, outs: seq<Output>, k: nat, t: nat, job: Job)
    requires Run(env, ss, acts, outs) && k < |acts|
    requires Own(ss[k], t, acts[k]) || Elsewhere(ss[k], acts[k], t, job)
    ensures AdvancesAt(Way(t, job), ss, acts, outs, k)
  {
    if Ready(ss[k], t, job) {
      RunKeepsStrong(env, ss, acts, outs, k);
      assert StepAt(Steps(env), ss, acts, outs, k);
      OneMore(env, ss[k], acts[k], t, job);
    }
  }

  /**
   Completion. In every run: once a call is on its way, and as long as its own steps work and nobody
   else acts on its digest, it gets its proper answer by the time it has taken as many steps as were
   ahead of it, at most ten. A new digest is committed; a read gives the plaintext, or key and nonce;
   a Delete, and likewise a Rotate, leaves neither record nor key of the old digest and says so.
   */
  lemma CallsComplete(
    env: Env, ss: seq<State>, acts: seq<Action>, outs: seq<Output>, t: nat, job: Job, i: nat, j: nat)
    returns (k: nat)
    requires Run(env, ss, acts, outs) && i <= j < |ss| && Ready(ss[i], t, job)
    requires Undisturbed(ss, acts, t, job, i, j)
    requires OwnCount(Way(t, job), acts, i, j) >= Ahead(ss[i].frames[t])
    ensures i <= k < j && (acts[k].Send? || acts[k].Deliver?) && acts[k].t == t && Done(ss[k + 1], outs[k], job)
  {
    AllAdvance(env, ss, acts, outs, t, job, i, j);
    WayBounds(ss[i], t, job);
    WayBounds(ss[j], t, job);
    k := Arrives(Way(t, job), ss, acts, outs, i, j);
    AnswerAt(ss, acts, outs, t, job, k);
  }

  lemma AllAdvance(
    env: Env, ss: seq<State>, acts: seq<Action>, outs: seq<Output>, t: nat, job: Job, i: nat, j: nat)
    requires Run(env, ss, acts, outs) && i <= j < |ss| && Undisturbed(ss, acts, t, job, i, j)
    ensures forall k :: i <= k < j ==> AdvancesAt(Way(t, job), ss, acts, outs, k)
  {
    forall k | i <= k < j ensures AdvancesAt(Way(t, job), ss, acts, outs, k) {
      OneMoreInRun(env, ss, acts, outs, k, t, job);
    }
  }

  lemma WayBounds(s: State, t: nat, job: Job)
    ensures Way(t, job).ready(s) <==> Ready(s, t, job)
    ensures Ready(s, t, job) ==> Way(t, job).ahead(s) == Ahead(s.frames[t]) > 0
  {
  }

  lemma AnswerAt(ss: seq<State>, acts: seq<Action>, outs: seq<Output>, t: nat, job: Job, k: nat)
    requires |ss| == |acts| + 1 && |outs| == |acts| && k < |acts| && DoneAt(Way(t, job), ss, acts, outs, k)
    requires Own(ss[k], t, acts[k]) || Elsewhere(ss[k], acts[k], t, job)
    ensures (acts[k].Send? || acts[k].Deliver?) && acts[k].t == t && Done(ss[k + 1], outs[k], job)
  {
  }

  // ---------- Rollback ----------

  /** t is rolling g back, and no record of g was written. */
  predicate Rolling(s: State, t: nat, g: Gen) {
    && t in s.frames && KvName(g.digest) !in s.remote.kv
    && (|| s.frames[t] == RollProbing(g) || s.frames[t] == RollAllowing(g)
        || (s.frames[t] == RollDropping(g) && Deletable(s, g.digest)))
  }

  function RollAhead(f: Frame): nat {
    match f
    case RollProbing(_) => 3
    case RollAllowing(_) => 2
    case _ => 1
  }

  /** Wrapping or storing that fails without effect leads into the rollback. */
  lemma FailureRollsBack(env: Env, s: State, t: nat)
    requires Strong(env, s) && t in s.frames && (s.frames[t].Encrypting? || s.frames[t].Storing?)
    ensures Rolling(Next(s, Send(t, Fails)).0, t, s.frames[t].g)
  {
    assert FrameBase(s, t, s.frames[t]);
    FailureMoves(s, t);
  }

  lemma FailureMoves(s: State, t: nat)
    requires t in s.frames && (s.frames[t].Encrypting? || s.frames[t].Storing?)
    ensures Next(s, Send(t, Fails)).0 == Tick(Goto(s, t, RollProbing(s.frames[t].g)))
  {
    match s.frames[t]
    case Encrypting(g) => assert Act(s, Send(t, Fails)) == SendEncrypt(s, t, g, Fails);
    case Storing(g, w) => assert Act(s, Send(t, Fails)) == SendStore(s, t, g, w, Fails);
  }

  /** The call ends in its error, with nothing left of the digest. */
  predicate RolledBack(s: State, o: Output, g: Gen) {
    o == ErrorOut && Absent(s, g.digest)
  }

  /** Without a key there is nothing to roll back. */
  lemma RollEnds(s: State, t: nat, g: Gen)
    requires Rolling(s, t, g) && TransitName(g.digest) !in s.remote.transit
    ensures var (s', o) := Next(s, Send(t, Works)); RolledBack(s', o, g)
  {
    assert Act(s, Send(t, Works)) == SendRoll(s, t, s.frames[t], Works);
  }

  lemma RollProbeWorks(s: State, t: nat, g: Gen)
    requires t in s.frames && s.frames[t] == RollProbing(g) && TransitName(g.digest) in s.remote.transit
    ensures Next(s, Send(t, Works)).0 == Tick(Goto(s, t, RollAllowing(g)))
  {
    assert Act(s, Send(t, Works)) == SendRoll(s, t, s.frames[t], Works);
  }

  lemma RollAllowWorks(s: State, t: nat, g: Gen)
    requires t in s.frames && s.frames[t] == RollAllowing(g) && TransitName(g.digest) in s.remote.transit
    ensures Next(s, Send(t, Works)).0 ==
            Tick(Goto(s.(remote := AllowDeletion(s.remote, TransitName(g.digest))), t, RollDropping(g)))
  {
    assert Act(s, Send(t, Works)) == SendRoll(s, t, s.frames[t], Works);
  }

  lemma RollDropWorks(s: State, t: nat, g: Gen)
    requires t in s.frames && s.frames[t] == RollDropping(g) && TransitName(g.digest) in s.remote.transit
    requires Deletable(s, g.digest)
    ensures Next(s, Send(t, Works)) ==
            (Tick(Return(s.(remote := DropKey(s.remote, TransitName(g.digest))), t)), ErrorOut)
  {
    assert Act(s, Send(t, Works)) == SendRoll(s, t, s.frames[t], Works);
  }

  lemma OwnRoll(s: State, t: nat, g: Gen)
    requires Rolling(s, t, g)
    ensures var (s', o) := Next(s, Send(t, Works));
            || (Rolling(s', t, g) && RollAhead(s'.frames[t]) < RollAhead(s.frames[t]))
            || RolledBack(s', o, g)
  {
    if TransitName(g.digest) !in s.remote.transit {
      RollEnds(s, t, g);
    } else if s.frames[t].RollProbing? {
      RollProbeWorks(s, t, g);
    } else if s.frames[t].RollAllowing? {
      RollAllowWorks(s, t, g);
    } else {
      RollDropWorks(s, t, g);
    }
  }

  lemma OtherRoll(env: Env, s: State, a: Action, t: nat, g: Gen)
    requires Base(env, s) && Enabled(env, s, a) && Rolling(s, t, g) && NotBy(a, t)
    ensures Rolling(Next(s, a).0, t, g) && Next(s, a).0.frames[t] == s.frames[t]
  {
    assert FrameBase(s, t, s.frames[t]);
    SecretAloof(env, s, a, t, g);
    OtherSpares(env, s, a, t, g.digest);
  }

  function RollWay(t: nat, g: Gen): Course<State, Action, Output> {
    Course((a: Action) => !NotBy(a, t),
           (s: State) => Rolling(s, t, g),
           (s: State) => if t in s.frames then RollAhead(s.frames[t]) else 0,
           (s: State, o: Output) => RolledBack(s, o, g))
  }

  lemma RollAdvances(
    env: Env, ss: seq<State>, acts: seq<Action>, outs: seq<Output>, t: nat, g: Gen, k: nat)
    requires Run(env, ss, acts, outs) && k < |acts| && (acts[k] == Send(t, Works) || NotBy(acts[k], t))
    ensures AdvancesAt(RollWay(t, g), ss, acts, outs, k)
  {
    if Rolling(ss[k], t, g) {
      RunKeepsBase(env, ss, acts, outs, k);
      assert StepAt(Steps(env), ss, acts, outs, k);
      if NotBy(acts[k], t) {
        OtherRoll(env, ss[k], acts[k], t, g);
      } else {
        OwnRoll(ss[k], t, g);
      }
    }
  }

  lemma RollBounds(s: State, t: nat, g: Gen)
    ensures RollWay(t, g).ready(s) <==> Rolling(s, t, g)
    ensures Rolling(s, t, g) ==> 0 < RollWay(t, g).ahead(s) <= 3
  {
  }

  /**
   In every run, whatever others do: a rollback whose own requests work ends, after three of them at
   most, with the call's error and with neither record nor key of its digest left.
   */
  lemma RollbackCompletes(
    env: Env, ss: seq<State>, acts: seq<Action>, outs: seq<Output>, t: nat, g: Gen, i: nat, j: nat) returns (k: nat)
    requires Run(env, ss, acts, outs) && i <= j < |ss| && Rolling(ss[i], t, g)
    requires forall l :: i <= l < j ==> acts[l] == Send(t, Works) || NotBy(acts[l], t)
    requires OwnCount(RollWay(t, g), acts, i, j) >= 3
    ensures i <= k < j && acts[k] == Send(t, Works) && RolledBack(ss[k + 1], outs[k], g)
  {
    forall l | i <= l < j ensures AdvancesAt(RollWay(t, g), ss, acts, outs, l) {
      RollAdvances(env, ss, acts, outs, t, g, l);
    }
    RollBounds(ss[i], t, g);
    RollBounds(ss[j], t, g);
    k := Arrives(RollWay(t, g), ss, acts, outs, i, j);
    RolledBackAt(ss, acts, outs, t, g, k);
  }

  lemma RolledBackAt(ss: seq<State>, acts: seq<Action>, outs: seq<Output>, t: nat, g: Gen, k: nat)
    requires |ss| == |acts| + 1 && |outs| == |acts| && k < |acts| && DoneAt(RollWay(t, g), ss, acts, outs, k)
    ensures !NotBy(acts[k], t) && RolledBack(ss[k + 1], outs[k], g)
  {
  }
}
