/**
 Calls on the Cloud KMS machine come to their proper end: a call whose own requests work, while nobody
 begins to delete its digest, is answered as the service promises, after a bounded number of them and
 whatever other callers do meanwhile.
 */
module GcpCompletion {
  import opened Prelude
  import opened KeyService
  import opened Gcp
  import opened Paths
  import opened GcpInterleaving

  /** t is on its way with the job, and nothing stands in it. */
  predicate Ready(s: State, t: nat, job: Job) {
    && t in s.frames
    && match s.frames[t].stage
       case Fetching(q) => job == Asking(q) && Fits(s.gens, q) && q.digest !in s.doomed
       case Unwrapping(q, _, _) => job == Asking(q) && Fits(s.gens, q)
       case Wrapping(g) => Serves(job, g)
       case Creating(g) => Serves(job, g)
       case Dropping(d, r) => Removes(job, d, r)
  }

  /** How many requests the caller has at most ahead of it. */
  function Ahead(f: Frame): nat {
    match f.stage
    case Fetching(_) => 5
    case Unwrapping(_, _, _) => 4
    case Wrapping(_) => 3
    case Creating(_) => 2
    case Dropping(_, _) => 1
  }

  /** The answer the job deserves, and the state it leaves. */
  predicate Done(s: State, o: Output, job: Job) {
    match job
    case Making(g) => o == NewCid(g) && Committed(s, g)
    case Removing(d) => o == Gone(d) && DocId(d) !in s.docs
    case Asking(q) =>
      match q.purpose
      case ToDecrypt(ct) => ct.Sealed? && o.PlainOut? && o.q == q && o.plaintext == ct.plaintext
      case ToWrap(_) => q.digest in s.gens && o.EnvelopeOut? && o.q == q && o.material == Blob(s.gens[q.digest].dek)
      case ToRotate(ct) =>
        && ct.Sealed? && o.RotatedOut? && o.d == q.digest && o.oldErased && o.g.plaintext == ct.plaintext
        && Committed(s, o.g) && DocId(q.digest) !in s.docs
  }

  predicate Progress(s: State, t: nat, job: Job, s': State, o: Output)
    requires t in s.frames
  {
    (Ready(s', t, job) && Ahead(s'.frames[t]) < Ahead(s.frames[t])) || Done(s', o, job)
  }

  // ---------- The caller's own requests ----------

  lemma OwnRead(env: Env, s: State, t: nat, job: Job, spare: Gen)
    requires Inv(env, s) && Ready(s, t, job) && Enabled(env, s, Send(t, Works, spare))
    requires s.frames[t].stage.Fetching? || s.frames[t].stage.Unwrapping?
    ensures var (s', o) := Next(s, Send(t, Works, spare)); Progress(s, t, job, s', o)
  {
    var f := s.frames[t];
    assert FrameOk(s, t, f);
    match f.stage
    case Fetching(q) => FetchFinds(env, s, t, f.start, q, spare);
    case Unwrapping(q, w, at) =>
      assert DigestOk(env, s, q.digest);
      assert q.purpose.ToWrap? || Opened(q, w) == Some(q.purpose.ct.plaintext);
      assert SendNext(s, t, Works, spare) == SendUnwrap(s, t, f.start, q, w, at, Works, spare);
  }

  lemma StoredIsCommitted(env: Env, s: State, t: nat, g: Gen)
    requires Inv(env, s) && Mine(s, t, g)
    ensures forall s': State :: s'.docs == s.docs[DocId(g.digest) := WrappedDek(Blob(g.dek))] ==> Committed(s', g)
  {
    assert DigestOk(env, s, g.digest);
  }

  lemma OwnCreate(env: Env, s: State, t: nat, job: Job, spare: Gen)
    requires Inv(env, s) && Ready(s, t, job) && (s.frames[t].stage.Wrapping? || s.frames[t].stage.Creating?)
    ensures var (s', o) := Next(s, Send(t, Works, spare)); Progress(s, t, job, s', o)
  {
    var f := s.frames[t];
    assert FrameOk(s, t, f);
    if f.stage.Creating? {
      StoredIsCommitted(env, s, t, f.stage.g);
      assert SendNext(s, t, Works, spare) == SendCreate(s, t, f.start, f.stage.g, Works);
    }
  }

  lemma OwnDrop(env: Env, s: State, t: nat, job: Job, spare: Gen)
    requires Inv(env, s) && Ready(s, t, job) && s.frames[t].stage.Dropping?
    ensures var (s', o) := Next(s, Send(t, Works, spare)); Progress(s, t, job, s', o)
  {
    var f := s.frames[t];
    var d, r := f.stage.d, f.stage.replacement;
    assert SendNext(s, t, Works, spare) == SendDrop(s, t, f.start, d, r, Works);
    if r.Some? {
      ReplacementStored(env, s, t, f.start, d, r.value, Works);
    }
  }

  /** Every request of the caller's own that works brings it on, or to its proper end. */
  lemma OwnStep(env: Env, s: State, t: nat, job: Job, spare: Gen)
    requires Inv(env, s) && Ready(s, t, job) && Enabled(env, s, Send(t, Works, spare))
    ensures var (s', o) := Next(s, Send(t, Works, spare)); Progress(s, t, job, s', o)
  {
    match s.frames[t].stage
    case Dropping(_, _) => OwnDrop(env, s, t, job, spare);
    case Wrapping(_) => OwnCreate(env, s, t, job, spare);
    case Creating(_) => OwnCreate(env, s, t, job, spare);
    case _ => OwnRead(env, s, t, job, spare);
  }

  // ---------- The others' steps ----------

  /** The action begins no deletion of d. */
  predicate Aloof(s: State, a: Action, d: Digest) {
    match a
    case BeginDelete(_, e) => e != d
    case Send(u, _, _) =>
      u in s.frames &&
      (s.frames[u].stage.Creating? && s.frames[u].stage.g.origin.Some? ==>
         s.frames[u].stage.g.origin.value.query.digest != d)
    case _ => true
  }

  predicate Elsewhere(s: State, a: Action, t: nat, job: Job) {
    a.t != t && Aloof(s, a, Target(job))
  }

  predicate Spared(s: State, s': State, t: nat, e: Digest) {
    && (t in s.frames ==> t in s'.frames && s'.frames[t] == s.frames[t])
    && (e in s.gens ==> e in s'.gens && s'.gens[e] == s.gens[e])
    && (e !in s.doomed ==> e !in s'.doomed)
  }

  lemma CreateSpares(s: State, u: nat, start: nat, g: Gen, fault: Fault, t: nat, e: Digest)
    requires u != t && (g.origin.Some? ==> g.origin.value.query.digest != e)
    ensures Spared(s, SendCreate(s, u, start, g, fault).0, t, e)
  {
  }

  lemma UnwrapSpares(s: State, u: nat, start: nat, q: Query, w: WrappedDek, at: nat, fault: Fault, spare: Gen,
                     t: nat, e: Digest)
    requires u != t && (e in s.gens ==> spare.digest != e || !Rotates(Unwrapping(q, w, at), fault))
    ensures Spared(s, SendUnwrap(s, u, start, q, w, at, fault, spare).0, t, e)
  {
  }

  lemma DropSpares(s: State, u: nat, start: nat, d: Digest, r: Option<Gen>, fault: Fault, t: nat, e: Digest)
    requires u != t
    ensures Spared(s, SendDrop(s, u, start, d, r, fault).0, t, e)
  {
  }

  lemma SendSpares(env: Env, s: State, a: Action, t: nat, e: Digest)
    requires Inv(env, s) && Enabled(env, s, a) && a.Send? && a.t != t && Aloof(s, a, e)
    ensures Spared(s, SendNext(s, a.t, a.fault, a.spare).0, t, e)
  {
    var f := s.frames[a.t];
    assert DigestOk(env, s, e);
    match f.stage
    case Wrapping(_) =>
    case Fetching(_) =>
    case Creating(g) => CreateSpares(s, a.t, f.start, g, a.fault, t, e);
    case Unwrapping(q, w, at) => UnwrapSpares(s, a.t, f.start, q, w, at, a.fault, a.spare, t, e);
    case Dropping(d, r) => DropSpares(s, a.t, f.start, d, r, a.fault, t, e);
  }

  lemma OtherStep(env: Env, s: State, t: nat, job: Job, a: Action)
    requires Inv(env, s) && Enabled(env, s, a) && Ready(s, t, job) && Elsewhere(s, a, t, job)
    ensures Ready(Next(s, a).0, t, job) && Next(s, a).0.frames[t] == s.frames[t]
  {
    assert DigestOk(env, s, Target(job));
    if a.Send? {
      SendSpares(env, s, a, t, Target(job));
      assert Next(s, a).0 == Tick(SendNext(s, a.t, a.fault, a.spare).0);
    }
  }

  // ---------- Whole calls ----------

  /** A call that is begun, a query on a digest that fits and that nobody is deleting, is on its way. */
  lemma Begins(env: Env, s: State, a: Action)
    requires Enabled(env, s, a) && !a.Send?
    requires a.BeginQuery? ==> Fits(s.gens, a.q) && a.q.digest !in s.doomed
    ensures var job := match a {
              case BeginGenerate(_, g) => Making(g.(origin := None))
              case BeginQuery(_, q) => Asking(q)
              case BeginDelete(_, d) => Removing(d) };
            Ready(Next(s, a).0, a.t, job)
  {
  }

  function Way(t: nat, job: Job): Course<State, Action, Output> {
    Course((a: Action) => a.t == t,
           (s: State) => Ready(s, t, job),
           (s: State) => if t in s.frames then Ahead(s.frames[t]) else 0,
           (s: State, o: Output) => Done(s, o, job))
  }

  predicate Own(t: nat, a: Action) {
    a.Send? && a.t == t && a.fault == Works
  }

  /** Between i and j the caller's own requests work, and nobody else begins to delete its digest. */
  predicate Undisturbed(ss: seq<State>, acts: seq<Action>, t: nat, job: Job, i: nat, j: nat)
    requires i <= j <= |acts| < |ss|
  {
    forall k :: i <= k < j ==> Own(t, acts[k]) || Elsewhere(ss[k], acts[k], t, job)
  }

  lemma OneMoreInRun(
    env: Env, ss: seq<State>, acts: seq<Action>, outs: seq<Output>, k: nat, t: nat, job: Job)
    requires Run(env, ss, acts, outs) && k < |acts|
    requires Own(t, acts[k]) || Elsewhere(ss[k], acts[k], t, job)
    ensures AdvancesAt(Way(t, job), ss, acts, outs, k)
  {
    if Ready(ss[k], t, job) {
      RunKeepsInv(env, ss, acts, outs, k);
      assert StepAt(Steps(env), ss, acts, outs, k);
      if Own(t, acts[k]) {
        OwnStep(env, ss[k], t, job, acts[k].spare);
      } else {
        OtherStep(env, ss[k], t, job, acts[k]);
      }
    }
  }

  lemma AllAdvance(
    env: Env, ss: seq<State>, acts: seq<Action>, outs: seq<Output>, t: nat, job: Job, i: nat, j: nat)
    requires Run(env, ss, acts, outs) && i <= j < |ss| && Undisturbed(ss, acts, t, job, i, j)
    ensures forall k :: i <= k < j ==> AdvancesAt(Way(t, job), ss, acts, outs, k)
  {
    forall k | i <= k < j ensures AdvancesAt(Way(t, job), ss, acts, outs, k) {
      OneMoreInRun(env, ss, acts, outs, k, t, job);
    }
  }

  lemma WayBounds(s: State, t: nat, job: Job)
    ensures Way(t, job).ready(s) <==> Ready(s, t, job)
    ensures Ready(s, t, job) ==> Way(t, job).ahead(s) == Ahead(s.frames[t]) > 0
  {
  }

  lemma AnswerAt(ss: seq<State>, acts: seq<Action>, outs: seq<Output>, t: nat, job: Job, k: nat)
    requires |ss| == |acts| + 1 && |outs| == |acts| && k < |acts| && DoneAt(Way(t, job), ss, acts, outs, k)
    requires Own(t, acts[k]) || Elsewhere(ss[k], acts[k], t, job)
    ensures Own(t, acts[k]) && Done(ss[k + 1], outs[k], job)
  {
  }

  /**
   Completion. In every run: once a call is on its way, and as long as its own requests work and nobody
   else begins to delete its digest, it gets its proper answer by the time it has sent as many as were
   ahead of it, at most five.
   */
  lemma CallsComplete(
    env: Env, ss: seq<State>, acts: seq<Action>, outs: seq<Output>, t: nat, job: Job, i: nat, j: nat)
    returns (k: nat)
    requires Run(env, ss, acts, outs) && i <= j < |ss| && Ready(ss[i], t, job)
    requires Undisturbed(ss, acts, t, job, i, j)
    requires OwnCount(Way(t, job), acts, i, j) >= Ahead(ss[i].frames[t])
    ensures i <= k < j && Own(t, acts[k]) && Done(ss[k + 1], outs[k], job)
  {
    AllAdvance(env, ss, acts, outs, t, job, i, j);
    WayBounds(ss[i], t, job);
    WayBounds(ss[j], t, job);
    k := Arrives(Way(t, job), ss, acts, outs, i, j);
    AnswerAt(ss, acts, outs, t, job, k);
  }
}
