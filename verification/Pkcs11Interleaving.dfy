/**
 Concurrent callers of the PKCS#11 backend. The mutex makes every lock section one step. Rotate has
 three sections, and the sections of other callers may come between them.
 */
module Pkcs11Interleaving {
  import opened Prelude
  import opened KeyService
  import opened Pkcs11

  /** A Rotate whose first section, step number readAt, read the plaintext. */
  datatype Rotation = Rotation(digest: Digest, ct: Ciphertext, dek: Material, plaintext: bytes, readAt: nat)

  /** Between sections a Rotate is about to generate or about to delete. */
  datatype Stage = Sealing(job: Rotation) | Erasing(job: Rotation)

  type Pending = map<nat, Stage>

  datatype State = State(ledger: Ledger, pending: Pending, clock: nat)

  datatype Section =
    | Single(call: Call)  // a call that is one section: anything but Rotate
    | First(t: nat, digest: Digest, ct: Ciphertext, dek: Material)
    | Second(t: nat)
    | Third(t: nat)

  function Replacement(env: Env, job: Rotation): Digest {
    NewDigest(env, job.dek, job.plaintext)
  }

  /** The digest of a replacement that its Rotate has not returned yet. */
  predicate Hidden(env: Env, pending: Pending, d: Digest) {
    exists t :: t in pending && pending[t].Erasing? && Replacement(env, pending[t].job) == d
  }

  /** Callers cannot name hidden digests, and randomness is fresh. */
  predicate Enabled(env: Env, s: State, a: Section) {
    match a
    case Single(c) => !c.Rotate? && FreshCall(env, s.ledger, c) && (c.Generate? || !Hidden(env, s.pending, c.digest))
    case First(t, d, _, dek) => t !in s.pending && GoodMaterial(dek) && !Hidden(env, s.pending, d)
    case Second(t) =>
      && t in s.pending && s.pending[t].Sealing? && GoodMaterial(s.pending[t].job.dek)
      && Unused(s.ledger, Replacement(env, s.pending[t].job))
    case Third(t) => t in s.pending && s.pending[t].Erasing?
  }

  /** What the section does to the token, as a call. */
  function CallOf(pending: Pending, a: Section): Call
    requires a.Second? || a.Third? ==> a.t in pending
  {
    match a
    case Single(c) => c
    case First(_, d, ct, _) => Decrypt(d, ct)
    case Second(t) => Generate(pending[t].job.plaintext, pending[t].job.dek)
    case Third(t) => Delete(pending[t].job.digest)
  }

  /** What is pending after the section reported o. */
  function After(pending: Pending, clock: nat, a: Section, o: Outcome): Pending
    requires a.Second? || a.Third? ==> a.t in pending
  {
    match a
    case Single(_) => pending
    case First(t, d, ct, dek) =>
      if o.Plain? then pending[t := Sealing(Rotation(d, ct, dek, o.plaintext, clock))] else pending
    case Second(t) => if o.Generated? then pending[t := Erasing(pending[t].job)] else pending - {t}
    case Third(t) => pending - {t}
  }

  ghost predicate Legal(env: Env, s: State, a: Section, r: Record, s': State) {
    && Enabled(env, s, a) && r.call == CallOf(s.pending, a)
    && Step(env, s.ledger, r.call, r.outcome, s'.ledger, r.faults)
    && s'.pending == After(s.pending, s.clock, a, r.outcome) && s'.clock == s.clock + 1
  }

  /** One section on the backend itself, whatever fails, is a legal step. */
  method Perform(p: Service, pending: Pending, clock: nat, a: Section) returns (r: Record, pending': Pending)
    requires p.Valid() && Enabled(p.env, State(p.ledger, pending, clock), a)
    modifies p, p.token
    ensures p.Valid()
    ensures Legal(p.env, State(old(p.ledger), pending, clock), a, r, State(p.ledger, pending', clock + 1))
  {
    var failures := p.token.failures;
    var c := CallOf(pending, a);
    var o := p.Serve(c);
    r := Record(c, o, Faults(!p.open || p.token.failures > failures, false));
    pending' := After(pending, clock, a, o);
  }

  ghost predicate Run(env: Env, ss: seq<State>, acts: seq<Section>, rs: seq<Record>) {
    && |ss| == |acts| + 1 && |rs| == |acts|
    && WellFormed(ss[0].ledger) && ss[0].pending == map[] && ss[0].clock == 0
    && forall i :: 0 <= i < |acts| ==> Legal(env, ss[i], acts[i], rs[i], ss[i + 1])
  }

  function Ledgers(ss: seq<State>): (ls: seq<Ledger>)
    ensures |ls| == |ss| && forall i :: 0 <= i < |ss| ==> ls[i] == ss[i].ledger
  {
    seq(|ss|, i requires 0 <= i < |ss| => ss[i].ledger)
  }

  /** Every interleaving of lock sections is a trace of the abstract service. */
  lemma RunIsTrace(env: Env, ss: seq<State>, acts: seq<Section>, rs: seq<Record>)
    requires Run(env, ss, acts, rs)
    ensures Trace(env, Ledgers(ss), rs)
  {
    forall i | 0 <= i < |rs| ensures Served(env, Ledgers(ss), rs, i) {
      assert Legal(env, ss[i], acts[i], rs[i], ss[i + 1]);
    }
  }

  /** A pending Rotate holds what its own first section read. */
  lemma {:induction false} PendingWasRead(
    env: Env, ss: seq<State>, acts: seq<Section>, rs: seq<Record>, n: nat, t: nat)
    requires Run(env, ss, acts, rs) && n < |ss| && t in ss[n].pending
    ensures ss[n].clock == n
    ensures var job := ss[n].pending[t].job;
            && job.readAt < n
            && rs[job.readAt].call == Decrypt(job.digest, job.ct) && rs[job.readAt].outcome == Plain(job.plaintext)
  {
    var m := n - 1;
    assert n > 0;
    assert Legal(env, ss[m], acts[m], rs[m], ss[n]);
    ClockCounts(env, ss, acts, rs, m);
    if t in ss[m].pending {
      PendingWasRead(env, ss, acts, rs, m, t);
    }
  }

  lemma {:induction false} ClockCounts(env: Env, ss: seq<State>, acts: seq<Section>, rs: seq<Record>, n: nat)
    requires Run(env, ss, acts, rs) && n < |ss|
    ensures ss[n].clock == n
  {
    if n > 0 {
      ClockCounts(env, ss, acts, rs, n - 1);
      assert Legal(env, ss[n - 1], acts[n - 1], rs[n - 1], ss[n]);
    }
  }

  /**
   Erasure is permanent under every interleaving of lock sections: after an acknowledged deletion
   of d no section reads d, and a Rotate of d that still goes on had read it before.
   */
  lemma ErasureIsPermanent(
    env: Env, ss: seq<State>, acts: seq<Section>, rs: seq<Record>, i: nat, j: nat, d: Digest)
    requires Run(env, ss, acts, rs) && i < j < |rs| && Erases(rs[i], d)
    ensures !Reveals(rs[j], d)
    ensures forall t :: t in ss[j].pending && ss[j].pending[t].job.digest == d ==> ss[j].pending[t].job.readAt < i
  {
    RunIsTrace(env, ss, acts, rs);
    KeyService.ErasureIsPermanent(env, Ledgers(ss), rs, i, j, d);
    forall t | t in ss[j].pending && ss[j].pending[t].job.digest == d
      ensures ss[j].pending[t].job.readAt < i
    {
      PendingWasRead(env, ss, acts, rs, j, t);
      var k := ss[j].pending[t].job.readAt;
      if i < k {
        KeyService.ErasureIsPermanent(env, Ledgers(ss), rs, i, k, d);
      }
    }
  }

  // ---------- Rotate never erases early ----------

  /** A replacement is live under its own DEK, and nobody is about to delete it. */
  predicate JobOk(env: Env, s: State, t: nat)
    requires t in s.pending
  {
    var job := s.pending[t].job;
    && !Unused(s.ledger, job.digest)
    && (s.pending[t].Erasing? ==>
          && Replacement(env, job) in s.ledger.live && s.ledger.live[Replacement(env, job)] == job.dek
          && forall u :: u in s.pending ==> s.pending[u].job.digest != Replacement(env, job))
  }

  ghost predicate Inv(env: Env, s: State) {
    WellFormed(s.ledger) && forall t :: t in s.pending ==> JobOk(env, s, t)
  }

  lemma UsedStaysUsed(env: Env, l: Ledger, c: Call, o: Outcome, l': Ledger, f: Faults, d: Digest)
    requires Step(env, l, c, o, l', f) && !Unused(l, d)
    ensures !Unused(l', d)
  {
  }

  lemma JobKept(env: Env, s: State, a: Section, r: Record, s': State, t: nat)
    requires Inv(env, s) && Legal(env, s, a, r, s') && t in s.pending && t in s'.pending
             && s'.pending[t] == s.pending[t]
    ensures JobOk(env, s', t)
  {
    var job := s.pending[t].job;
    assert JobOk(env, s, t);
    UsedStaysUsed(env, s.ledger, r.call, r.outcome, s'.ledger, r.faults, job.digest);
    if s.pending[t].Erasing? {
      assert Hidden(env, s.pending, Replacement(env, job));
      OthersSurvive(env, s.ledger, r.call, r.outcome, s'.ledger, r.faults, Replacement(env, job));
    }
  }

  lemma LegalKeepsInv(env: Env, s: State, a: Section, r: Record, s': State)
    requires Inv(env, s) && Legal(env, s, a, r, s')
    ensures Inv(env, s')
  {
    StepKeepsWellFormed(env, s.ledger, r.call, r.outcome, s'.ledger, r.faults);
    forall t | t in s'.pending ensures JobOk(env, s', t) {
      if t in s.pending && s'.pending[t] == s.pending[t] {
        JobKept(env, s, a, r, s', t);
      } else if a.Second? {
        SealedJobOk(env, s, a, r, s');
      }
    }
  }

  lemma SealedJobOk(env: Env, s: State, a: Section, r: Record, s': State)
    requires Inv(env, s) && Legal(env, s, a, r, s') && a.Second? && r.outcome.Generated?
    ensures JobOk(env, s', a.t)
  {
    forall u | u in s'.pending
      ensures s'.pending[u].job.digest != Replacement(env, s.pending[a.t].job)
              && !Unused(s'.ledger, s'.pending[u].job.digest)
    {
      assert JobOk(env, s, u);
      UsedStaysUsed(env, s.ledger, r.call, r.outcome, s'.ledger, r.faults, s'.pending[u].job.digest);
    }
  }

  lemma {:induction false} RunKeepsInv(env: Env, ss: seq<State>, acts: seq<Section>, rs: seq<Record>, n: nat)
    requires Run(env, ss, acts, rs) && n < |ss|
    ensures Inv(env, ss[n])
  {
    if n > 0 {
      RunKeepsInv(env, ss, acts, rs, n - 1);
      LegalKeepsInv(env, ss[n - 1], acts[n - 1], rs[n - 1], ss[n]);
    }
  }

  /**
   In every run, whoever is between them: when a Rotate is about to delete the old digest, and again
   after it did or failed to, its replacement decrypts to the plaintext that was read under the old one.
   */
  lemma RotateNeverErasesEarly(env: Env, ss: seq<State>, acts: seq<Section>, rs: seq<Record>, n: nat)
    requires Run(env, ss, acts, rs) && n < |rs| && acts[n].Third?
    ensures acts[n].t in ss[n].pending
    ensures var job := ss[n].pending[acts[n].t].job;
            var again := Decrypt(Replacement(env, job), SealedFor(job.dek, job.plaintext));
            && job.readAt < n && rs[job.readAt].call == Decrypt(job.digest, job.ct)
            && rs[job.readAt].outcome == Plain(job.plaintext)
            && Read(env, ss[n].ledger.live, again) == Plain(job.plaintext)
            && Read(env, ss[n + 1].ledger.live, again) == Plain(job.plaintext)
  {
    assert Legal(env, ss[n], acts[n], rs[n], ss[n + 1]);
    var t := acts[n].t;
    var job := ss[n].pending[t].job;
    PendingWasRead(env, ss, acts, rs, n, t);
    RunKeepsInv(env, ss, acts, rs, n);
    RunKeepsInv(env, ss, acts, rs, n + 1);
    assert JobOk(env, ss[n], t);
    OthersSurvive(env, ss[n].ledger, rs[n].call, rs[n].outcome, ss[n + 1].ledger, rs[n].faults, Replacement(env, job));
  }

  /** And its earlier sections, failed or not, take nothing away from anyone. */
  lemma EarlierSectionsSpare(env: Env, s: State, a: Section, r: Record, s': State, d: Digest)
    requires Inv(env, s) && Legal(env, s, a, r, s') && (a.First? || a.Second?) && d in s.ledger.live
    ensures d in s'.ledger.live && s'.ledger.live[d] == s.ledger.live[d]
  {
    OthersSurvive(env, s.ledger, r.call, r.outcome, s'.ledger, r.faults, d);
  }

  /**
   And each section does its part when nothing fails: the first reads, the second makes the
   replacement, the third erases the old digest and says so.
   */
  lemma SectionsComplete(env: Env, s: State, a: Section, r: Record, s': State)
    requires Inv(env, s) && Legal(env, s, a, r, s') && !r.faults.request
    ensures a.Single? ==> s'.pending == s.pending
    ensures a.First? && a.digest in s.ledger.live && a.ct.Sealed?
            && a.ct == SealedFor(s.ledger.live[a.digest], a.ct.plaintext) ==>
              s'.pending == s.pending[a.t := Sealing(Rotation(a.digest, a.ct, a.dek, a.ct.plaintext, s.clock))]
    ensures a.Second? ==>
              var job := s.pending[a.t].job;
              && s'.pending == s.pending[a.t := Erasing(job)]
              && r.outcome == Generated(Replacement(env, job), SealedFor(job.dek, job.plaintext))
    ensures a.Third? ==>
              var d := s.pending[a.t].job.digest;
              s'.pending == s.pending - {a.t} && r.outcome == Deleted && d !in s'.ledger.live && d in s'.ledger.erased
  {
    FaultFreeStep(env, s.ledger, r.call, r.outcome, s'.ledger, r.faults);
  }

  /** A section that fails is the last of its Rotate. */
  lemma FailureEnds(env: Env, s: State, a: Section, r: Record, s': State)
    requires Legal(env, s, a, r, s') && r.outcome.Failed? && !a.Single?
    ensures a.t !in s'.pending
  {
  }
}
