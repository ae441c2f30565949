/**
 The artifact key service as its callers see it: symbolic cryptography, the record of which
 digests can be decrypted, and what one call may do to that record when requests can fail.
 */
module KeyService {
  import opened Prelude

  const KEY_SIZE: nat := 32
  const NONCE_SIZE: nat := 12

  type Digest = bytes

  /** AES-GCM output is kept symbolic: it opens under its own key and nonce and nothing else. */
  datatype Ciphertext = Sealed(key: bytes, nonce: bytes, plaintext: bytes) | Foreign(raw: bytes)

  datatype Envelope = Envelope(recipient: bytes, material: bytes)

  datatype Material = Material(key: bytes, nonce: bytes)

  predicate GoodMaterial(m: Material) {
    |m.key| == KEY_SIZE && |m.nonce| == NONCE_SIZE
  }

  /** key || nonce, the blob that is wrapped and that a recipient receives. */
  function Blob(m: Material): (b: bytes)
    ensures GoodMaterial(m) ==> |b| == KEY_SIZE + NONCE_SIZE && b[..KEY_SIZE] == m.key && b[KEY_SIZE..] == m.nonce
  {
    m.key + m.nonce
  }

  /** Lengths are checked first, as aesGCMOpen does before it calls the library. */
  function Open(key: bytes, nonce: bytes, ct: Ciphertext): Option<bytes> {
    if |key| !in [16, 24, 32] || |nonce| != NONCE_SIZE then None
    else if ct.Sealed? && ct.key == key && ct.nonce == nonce then Some(ct.plaintext)
    else None
  }

  /** Content hashing and recipient-key parsing, supplied by the SDK. */
  datatype Env = Env(hash: Ciphertext -> Digest, validRecipient: bytes -> bool)

  datatype Error = KeyNotFound | CiphertextMismatch | InvalidRecipient | Unavailable | Other

  /** The randomness a generating call draws is part of the call. */
  datatype Call =
    | Generate(plaintext: bytes, dek: Material)
    | Wrap(digest: Digest, recipient: bytes)
    | Decrypt(digest: Digest, ct: Ciphertext)
    | Rotate(digest: Digest, ct: Ciphertext, dek: Material)
    | Delete(digest: Digest)

  datatype Outcome =
    | Generated(digest: Digest, ct: Ciphertext)
    | Wrapped(envelope: Envelope)
    | Plain(plaintext: bytes)
    | Deleted
    | NotErased(digest: Digest, ct: Ciphertext, error: Error)  // rotated, but the old key could not be deleted
    | Failed(error: Error)

  type Records = map<Digest, Material>

  // ---------- The service without faults ----------

  function SealedFor(dek: Material, plaintext: bytes): Ciphertext {
    Sealed(dek.key, dek.nonce, plaintext)
  }

  function NewDigest(env: Env, dek: Material, plaintext: bytes): Digest {
    env.hash(SealedFor(dek, plaintext))
  }

  /** The two calls that only read. */
  function Read(env: Env, live: Records, c: Call): Outcome
    requires c.Wrap? || c.Decrypt?
  {
    if c.Wrap? && (c.recipient == [] || !env.validRecipient(c.recipient)) then Failed(InvalidRecipient)
    else if c.digest !in live then Failed(KeyNotFound)
    else
      var m := live[c.digest];
      if c.Wrap? then Wrapped(Envelope(c.recipient, Blob(m)))
      else
        match Open(m.key, m.nonce, c.ct)
        case Some(pt) => Plain(pt)
        case None => Failed(CiphertextMismatch)
  }

  /** Only the text sealed under that very key and nonce opens, and to the very plaintext. */
  lemma OpenExactly(key: bytes, nonce: bytes, ct: Ciphertext, pt: bytes)
    requires |key| == KEY_SIZE && |nonce| == NONCE_SIZE
    ensures Open(key, nonce, ct) == Some(pt) <==> ct == Sealed(key, nonce, pt)
  {
  }

  /** Each outcome of a read, and exactly when it is given. */
  lemma ReadExactly(env: Env, live: Records, d: Digest, ct: Ciphertext, recipient: bytes)
    requires forall e :: e in live ==> GoodMaterial(live[e])
    ensures forall pt :: Read(env, live, Decrypt(d, ct)) == Plain(pt) <==> d in live && ct == SealedFor(live[d], pt)
    ensures Read(env, live, Decrypt(d, ct)) == Failed(KeyNotFound) <==> d !in live
    ensures Read(env, live, Decrypt(d, ct)) == Failed(CiphertextMismatch) <==>
              d in live && forall pt :: ct != SealedFor(live[d], pt)
    ensures var valid := recipient != [] && env.validRecipient(recipient);
            var o := Read(env, live, Wrap(d, recipient));
            && (o == Failed(InvalidRecipient) <==> !valid)
            && (o == Failed(KeyNotFound) <==> valid && d !in live)
            && (valid && d in live ==>
                  && o.Wrapped? && o.envelope.recipient == recipient && |o.envelope.material| == 44
                  && o.envelope.material == live[d].key + live[d].nonce)
  {
    if d in live && Read(env, live, Decrypt(d, ct)) == Failed(CiphertextMismatch) {
      forall pt ensures ct != SealedFor(live[d], pt) {
        OpenExactly(live[d].key, live[d].nonce, ct, pt);
      }
    }
  }

  /** The abstract service: a map from digest to key and nonce, and nothing else. */
  function Apply(env: Env, live: Records, c: Call): (Records, Outcome) {
    match c
    case Generate(pt, dek) =>
      var d := NewDigest(env, dek, pt);
      (live[d := dek], Generated(d, SealedFor(dek, pt)))
    case Delete(d) => (live - {d}, Deleted)
    case Rotate(d, ct, dek) => (
      match Read(env, live, Decrypt(d, ct))
      case Plain(pt) =>
        var d' := NewDigest(env, dek, pt);
        (live[d' := dek] - {d}, Generated(d', SealedFor(dek, pt)))
      case o => (live, o))
    case _ => (live, Read(env, live, c))
  }

  // ---------- One call with faults ----------

  /**
   live: digests that decrypt. stranded: digests whose record is gone or was never written but
   whose key object remains. erased: digests whose deletion was acknowledged.
   */
  datatype Ledger = Ledger(live: Records, stranded: set<Digest>, erased: set<Digest>)

  predicate WellFormed(l: Ledger) {
    && (forall d :: d in l.live ==> GoodMaterial(l.live[d]))
    && l.live.Keys !! l.stranded && l.live.Keys !! l.erased && l.stranded !! l.erased
  }

  predicate Unused(l: Ledger, d: Digest) {
    d !in l.live && d !in l.stranded && d !in l.erased
  }

  /** Randomness is fresh: the digest a generating call is about to make was never used. */
  predicate FreshCall(env: Env, l: Ledger, c: Call) {
    match c
    case Generate(pt, dek) => GoodMaterial(dek) && Unused(l, NewDigest(env, dek, pt))
    case Rotate(d, ct, dek) =>
      && GoodMaterial(dek)
      && (match Read(env, l.live, Decrypt(d, ct))
          case Plain(pt) => Unused(l, NewDigest(env, dek, pt))
          case _ => true)
    case _ => true
  }

  /** What went wrong during a call: some request failed; a request that was to remove a key failed. */
  datatype Faults = Faults(request: bool, cleanup: bool)

  /** An error that says nothing about the digest. */
  predicate Outage(e: Error) { e == Unavailable || e == Other }

  /** What generating digest d may do: commit it, or fail, leaving a key behind iff its rollback failed. */
  predicate GenerateStep(env: Env, l: Ledger, pt: bytes, dek: Material, o: Outcome, l': Ledger, f: Faults) {
    var d := NewDigest(env, dek, pt);
    || (o == Generated(d, SealedFor(dek, pt)) && l' == l.(live := l.live[d := dek]))
    || (f.request && o.Failed? && Outage(o.error) && l' == if f.cleanup then l.(stranded := l.stranded + {d}) else l)
  }

  /** What deleting d may do: erase it entirely, or fail, losing the record alone iff removing the key failed. */
  predicate DeleteStep(l: Ledger, d: Digest, ok: bool, l': Ledger, f: Faults) {
    || (ok && l' == Ledger(l.live - {d}, l.stranded - {d}, l.erased + {d}))
    || (&& f.request && !ok
        && l' == if f.cleanup && d in l.live then l.(live := l.live - {d}, stranded := l.stranded + {d}) else l)
  }

  /**
   Rotation after the new record is in: only then may the old one be touched. A mismatch may be
   reported although the ciphertext fits, because a token error during decryption counts as one.
   */
  predicate RotateStep(
    env: Env, l: Ledger, d: Digest, pt: bytes, dek: Material, o: Outcome, l': Ledger, f: Faults)
  {
    var d' := NewDigest(env, dek, pt);
    var mid := l.(live := l.live[d' := dek]);
    || (&& f.request && o.Failed? && (Outage(o.error) || o.error == CiphertextMismatch)
        && l' == if f.cleanup then l.(stranded := l.stranded + {d'}) else l)
    || (o == Generated(d', SealedFor(dek, pt)) && DeleteStep(mid, d, true, l', f))
    || (&& o.NotErased? && o.digest == d' && o.ct == SealedFor(dek, pt) && Outage(o.error)
        && DeleteStep(mid, d, false, l', f))
  }

  /** An error that does say something about recipient or digest is true, whatever failed. */
  predicate Honest(env: Env, l: Ledger, c: Call, e: Error)
    requires c.Wrap? || c.Decrypt?
  {
    match e
    case KeyNotFound => c.digest !in l.live
    case CiphertextMismatch => c.Decrypt? && c.digest in l.live
    case InvalidRecipient => c.Wrap? && (c.recipient == [] || !env.validRecipient(c.recipient))
    case _ => true
  }

  predicate ReadStep(env: Env, l: Ledger, c: Call, o: Outcome, l': Ledger, f: Faults)
    requires c.Wrap? || c.Decrypt?
  {
    l' == l && (o == Read(env, l.live, c) || (f.request && o.Failed? && Honest(env, l, c, o.error)))
  }

  /** Every backend implements this relation. */
  predicate Step(env: Env, l: Ledger, c: Call, o: Outcome, l': Ledger, f: Faults) {
    match c
    case Generate(pt, dek) => GenerateStep(env, l, pt, dek, o, l', f)
    case Delete(d) =>
      (o == Deleted || (o.Failed? && Outage(o.error))) && DeleteStep(l, d, o == Deleted, l', f)
    case Rotate(d, ct, dek) => (
      match Read(env, l.live, Decrypt(d, ct))
      case Plain(pt) => RotateStep(env, l, d, pt, dek, o, l', f)
      case _ => ReadStep(env, l, Decrypt(d, ct), o, l', f))
    case _ => ReadStep(env, l, c, o, l', f)
  }

  lemma StepKeepsWellFormed(env: Env, l: Ledger, c: Call, o: Outcome, l': Ledger, f: Faults)
    requires WellFormed(l) && FreshCall(env, l, c) && Step(env, l, c, o, l', f)
    ensures WellFormed(l') && l.erased <= l'.erased
  {
  }

  /** The digest a call erases when nothing fails. */
  function ErasedBy(env: Env, l: Ledger, c: Call): set<Digest> {
    if c.Delete? || (c.Rotate? && Read(env, l.live, Decrypt(c.digest, c.ct)).Plain?) then {c.digest} else {}
  }

  function Advance(env: Env, l: Ledger, c: Call): Ledger {
    Ledger(Apply(env, l.live, c).0, l.stranded - ErasedBy(env, l, c), l.erased + ErasedBy(env, l, c))
  }

  /** Without faults the relation leaves no choice: it is the abstract service. */
  lemma FaultFreeStep(env: Env, l: Ledger, c: Call, o: Outcome, l': Ledger, f: Faults)
    requires WellFormed(l) && FreshCall(env, l, c) && Step(env, l, c, o, l', f) && !f.request
    ensures (l'.live, o) == Apply(env, l.live, c) && l' == Advance(env, l, c)
  {
  }

  /** A retried delete succeeds as soon as no request fails, whatever state the failures left. */
  lemma DeleteRetrySucceeds(env: Env, l: Ledger, d: Digest, o: Outcome, l': Ledger, f: Faults)
    requires Step(env, l, Delete(d), o, l', f) && !f.request
    ensures o == Deleted && d !in l'.live && d !in l'.stranded
  {
  }

  /** Whatever fails during a rotation, the plaintext stays reachable under the old or the new digest. */
  lemma RotateNeverLoses(env: Env, l: Ledger, d: Digest, ct: Ciphertext, dek: Material, o: Outcome, l': Ledger,
      f: Faults)
    requires WellFormed(l) && FreshCall(env, l, Rotate(d, ct, dek)) && Step(env, l, Rotate(d, ct, dek), o, l', f)
    requires Read(env, l.live, Decrypt(d, ct)).Plain?
    ensures var pt := Read(env, l.live, Decrypt(d, ct)).plaintext;
            && (o.Failed? ==> Read(env, l'.live, Decrypt(d, ct)) == Plain(pt))
            && (o.Generated? || o.NotErased? ==>
                  o.digest != d && Read(env, l'.live, Decrypt(o.digest, o.ct)) == Plain(pt))
            && (o.Generated? ==> d in l'.erased)
            && (o.Failed? || o.Generated? || o.NotErased?)
  {
  }

  // ---------- Runs ----------

  datatype Record = Record(call: Call, outcome: Outcome, faults: Faults)

  predicate Served(env: Env, ls: seq<Ledger>, rs: seq<Record>, i: nat)
    requires |ls| == |rs| + 1 && i < |rs|
  {
    FreshCall(env, ls[i], rs[i].call) && Step(env, ls[i], rs[i].call, rs[i].outcome, ls[i + 1], rs[i].faults)
  }

  /** A sequential run: ledgers between calls, and the calls with their outcomes. */
  ghost predicate Trace(env: Env, ls: seq<Ledger>, rs: seq<Record>) {
    && |ls| == |rs| + 1 && WellFormed(ls[0])
    && forall i :: 0 <= i < |rs| ==> Served(env, ls, rs, i)
  }

  lemma {:induction false} TraceWellFormed(env: Env, ls: seq<Ledger>, rs: seq<Record>, i: nat)
    requires Trace(env, ls, rs) && i < |ls|
    ensures WellFormed(ls[i])
    ensures i > 0 ==> ls[i - 1].erased <= ls[i].erased
  {
    if i > 0 {
      var r := rs[i - 1];
      TraceWellFormed(env, ls, rs, i - 1);
      assert Served(env, ls, rs, i - 1);
      StepKeepsWellFormed(env, ls[i - 1], r.call, r.outcome, ls[i], r.faults);
    }
  }

  lemma {:induction false} ErasedStays(env: Env, ls: seq<Ledger>, rs: seq<Record>, i: nat, j: nat)
    requires Trace(env, ls, rs) && i <= j < |ls|
    ensures ls[i].erased <= ls[j].erased
    decreases j
  {
    if i < j {
      ErasedStays(env, ls, rs, i, j - 1);
      TraceWellFormed(env, ls, rs, j);
    }
  }

  /** The caller was told that d is gone. */
  predicate Erases(r: Record, d: Digest) {
    (r.call == Delete(d) && r.outcome == Deleted) || (r.call.Rotate? && r.call.digest == d && r.outcome.Generated?)
  }

  /** The call handed out d's plaintext or key material. */
  predicate Reveals(r: Record, d: Digest) {
    (r.call.Wrap? || r.call.Decrypt? || r.call.Rotate?) && r.call.digest == d && !r.outcome.Failed?
  }

  /** Erasure is permanent: after an acknowledged deletion no later call ever reveals anything. */
  lemma ErasureIsPermanent(env: Env, ls: seq<Ledger>, rs: seq<Record>, i: nat, j: nat, d: Digest)
    requires Trace(env, ls, rs) && i < j < |rs| && Erases(rs[i], d)
    ensures !Reveals(rs[j], d)
  {
    TraceWellFormed(env, ls, rs, i);
    assert d in ls[i + 1].erased by {
      var r := rs[i];
      assert Served(env, ls, rs, i);
    }
    ErasedStays(env, ls, rs, i + 1, j);
    TraceWellFormed(env, ls, rs, j);
    assert Served(env, ls, rs, j);
  }

  /** And without a failed request the answer is then that there is no such key. */
  lemma ErasedIsNotFound(env: Env, ls: seq<Ledger>, rs: seq<Record>, i: nat, j: nat, d: Digest)
    requires Trace(env, ls, rs) && i < j < |rs| && Erases(rs[i], d) && !rs[j].faults.request
    ensures rs[j].call.Decrypt? && rs[j].call.digest == d ==> rs[j].outcome == Failed(KeyNotFound)
  {
    assert Served(env, ls, rs, i);
    ErasedStays(env, ls, rs, i + 1, j);
    TraceWellFormed(env, ls, rs, i);
    TraceWellFormed(env, ls, rs, j);
    assert Served(env, ls, rs, j);
  }

  /** The call may remove d's record. */
  predicate Targets(c: Call, d: Digest) {
    (c.Delete? || c.Rotate?) && c.digest == d
  }

  lemma OthersSurvive(env: Env, l: Ledger, c: Call, o: Outcome, l': Ledger, f: Faults, d: Digest)
    requires WellFormed(l) && FreshCall(env, l, c) && Step(env, l, c, o, l', f)
    requires d in l.live && !Targets(c, d)
    ensures d in l'.live && l'.live[d] == l.live[d]
  {
  }

  lemma {:induction false} StaysLive(env: Env, ls: seq<Ledger>, rs: seq<Record>, i: nat, j: nat, d: Digest)
    requires Trace(env, ls, rs) && i <= j < |ls| && d in ls[i].live
    requires forall k :: i <= k < j ==> !Targets(rs[k].call, d)
    ensures d in ls[j].live && ls[j].live[d] == ls[i].live[d]
    decreases j
  {
    if i < j {
      var r := rs[j - 1];
      StaysLive(env, ls, rs, i, j - 1, d);
      TraceWellFormed(env, ls, rs, j - 1);
      assert Served(env, ls, rs, j - 1);
      OthersSurvive(env, ls[j - 1], r.call, r.outcome, ls[j], r.faults, d);
    }
  }

  /** The plaintext behind the digest a call hands out: its own argument, or what it read under the old digest. */
  function Behind(env: Env, l: Ledger, c: Call): Outcome {
    match c
    case Generate(pt, _) => Plain(pt)
    case Rotate(d, ct, _) => Read(env, l.live, Decrypt(d, ct))
    case _ => Failed(Other)
  }

  lemma HandedOutDecrypts(env: Env, ls: seq<Ledger>, rs: seq<Record>, i: nat)
    requires Trace(env, ls, rs) && i < |rs| && (rs[i].outcome.Generated? || rs[i].outcome.NotErased?)
    ensures Behind(env, ls[i], rs[i].call).Plain?
    ensures Read(env, ls[i + 1].live, Decrypt(rs[i].outcome.digest, rs[i].outcome.ct)) == Behind(env, ls[i], rs[i].call)
  {
    var r := rs[i];
    TraceWellFormed(env, ls, rs, i);
    assert Served(env, ls, rs, i);
    if r.call.Rotate? {
      RotateNeverLoses(env, ls[i], r.call.digest, r.call.ct, r.call.dek, r.outcome, ls[i + 1], r.faults);
    }
  }

  /**
   A digest handed to the caller, by Generate or by Rotate, keeps decrypting to its plaintext until a
   delete or rotation of it is attempted.
   */
  lemma DecryptsUntilDeleted(env: Env, ls: seq<Ledger>, rs: seq<Record>, i: nat, j: nat)
    requires Trace(env, ls, rs) && i < j < |ls| && (rs[i].outcome.Generated? || rs[i].outcome.NotErased?)
    requires forall k :: i < k < j ==> !Targets(rs[k].call, rs[i].outcome.digest)
    ensures Behind(env, ls[i], rs[i].call).Plain?
    ensures Read(env, ls[j].live, Decrypt(rs[i].outcome.digest, rs[i].outcome.ct)) == Behind(env, ls[i], rs[i].call)
  {
    HandedOutDecrypts(env, ls, rs, i);
    StaysLive(env, ls, rs, i + 1, j, rs[i].outcome.digest);
  }

  /** Call r left d's key behind: its rollback of d failed, or it removed d's record and then failed on the key. */
  predicate Strands(env: Env, l: Ledger, r: Record, d: Digest) {
    && r.faults.request && r.faults.cleanup
    && match r.call
       case Generate(pt, dek) => r.outcome.Failed? && d == NewDigest(env, dek, pt)
       case Delete(e) => r.outcome.Failed? && d == e && d in l.live
       case Rotate(e, ct, dek) => (
         match Read(env, l.live, Decrypt(e, ct))
         case Plain(pt) => (r.outcome.Failed? && d == NewDigest(env, dek, pt)) || (r.outcome.NotErased? && d == e)
         case _ => false)
       case _ => false
  }

  lemma StrandedStep(env: Env, l: Ledger, r: Record, l': Ledger, d: Digest)
    requires WellFormed(l) && FreshCall(env, l, r.call) && Step(env, l, r.call, r.outcome, l', r.faults)
    ensures d in l'.stranded <==> Strands(env, l, r, d) || (d in l.stranded && !Erases(r, d))
  {
    match r.call
    case Generate(_, _) =>
    case Wrap(_, _) =>
    case Decrypt(_, _) =>
    case Rotate(_, _, _) =>
    case Delete(_) =>
  }

  /** Among the first n calls, one left d's key behind, and no later one acknowledged a deletion of d. */
  ghost predicate LeftBehind(env: Env, ls: seq<Ledger>, rs: seq<Record>, n: nat, d: Digest)
    requires n <= |rs| < |ls|
  {
    exists i :: 0 <= i < n && Strands(env, ls[i], rs[i], d) && forall j :: i < j < n ==> !Erases(rs[j], d)
  }

  /**
   Keys without a record are conserved: d is stranded exactly when some earlier call left it so
   and no deletion of d was acknowledged since.
   */
  lemma {:induction false} StrandedExactly(env: Env, ls: seq<Ledger>, rs: seq<Record>, n: nat, d: Digest)
    requires Trace(env, ls, rs) && n < |ls| && d !in ls[0].stranded
    ensures d in ls[n].stranded <==> LeftBehind(env, ls, rs, n, d)
  {
    if n > 0 {
      var m := n - 1;
      StrandedExactly(env, ls, rs, m, d);
      TraceWellFormed(env, ls, rs, m);
      assert Served(env, ls, rs, m);
      StrandedStep(env, ls[m], rs[m], ls[n], d);
    }
  }

  /** Two fault-free runs of the same calls from the same records, on any backends, look the same. */
  lemma {:induction false} FaultFreeRunsAgree(env: Env, ls: seq<Ledger>, rs: seq<Record>, ls': seq<Ledger>,
      rs': seq<Record>, n: nat)
    requires Trace(env, ls, rs) && Trace(env, ls', rs') && |rs| == |rs'| && n <= |rs|
    requires ls[0].live == ls'[0].live
    requires forall i :: 0 <= i < |rs| ==> rs[i].call == rs'[i].call && !rs[i].faults.request && !rs'[i].faults.request
    ensures ls[n].live == ls'[n].live
    ensures forall i :: 0 <= i < n ==> rs[i].outcome == rs'[i].outcome
  {
    if n > 0 {
      var k := n - 1;
      FaultFreeRunsAgree(env, ls, rs, ls', rs', k);
      TraceWellFormed(env, ls, rs, k);
      TraceWellFormed(env, ls', rs', k);
      assert Served(env, ls, rs, k) && Served(env, ls', rs', k);
      FaultFreeStep(env, ls[k], rs[k].call, rs[k].outcome, ls[n], rs[k].faults);
      FaultFreeStep(env, ls'[k], rs'[k].call, rs'[k].outcome, ls'[n], rs'[k].faults);
    }
  }

  // ---------- Driving a backend ----------

  /** The digest a call may make. Its randomness is part of the call, so this is known beforehand. */
  function Makes(env: Env, c: Call): set<Digest> {
    match c
    case Generate(pt, dek) => {NewDigest(env, dek, pt)}
    case Rotate(_, ct, dek) => if ct.Sealed? then {NewDigest(env, dek, ct.plaintext)} else {}
    case _ => {}
  }

  function UsedAfter(env: Env, used: set<Digest>, c: Call): set<Digest> {
    used + Makes(env, c) + if c.Delete? || c.Rotate? then {c.digest} else {}
  }

  /** Every call draws randomness whose digest was neither made nor deleted by the calls before it. */
  predicate FreshPlan(env: Env, used: set<Digest>, calls: seq<Call>)
    decreases |calls|
  {
    calls != [] ==>
      var c := calls[0];
      && (c.Generate? || c.Rotate? ==> GoodMaterial(c.dek))
      && Makes(env, c) !! used
      && FreshPlan(env, UsedAfter(env, used, c), calls[1..])
  }

  predicate Within(l: Ledger, used: set<Digest>) {
    l.live.Keys <= used && l.stranded <= used && l.erased <= used
  }

  lemma PlanIsFresh(env: Env, l: Ledger, used: set<Digest>, calls: seq<Call>)
    requires Within(l, used) && FreshPlan(env, used, calls) && calls != []
    ensures FreshCall(env, l, calls[0])
  {
    var c := calls[0];
    if c.Generate? {
      assert NewDigest(env, c.dek, c.plaintext) in Makes(env, c);
    } else if c.Rotate? && Read(env, l.live, Decrypt(c.digest, c.ct)).Plain? {
      assert NewDigest(env, c.dek, c.ct.plaintext) in Makes(env, c);
    }
  }

  lemma StepStaysWithin(env: Env, l: Ledger, used: set<Digest>, c: Call, o: Outcome, l': Ledger, f: Faults)
    requires Within(l, used) && Step(env, l, c, o, l', f)
    ensures Within(l', UsedAfter(env, used, c))
  {
  }

  lemma TraceExtends(env: Env, ls: seq<Ledger>, rs: seq<Record>, r: Record, l': Ledger)
    requires Trace(env, ls, rs) && FreshCall(env, ls[|rs|], r.call)
    requires Step(env, ls[|rs|], r.call, r.outcome, l', r.faults)
    ensures Trace(env, ls + [l'], rs + [r])
  {
    forall i | 0 <= i < |rs| + 1 ensures Served(env, ls + [l'], rs + [r], i) {
      assert i < |rs| ==> Served(env, ls, rs, i);
    }
  }

  // ---------- Vocabulary of concurrent runs ----------

  datatype Purpose = ToDecrypt(ct: Ciphertext) | ToWrap(recipient: bytes) | ToRotate(ct: Ciphertext)
  datatype Query = Query(digest: Digest, purpose: Purpose)

  /** Where a rotation's plaintext came from: the query, when the call started, when it got hold of the old key. */
  datatype Origin = Origin(query: Query, start: nat, at: nat)

  /** One generation: the new digest with the randomness and plaintext behind it. */
  datatype Gen = Gen(digest: Digest, dek: Material, plaintext: bytes, origin: Option<Origin>)

  /** A request works, fails without effect, or takes effect while its response is lost. */
  datatype Fault = Works | Fails | Lost

  type Gens = map<Digest, Gen>

  /** g re-encrypts what q asked to be rotated. */
  predicate ReEncrypts(gens: Gens, q: Query, g: Gen) {
    && q.purpose.ToRotate? && q.digest in gens
    && q.purpose.ct == SealedFor(gens[q.digest].dek, g.plaintext)
  }

  ghost predicate CollisionFree(env: Env) {
    forall x, y :: env.hash(x) == env.hash(y) ==> x == y
  }

  /**
   g carries the plaintext the rotated ciphertext sealed under d's own key; when that ciphertext is
   the one d names, it is the plaintext d was made with.
   */
  ghost predicate SamePlaintext(env: Env, gens: Gens, d: Digest, g: Gen) {
    && g.origin.Some? && g.origin.value.query.digest == d && ReEncrypts(gens, g.origin.value.query, g)
    && (CollisionFree(env) && env.hash(g.origin.value.query.purpose.ct) == d ==> g.plaintext == gens[d].plaintext)
  }

  // ---------- What a caller has asked for ----------

  datatype Job = Making(g: Gen) | Asking(q: Query) | Removing(d: Digest)

  function Target(job: Job): Digest {
    match job
    case Making(g) => g.digest
    case Asking(q) => q.digest
    case Removing(d) => d
  }

  /** Generating g is part of the job. */
  predicate Serves(job: Job, g: Gen) {
    match job
    case Making(h) => h == g && g.origin.None?
    case Asking(q) =>
      && g.origin.Some? && g.origin.value.query == q
      && q.purpose.ToRotate? && q.purpose.ct.Sealed? && g.plaintext == q.purpose.ct.plaintext
    case Removing(_) => false
  }

  /** Deleting d is, as such or as the end of a Rotate. */
  predicate Removes(job: Job, d: Digest, r: Option<Gen>) {
    match r
    case None => job == Removing(d)
    case Some(g) => job.Asking? && job.q.digest == d && Serves(job, g)
  }

  /** The query names a digest that was made, with a ciphertext sealed under that digest's key. */
  predicate Fits(gens: Gens, q: Query) {
    && q.digest in gens
    && (!q.purpose.ToWrap? ==>
          q.purpose.ct.Sealed? && q.purpose.ct == SealedFor(gens[q.digest].dek, q.purpose.ct.plaintext))
  }
}
