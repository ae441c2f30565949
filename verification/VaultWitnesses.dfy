/** Runs of the Vault machine, from its initial state, that show where its guarantees end. */
module VaultWitnesses {
  import opened Prelude
  import opened KeyService
  import opened Vault
  import opened Paths
  import opened VaultInterleaving

  type History = Trail<State, Action, Output>

  ghost predicate IsRun(env: Env, tr: History) {
    Walk(Steps(env), tr) && Initial(tr.states[0])
  }

  /** tr' is tr and one more action, which led to s and put out o. */
  ghost predicate Extends(env: Env, tr: History, o: Output, s: State, tr': History) {
    IsRun(env, tr') && Now(tr') == s && tr'.outputs == tr.outputs + [o]
  }

  lemma Take(env: Env, tr: History, a: Action) returns (tr': History)
    requires IsRun(env, tr) && Enabled(env, Now(tr), a)
    ensures Extends(env, tr, Act(Now(tr), a).1, Tick(Act(Now(tr), a).0), tr')
  {
    tr' := Go(Steps(env), tr, a, Next(Now(tr), a).1, Next(Now(tr), a).0);
  }

  lemma TakeGenerating(env: Env, tr: History, t: nat, fault: Fault) returns (tr': History)
    requires IsRun(env, tr) && t in Now(tr).frames
    requires !Reading(Now(tr).frames[t]) && !Deleting(Now(tr).frames[t])
    ensures Extends(env, tr, SendGenerating(Now(tr), t, fault).1, Tick(SendGenerating(Now(tr), t, fault).0), tr')
  {
    tr' := Take(env, tr, Send(t, fault));
  }

  lemma TakeDeleting(env: Env, tr: History, t: nat, fault: Fault) returns (tr': History)
    requires IsRun(env, tr) && t in Now(tr).frames && Deleting(Now(tr).frames[t])
    ensures Extends(env, tr, SendDeleting(Now(tr), t, fault).1, Tick(SendDeleting(Now(tr), t, fault).0), tr')
  {
    tr' := Take(env, tr, Send(t, fault));
  }

  // ---------- Segments ----------

  /** What a segment of t's own requests leaves alone. */
  predicate Keeps(s: State, s': State) {
    && s'.gens == s.gens && s'.secret == s.secret && s'.named == s.named && s'.remote.kv == s.remote.kv
  }

  lemma CreatesKey(env: Env, tr: History, t: nat, g: Gen) returns (tr': History)
    requires IsRun(env, tr) && t in Now(tr).frames && Now(tr).frames[t] == Creating(g)
    ensures IsRun(env, tr') && Keeps(Now(tr), Now(tr')) && Now(tr').frames == Now(tr).frames[t := Encrypting(g)]
    ensures Now(tr').remote.transit.Keys == Now(tr).remote.transit.Keys + {TransitName(g.digest)}
  {
    tr' := TakeGenerating(env, tr, t, Works);
    assert Now(tr') == Tick(SendCreate(Now(tr), t, g, Works).0);
  }

  /** The caller creates the Transit key of its digest and wraps the DEK under it. */
  lemma Prepares(env: Env, tr: History, t: nat, g: Gen) returns (tr': History, w: WrappedDek)
    requires IsRun(env, tr) && t in Now(tr).frames && Now(tr).frames[t] == Creating(g)
    ensures IsRun(env, tr') && Keeps(Now(tr), Now(tr')) && Now(tr').frames == Now(tr).frames[t := Storing(g, w)]
    ensures Now(tr').remote.transit.Keys == Now(tr).remote.transit.Keys + {TransitName(g.digest)}
    ensures var name := TransitName(g.digest);
            name in Now(tr').remote.transit && w == WrappedDek(Now(tr').remote.transit[name].kek, Blob(g.dek))
  {
    var tr1 := CreatesKey(env, tr, t, g);
    tr' := TakeGenerating(env, tr1, t, Works);
    assert Now(tr') == Tick(SendEncrypt(Now(tr1), t, g, Works).0);
    w := Now(tr').frames[t].w;
  }

  lemma Starts(env: Env, g: Gen) returns (tr: History, w: WrappedDek)
    requires GoodMaterial(g.dek) && g.digest == NewDigest(env, g.dek, g.plaintext) && g.origin.None?
    ensures IsRun(env, tr) && Now(tr).frames == map[1 := Storing(g, w)]
            && TransitName(g.digest) in Now(tr).remote.transit
    ensures w == WrappedDek(Now(tr).remote.transit[TransitName(g.digest)].kek, Blob(g.dek))
    ensures Now(tr).gens == map[g.digest := g] && Now(tr).secret == {g.digest} && Now(tr).named == {g.digest}
    ensures Now(tr).remote.kv == map[]
  {
    var s0 := State(Remote(map[], map[], 0), map[], map[], map[], map[], {}, {}, {}, map[], {}, map[], 0);
    var tr0 := Trail([s0], [], []);
    var tr1 := Take(env, tr0, BeginGenerate(1, g));
    assert Now(tr1) == Tick(StartGenerating(Begun(s0, 1), 1, g));
    tr, w := Prepares(env, tr1, 1, g);
  }

  // ---------- A lost response strands a record ----------

  lemma RollsBack(env: Env, tr: History, t: nat, g: Gen) returns (tr': History)
    requires IsRun(env, tr) && t in Now(tr).frames && Now(tr).frames[t] == RollProbing(g)
    requires TransitName(g.digest) in Now(tr).remote.transit
    ensures IsRun(env, tr') && Keeps(Now(tr), Now(tr')) && Now(tr').frames == Now(tr).frames - {t}
    ensures TransitName(g.digest) !in Now(tr').remote.transit
  {
    var tr1 := TakeGenerating(env, tr, t, Works);
    assert Now(tr1) == Tick(SendRoll(Now(tr), t, RollProbing(g), Works).0);
    var tr2 := RollAllows(env, tr1, t, g);
    tr' := RollDrops(env, tr2, t, g);
  }

  lemma RollDrops(env: Env, tr: History, t: nat, g: Gen) returns (tr': History)
    requires IsRun(env, tr) && t in Now(tr).frames && Now(tr).frames[t] == RollDropping(g)
    requires var name := TransitName(g.digest); name in Now(tr).remote.transit && Now(tr).remote.transit[name].deletable
    ensures IsRun(env, tr') && Keeps(Now(tr), Now(tr')) && Now(tr').frames == Now(tr).frames - {t}
    ensures TransitName(g.digest) !in Now(tr').remote.transit
  {
    tr' := TakeGenerating(env, tr, t, Works);
    assert Now(tr') == Tick(SendRoll(Now(tr), t, RollDropping(g), Works).0);
  }

  lemma RollAllows(env: Env, tr: History, t: nat, g: Gen) returns (tr': History)
    requires IsRun(env, tr) && t in Now(tr).frames && Now(tr).frames[t] == RollAllowing(g)
    requires TransitName(g.digest) in Now(tr).remote.transit
    ensures IsRun(env, tr') && Keeps(Now(tr), Now(tr')) && Now(tr').frames == Now(tr).frames[t := RollDropping(g)]
    ensures Now(tr').remote == AllowDeletion(Now(tr).remote, TransitName(g.digest))
  {
    tr' := TakeGenerating(env, tr, t, Works);
    assert Now(tr') == Tick(SendRoll(Now(tr), t, RollAllowing(g), Works).0);
  }

  /** A run of one call: the write's response is lost, the rollback works, and the record is left without its key. */
  lemma LostWriteStrandsRecord(env: Env, g: Gen) returns (tr: History)
    requires GoodMaterial(g.dek) && g.digest == NewDigest(env, g.dek, g.plaintext) && g.origin.None?
    ensures IsRun(env, tr) && Now(tr).frames == map[]
    ensures KvName(g.digest) in Now(tr).remote.kv && TransitName(g.digest) !in Now(tr).remote.transit
  {
    var tr1, w := Starts(env, g);
    var tr2 := TakeGenerating(env, tr1, 1, Lost);
    assert Now(tr2) == Tick(SendStore(Now(tr1), 1, g, w, Lost).0);
    tr := RollsBack(env, tr2, 1, g);
  }

  // ---------- Reads in flight ----------

  /** A first digest is generated and handed out. */
  lemma Publishes(env: Env, g: Gen) returns (tr: History, w: WrappedDek)
    requires GoodMaterial(g.dek) && g.digest == NewDigest(env, g.dek, g.plaintext) && g.origin.None?
    ensures IsRun(env, tr) && Now(tr).frames == map[] && Now(tr).secret == {} && Now(tr).named == {g.digest}
    ensures KvName(g.digest) in Now(tr).remote.kv && Now(tr).remote.kv[KvName(g.digest)] == w
    ensures TransitName(g.digest) in Now(tr).remote.transit
    ensures DecryptUnder(Now(tr).remote, TransitName(g.digest), w) == Some(Blob(g.dek))
  {
    var tr1;
    tr1, w := Starts(env, g);
    tr := TakeGenerating(env, tr1, 1, Works);
    var s := Now(tr1);
    var stored := s.(remote := PutRecord(s.remote, KvName(g.digest), w));
    assert Now(tr) == Tick(Return(stored, 1).(secret := s.secret - {g.digest}));
  }

  /** A query is begun and fetches its record. */
  lemma Fetches(env: Env, tr: History, t: nat, q: Query, w: WrappedDek) returns (tr': History)
    requires IsRun(env, tr) && Now(tr).frames == map[] && q.digest !in Now(tr).secret
    requires KvName(q.digest) in Now(tr).remote.kv && Now(tr).remote.kv[KvName(q.digest)] == w
    ensures IsRun(env, tr') && Now(tr').frames == map[t := Unwrapping(q, w)] && Now(tr').remote == Now(tr).remote
    ensures Now(tr').secret == Now(tr).secret && Now(tr').named == Now(tr).named + {q.digest}
  {
    var tr1 := Take(env, tr, BeginQuery(t, q));
    assert Now(tr1) == Tick(Goto(Begun(Now(tr), t), t, Fetching(q)).(named := Now(tr).named + {q.digest}));
    tr' := Take(env, tr1, Send(t, Works));
    assert Now(tr') == Tick(SendFetch(Now(tr1), t, q, Works).0);
  }

  /** It has its record unwrapped, and holds key and nonce. */
  lemma Unwraps(env: Env, tr: History, t: nat, q: Query, w: WrappedDek, m: bytes) returns (tr': History, at: nat)
    requires IsRun(env, tr) && Now(tr).frames == map[t := Unwrapping(q, w)]
    requires DecryptUnder(Now(tr).remote, TransitName(q.digest), w) == Some(m)
    ensures IsRun(env, tr') && Now(tr').frames == map[t := Holding(q, m, at)] && Now(tr').remote == Now(tr).remote
    ensures Now(tr').secret == Now(tr).secret && Now(tr').named == Now(tr).named
  {
    at := Now(tr).clock;
    tr' := Take(env, tr, Send(t, Works));
    assert Now(tr') == Tick(SendUnwrap(Now(tr), t, q, w, Works).0);
  }

  /** A published digest is asked for by caller 1, who holds its key and nonce. */
  lemma Held(env: Env, g: Gen, purpose: Purpose) returns (tr: History, at: nat)
    requires GoodMaterial(g.dek) && g.digest == NewDigest(env, g.dek, g.plaintext) && g.origin.None?
    ensures IsRun(env, tr) && Now(tr).frames == map[1 := Holding(Query(g.digest, purpose), Blob(g.dek), at)]
    ensures Now(tr).secret == {} && Now(tr).named == {g.digest}
    ensures TransitName(g.digest) in Now(tr).remote.transit
  {
    var q := Query(g.digest, purpose);
    var tr1, w := Publishes(env, g);
    var tr2 := Fetches(env, tr1, 1, q, w);
    tr, at := Unwraps(env, tr2, 1, q, w, Blob(g.dek));
  }

  // ---------- A Decrypt in flight outlives a deletion ----------

  lemma Answers(env: Env, tr: History, q: Query, g: Gen, at: nat) returns (tr': History)
    requires IsRun(env, tr) && 1 in Now(tr).frames && Now(tr).frames[1] == Holding(q, Blob(g.dek), at)
    requires GoodMaterial(g.dek) && q.purpose == ToDecrypt(SealedFor(g.dek, g.plaintext))
    ensures IsRun(env, tr') && tr'.outputs == tr.outputs + [PlainOut(q, g.plaintext, at)]
  {
    assert Opening(q, Blob(g.dek)) == Some(g.plaintext);
    tr' := Take(env, tr, Deliver(1, true, g));
    assert Act(Now(tr), Deliver(1, true, g)).1 == Delivered(Now(tr), 1, q, Blob(g.dek), at, true, g).1;
  }

  /**
   A run in which Transit has answered caller 1's Decrypt of d, caller 2's Delete of d is
   acknowledged, and the Decrypt then returns d's plaintext.
   */
  lemma InFlightDecryptOutlivesDelete(env: Env, g: Gen) returns (tr: History, i: nat, j: nat)
    requires GoodMaterial(g.dek) && g.digest == NewDigest(env, g.dek, g.plaintext) && g.origin.None?
    ensures IsRun(env, tr) && i < j < |tr.outputs| && tr.outputs[i] == Gone(g.digest)
    ensures tr.outputs[j].PlainOut? && tr.outputs[j].q.digest == g.digest && tr.outputs[j].plaintext == g.plaintext
  {
    var q := Query(g.digest, ToDecrypt(SealedFor(g.dek, g.plaintext)));
    var tr1, at := Held(env, g, q.purpose);
    var tr2 := Deletes(env, tr1, 2, g.digest);
    tr := Answers(env, tr2, q, g, at);
    i, j := |tr2.outputs| - 1, |tr2.outputs|;
  }

  // ---------- A Rotate in flight outlives a deletion ----------

  /** Rotate opens the old ciphertext and turns to generating. */
  lemma Rotates(env: Env, tr: History, q: Query, g: Gen, at: nat, spare: Gen) returns (tr': History, g': Gen)
    requires IsRun(env, tr) && Now(tr).frames == map[1 := Holding(q, Blob(g.dek), at)] && GoodMaterial(g.dek)
    requires q.purpose == ToRotate(SealedFor(g.dek, g.plaintext))
    requires FreshGen(env, Now(tr), spare) && spare.plaintext == g.plaintext
    ensures IsRun(env, tr') && Now(tr').frames == map[1 := Creating(g')] && Now(tr').remote == Now(tr).remote
    ensures g' == spare.(origin := g'.origin) && g'.origin.Some? && g'.origin.value.query == q
    ensures Now(tr').secret == Now(tr).secret + {g'.digest}
  {
    assert Opening(q, Blob(g.dek)) == Some(g.plaintext);
    tr' := Take(env, tr, Deliver(1, true, spare));
    g' := Derived(Now(tr), 1, q, at, spare);
    DeliverCases(Now(tr), 1, q, Blob(g.dek), at, true, spare);
    assert Now(tr') == Tick(StartGenerating(Now(tr), 1, g'));
  }

  /** A whole Delete by t, while others wait. */
  lemma Deletes(env: Env, tr: History, t: nat, d: Digest) returns (tr': History)
    requires IsRun(env, tr) && t !in Now(tr).frames && d !in Now(tr).secret && TransitName(d) in Now(tr).remote.transit
    ensures IsRun(env, tr') && Now(tr').frames == Now(tr).frames
    ensures TransitName(d) !in Now(tr').remote.transit && KvName(d) !in Now(tr').remote.kv
    ensures tr'.outputs != [] && tr'.outputs[|tr'.outputs| - 1] == Gone(d)
  {
    var tr1 := DropsRecord(env, tr, t, d);
    var tr2 := TakeDeleting(env, tr1, t, Works);
    assert Now(tr2) == Tick(SendProbe(Now(tr1), t, d, None, Works).0);
    tr' := DropsKey(env, tr2, t, d);
    assert Now(tr').frames == Now(tr).frames;
  }

  lemma DropsRecord(env: Env, tr: History, t: nat, d: Digest) returns (tr': History)
    requires IsRun(env, tr) && t !in Now(tr).frames && d !in Now(tr).secret
    ensures IsRun(env, tr') && Now(tr').frames == Now(tr).frames[t := Probing(d, None)]
    ensures Now(tr').remote == DropRecord(Now(tr).remote, KvName(d))
  {
    var tr1 := Take(env, tr, BeginDelete(t, d));
    assert Now(tr1).frames == Now(tr).frames[t := DroppingRecord(d, None)] && Now(tr1).remote == Now(tr).remote;
    tr' := TakeDeleting(env, tr1, t, Works);
    assert Now(tr') == Tick(SendDropRecord(Now(tr1), t, d, None, Works).0);
  }

  lemma DropsKey(env: Env, tr: History, t: nat, d: Digest) returns (tr': History)
    requires IsRun(env, tr) && t in Now(tr).frames && Now(tr).frames[t] == Allowing(d, None)
    requires TransitName(d) in Now(tr).remote.transit
    ensures IsRun(env, tr') && Now(tr').frames == Now(tr).frames - {t} && Now(tr').remote.kv == Now(tr).remote.kv
    ensures TransitName(d) !in Now(tr').remote.transit
    ensures tr'.outputs != [] && tr'.outputs[|tr'.outputs| - 1] == Gone(d)
  {
    var tr1 := AllowsDeletion(env, tr, t, d);
    tr' := TakeDeleting(env, tr1, t, Works);
    assert SendDeleting(Now(tr1), t, Works) == SendDropKey(Now(tr1), t, d, None, Works);
  }

  lemma AllowsDeletion(env: Env, tr: History, t: nat, d: Digest) returns (tr': History)
    requires IsRun(env, tr) && t in Now(tr).frames && Now(tr).frames[t] == Allowing(d, None)
    requires TransitName(d) in Now(tr).remote.transit
    ensures IsRun(env, tr') && Now(tr').frames == Now(tr).frames[t := DroppingKey(d, None)]
    ensures Now(tr').remote.kv == Now(tr).remote.kv
    ensures TransitName(d) in Now(tr').remote.transit && Now(tr').remote.transit[TransitName(d)].deletable
  {
    tr' := TakeDeleting(env, tr, t, Works);
    assert SendDeleting(Now(tr), t, Works) == SendAllow(Now(tr), t, d, None, Works);
  }

  /** Rotate stores its replacement and finds nothing left to delete. */
  lemma Replaces(env: Env, tr: History, t: nat, d: Digest, g: Gen, w: WrappedDek) returns (tr': History)
    requires IsRun(env, tr) && Now(tr).frames == map[t := Storing(g, w)] && TransitName(d) !in Now(tr).remote.transit
    requires g.origin.Some? && g.origin.value.query.digest == d
    ensures IsRun(env, tr') && |tr'.outputs| == |tr.outputs| + 3 && tr'.outputs[..|tr.outputs|] == tr.outputs
    ensures tr'.outputs[|tr.outputs| + 2] == RotatedOut(d, g, true)
  {
    var tr1 := TakeGenerating(env, tr, t, Works);
    assert Now(tr1) == Tick(SendStore(Now(tr), t, g, w, Works).0);
    var tr2 := TakeDeleting(env, tr1, t, Works);
    assert Now(tr2) == Tick(SendDropRecord(Now(tr1), t, d, Some(g), Works).0);
    tr' := TakeDeleting(env, tr2, t, Works);
    assert SendDeleting(Now(tr2), t, Works) == SendProbe(Now(tr2), t, d, Some(g), Works);
  }

  /** Caller 1's Rotate of a published digest has read it. */
  lemma ReadsOld(env: Env, g: Gen, spare: Gen) returns (tr: History, g': Gen)
    requires GoodMaterial(g.dek) && g.digest == NewDigest(env, g.dek, g.plaintext) && g.origin.None?
    requires GoodMaterial(spare.dek) && spare.digest == NewDigest(env, spare.dek, spare.plaintext)
    requires spare.plaintext == g.plaintext && spare.digest != g.digest
    ensures IsRun(env, tr) && Now(tr).frames == map[1 := Creating(g')]
    ensures g.digest !in Now(tr).secret && TransitName(g.digest) in Now(tr).remote.transit
    ensures g'.plaintext == g.plaintext && g'.origin.Some? && g'.origin.value.query.digest == g.digest
  {
    var q := Query(g.digest, ToRotate(SealedFor(g.dek, g.plaintext)));
    var tr1, at := Held(env, g, q.purpose);
    tr, g' := Rotates(env, tr1, q, g, at, spare);
  }

  /** It is about to store its replacement when caller 2 deletes the old digest. */
  lemma DeletedMeanwhile(env: Env, g: Gen, spare: Gen) returns (tr: History, w: WrappedDek, g': Gen)
    requires GoodMaterial(g.dek) && g.digest == NewDigest(env, g.dek, g.plaintext) && g.origin.None?
    requires GoodMaterial(spare.dek) && spare.digest == NewDigest(env, spare.dek, spare.plaintext)
    requires spare.plaintext == g.plaintext && spare.digest != g.digest
    ensures IsRun(env, tr) && Now(tr).frames == map[1 := Storing(g', w)]
    ensures TransitName(g.digest) !in Now(tr).remote.transit
    ensures tr.outputs != [] && tr.outputs[|tr.outputs| - 1] == Gone(g.digest)
    ensures g'.plaintext == g.plaintext && g'.origin.Some? && g'.origin.value.query.digest == g.digest
  {
    var tr1, tr2;
    tr1, g' := ReadsOld(env, g, spare);
    tr2, w := Prepares(env, tr1, 1, g');
    tr := Deletes(env, tr2, 2, g.digest);
    assert Now(tr).frames == map[1 := Storing(g', w)];
  }

  /**
   A run in which caller 1's Rotate of d has unwrapped d, caller 2's Delete of d is acknowledged, and
   the Rotate then returns a re-encryption of d's plaintext. The start of a call is what counts.
   */
  lemma InFlightRotateOutlivesDelete(env: Env, g: Gen, spare: Gen) returns (tr: History, i: nat, j: nat, g': Gen)
    requires GoodMaterial(g.dek) && g.digest == NewDigest(env, g.dek, g.plaintext) && g.origin.None?
    requires GoodMaterial(spare.dek) && spare.digest == NewDigest(env, spare.dek, spare.plaintext)
    requires spare.plaintext == g.plaintext && spare.digest != g.digest
    ensures IsRun(env, tr) && i < j < |tr.outputs|
    ensures tr.outputs[i] == Gone(g.digest)
    ensures tr.outputs[j] == RotatedOut(g.digest, g', true) && g'.plaintext == g.plaintext
  {
    var tr1, w;
    tr1, w, g' := DeletedMeanwhile(env, g, spare);
    tr := Replaces(env, tr1, 1, g.digest, g', w);
    i, j := |tr1.outputs| - 1, |tr1.outputs| + 2;
    assert tr.outputs[i] == tr.outputs[..|tr1.outputs|][i];
  }
}
