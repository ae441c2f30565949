/** A run of the Cloud KMS machine, from its initial state, that shows where its guarantee ends. */
module GcpWitnesses {
  import opened Prelude
  import opened KeyService
  import opened Gcp
  import opened Paths
  import opened GcpInterleaving

  type History = Trail<State, Action, Output>

  ghost predicate IsRun(env: Env, tr: History) {
    Walk(Steps(env), tr) && Initial(tr.states[0])
  }

  lemma Take(env: Env, tr: History, a: Action) returns (tr': History)
    requires IsRun(env, tr) && Enabled(env, Now(tr), a)
    ensures IsRun(env, tr') && Now(tr') == Next(Now(tr), a).0 && tr'.outputs == tr.outputs + [Next(Now(tr), a).1]
  {
    tr' := Go(Steps(env), tr, a, Next(Now(tr), a).1, Next(Now(tr), a).0);
  }

  /** Caller 1 generates a digest and is told of it. */
  lemma Publishes(env: Env, g: Gen) returns (tr: History)
    requires GoodMaterial(g.dek) && g.digest == NewDigest(env, g.dek, g.plaintext) && g.origin.None?
    ensures IsRun(env, tr) && Now(tr).frames == map[] && Now(tr).secret == {}
    ensures Now(tr).docs == map[DocId(g.digest) := WrappedDek(Blob(g.dek))]
  {
    var s0 := State(map[], map[], 0, map[], map[], {}, {}, {}, map[]);
    var tr1 := Take(env, Trail([s0], [], []), BeginGenerate(1, g));
    assert Now(tr1) == Tick(StartGenerating(s0, 1, 0, g));
    var tr2 := Take(env, tr1, Send(1, Works, g));
    assert Now(tr2) == Tick(Goto(Now(tr1), 1, 0, Creating(g)));
    tr := Take(env, tr2, Send(1, Works, g));
    assert Now(tr) == Tick(SendCreate(Now(tr2), 1, 0, g, Works).0);
  }

  /** Caller 1 begins a query and fetches the document. */
  lemma Fetches(env: Env, tr: History, q: Query, w: WrappedDek, g: Gen) returns (tr': History)
    requires IsRun(env, tr) && Now(tr).frames == map[] && q.digest !in Now(tr).secret
    requires DocId(q.digest) in Now(tr).docs && Now(tr).docs[DocId(q.digest)] == w
    ensures IsRun(env, tr') && Now(tr').secret == Now(tr).secret
    ensures Now(tr').frames == map[1 := Frame(Now(tr).clock, Unwrapping(q, w, Now(tr).clock + 1))]
  {
    var s := Now(tr);
    var tr1 := Take(env, tr, BeginQuery(1, q));
    assert Now(tr1) == Tick(Goto(s, 1, s.clock, Fetching(q)).(named := s.named + {q.digest}));
    tr' := Take(env, tr1, Send(1, Works, g));
    assert Now(tr') == Tick(Goto(Now(tr1), 1, s.clock, Unwrapping(q, w, s.clock + 1)));
  }

  /** Caller 2 deletes the digest, while caller 1 waits. */
  lemma Deletes(env: Env, tr: History, d: Digest, g: Gen) returns (tr': History)
    requires IsRun(env, tr) && 2 !in Now(tr).frames && d !in Now(tr).secret
    ensures IsRun(env, tr') && Now(tr').frames == Now(tr).frames
    ensures tr'.outputs != [] && tr'.outputs[|tr'.outputs| - 1] == Gone(d)
  {
    var s := Now(tr);
    var tr1 := Take(env, tr, BeginDelete(2, d));
    assert Now(tr1).frames == s.frames[2 := Frame(s.clock, Dropping(d, None))];
    tr' := Take(env, tr1, Send(2, Works, g));
    assert Next(Now(tr1), Send(2, Works, g)).1 == SendDrop(Now(tr1), 2, s.clock, d, None, Works).1;
    assert Now(tr').frames == s.frames;
  }

  /**
   Caller 1's Decrypt of d has fetched the document, caller 2's Delete of d is acknowledged, and the
   Decrypt then returns the plaintext. What counts is when the document was fetched.
   */
  lemma InFlightDecryptOutlivesDelete(env: Env, g: Gen) returns (tr: History, i: nat, j: nat)
    requires GoodMaterial(g.dek) && g.digest == NewDigest(env, g.dek, g.plaintext) && g.origin.None?
    ensures IsRun(env, tr) && i < j < |tr.outputs| && tr.outputs[i] == Gone(g.digest)
    ensures tr.outputs[j].PlainOut? && tr.outputs[j].q.digest == g.digest && tr.outputs[j].plaintext == g.plaintext
  {
    var q, w := Query(g.digest, ToDecrypt(SealedFor(g.dek, g.plaintext))), WrappedDek(Blob(g.dek));
    var tr1 := Publishes(env, g);
    var tr2 := Fetches(env, tr1, q, w, g);
    var tr3 := Deletes(env, tr2, g.digest, g);
    tr := Answers(env, tr3, q, w, g);
    i, j := |tr3.outputs| - 1, |tr3.outputs|;
  }

  lemma Answers(env: Env, tr: History, q: Query, w: WrappedDek, g: Gen) returns (tr': History)
    requires IsRun(env, tr) && 1 in Now(tr).frames && GoodMaterial(g.dek)
    requires var f := Now(tr).frames[1]; f.stage.Unwrapping? && f.stage.q == q && f.stage.w == w
    requires q.purpose == ToDecrypt(SealedFor(g.dek, g.plaintext)) && w == WrappedDek(Blob(g.dek))
    ensures IsRun(env, tr') && |tr'.outputs| == |tr.outputs| + 1 && tr'.outputs[..|tr.outputs|] == tr.outputs
    ensures var o := tr'.outputs[|tr.outputs|]; o.PlainOut? && o.q == q && o.plaintext == g.plaintext
  {
    assert Opened(q, w) == Some(g.plaintext);
    tr' := Take(env, tr, Send(1, Works, g));
  }
}
