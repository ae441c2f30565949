/** Finite paths through a step relation. */
module Paths {
  type Relation<!S, !A, !O> = (S, A, O, S) -> bool

  predicate StepAt<S, A, O>(step: Relation<S, A, O>, ss: seq<S>, acts: seq<A>, outs: seq<O>, i: nat)
    requires |ss| == |acts| + 1 && |outs| == |acts| && i < |acts|
  {
    step(ss[i], acts[i], outs[i], ss[i + 1])
  }

  /** States, the actions between them and what each action put out. */
  ghost predicate Path<S, A, O>(step: Relation<S, A, O>, ss: seq<S>, acts: seq<A>, outs: seq<O>) {
    && |ss| == |acts| + 1 && |outs| == |acts|
    && forall i :: 0 <= i < |acts| ==> StepAt(step, ss, acts, outs, i)
  }

  lemma Extend<S, A, O>(step: Relation<S, A, O>, ss: seq<S>, acts: seq<A>, outs: seq<O>, a: A, o: O, s: S)
    requires Path(step, ss, acts, outs) && step(ss[|acts|], a, o, s)
    ensures Path(step, ss + [s], acts + [a], outs + [o])
  {
    forall i | 0 <= i < |acts| + 1 ensures StepAt(step, ss + [s], acts + [a], outs + [o], i) {
      assert i < |acts| ==> StepAt(step, ss, acts, outs, i);
    }
  }

  /** What every step preserves holds from any state of a path on. */
  lemma {:induction false} Stays<S, A, O>(
    step: Relation<S, A, O>, ss: seq<S>, acts: seq<A>, outs: seq<O>, p: S -> bool, i: nat, j: nat)
    requires Path(step, ss, acts, outs) && i <= j < |ss| && p(ss[i])
    requires forall s, a, o, s' :: step(s, a, o, s') && p(s) ==> p(s')
    ensures p(ss[j])
    decreases j
  {
    if i < j {
      Stays(step, ss, acts, outs, p, i, j - 1);
      assert StepAt(step, ss, acts, outs, j - 1);
    }
  }

  // ---------- Coming to an end ----------

  /** One party's way through a path: its own actions, where it is ready, how far it has to go, when it is done. */
  datatype Course<!S, !A, !O> = Course(own: A -> bool, ready: S -> bool, ahead: S -> nat, done: (S, O) -> bool)

  /** An own action brings the party nearer or to its end; any other leaves it where it is. */
  predicate Advances<S, A, O>(c: Course<S, A, O>, s: S, a: A, o: O, s': S) {
    if c.own(a) then (c.ready(s') && c.ahead(s') < c.ahead(s)) || c.done(s', o)
    else c.ready(s') && c.ahead(s') == c.ahead(s)
  }

  predicate AdvancesAt<S, A, O>(c: Course<S, A, O>, ss: seq<S>, acts: seq<A>, outs: seq<O>, k: nat)
    requires |ss| == |acts| + 1 && |outs| == |acts| && k < |acts|
  {
    c.ready(ss[k]) ==> Advances(c, ss[k], acts[k], outs[k], ss[k + 1])
  }

  function OwnCount<S, A, O>(c: Course<S, A, O>, acts: seq<A>, i: nat, j: nat): nat
    requires i <= j <= |acts|
    decreases j
  {
    if i == j then 0 else OwnCount(c, acts, i, j - 1) + if c.own(acts[j - 1]) then 1 else 0
  }

  predicate DoneAt<S, A, O>(c: Course<S, A, O>, ss: seq<S>, acts: seq<A>, outs: seq<O>, k: nat)
    requires |ss| == |acts| + 1 && |outs| == |acts| && k < |acts|
  {
    c.own(acts[k]) && c.done(ss[k + 1], outs[k])
  }

  lemma {:induction false} OnCourse<S, A, O>(
    c: Course<S, A, O>, ss: seq<S>, acts: seq<A>, outs: seq<O>, i: nat, j: nat)
    requires |ss| == |acts| + 1 && |outs| == |acts| && i <= j <= |acts| && c.ready(ss[i])
    requires forall k :: i <= k < j ==> AdvancesAt(c, ss, acts, outs, k)
    ensures || (exists k :: i <= k < j && DoneAt(c, ss, acts, outs, k))
            || (c.ready(ss[j]) && c.ahead(ss[j]) + OwnCount(c, acts, i, j) <= c.ahead(ss[i]))
    decreases j
  {
    if i < j {
      var k := j - 1;
      OnCourse(c, ss, acts, outs, i, k);
      if c.ready(ss[k]) {
        assert AdvancesAt(c, ss, acts, outs, k);
        assert c.own(acts[k]) && c.done(ss[j], outs[k]) ==> DoneAt(c, ss, acts, outs, k);
      }
    }
  }

  /** A party that takes as many steps of its own as it had to go gets to its end. */
  lemma Arrives<S, A, O>(c: Course<S, A, O>, ss: seq<S>, acts: seq<A>, outs: seq<O>, i: nat, j: nat) returns (k: nat)
    requires |ss| == |acts| + 1 && |outs| == |acts| && i <= j <= |acts| && c.ready(ss[i])
    requires forall l :: i <= l < j ==> AdvancesAt(c, ss, acts, outs, l)
    requires OwnCount(c, acts, i, j) >= c.ahead(ss[i]) && (c.ready(ss[j]) ==> c.ahead(ss[j]) > 0)
    ensures i <= k < j && DoneAt(c, ss, acts, outs, k)
  {
    OnCourse(c, ss, acts, outs, i, j);
    k :| i <= k < j && DoneAt(c, ss, acts, outs, k);
  }

  // ---------- Building a path step by step ----------

  datatype Trail<S, A, O> = Trail(states: seq<S>, actions: seq<A>, outputs: seq<O>)

  ghost predicate Walk<S, A, O>(step: Relation<S, A, O>, tr: Trail<S, A, O>) {
    Path(step, tr.states, tr.actions, tr.outputs)
  }

  function Now<S, A, O>(tr: Trail<S, A, O>): S
    requires tr.states != []
  {
    tr.states[|tr.states| - 1]
  }

  /** tr' is tr and one more step, which led to s and put out o. */
  ghost predicate Grows<S, A, O>(step: Relation<S, A, O>, tr: Trail<S, A, O>, o: O, s: S, tr': Trail<S, A, O>) {
    && Walk(step, tr) && Walk(step, tr') && tr'.states[0] == tr.states[0]
    && Now(tr') == s && tr'.outputs == tr.outputs + [o]
  }

  lemma Go<S, A, O>(step: Relation<S, A, O>, tr: Trail<S, A, O>, a: A, o: O, s: S) returns (tr': Trail<S, A, O>)
    requires Walk(step, tr) && step(Now(tr), a, o, s)
    ensures Grows(step, tr, o, s, tr')
  {
    Extend(step, tr.states, tr.actions, tr.outputs, a, o, s);
    tr' := Trail(tr.states + [s], tr.actions + [a], tr.outputs + [o]);
  }
}
