/** Concurrent mirrored pushes without faults, interleaved at single-leg granularity. */
module MirrorInterleaving {
  import opened Prelude
  import opened Mirrored

  /** A push between its two legs. */
  datatype Upload = Upload(cid: Cid, data: bytes)

  datatype State = State(primary: Objects, mirror: Objects, pending: map<nat, Upload>)

  datatype Action =
    | WritePrimary(id: nat, upload: Upload)
    | WriteMirror(id: nat)

  predicate Enabled(s: State, a: Action) {
    match a
    case WritePrimary(id, _) => id !in s.pending
    case WriteMirror(id) => id in s.pending
  }

  function Next(s: State, a: Action): State
    requires Enabled(s, a)
  {
    match a
    case WritePrimary(id, u) => State(s.primary[u.cid := u.data], s.mirror, s.pending[id := u])
    case WriteMirror(id) =>
      var u := s.pending[id];
      State(s.primary, s.mirror[u.cid := u.data], s.pending - {id})
  }

  /** A run is a sequence of states, each reached from the one before by an enabled action. */
  ghost predicate Run(states: seq<State>, actions: seq<Action>) {
    && |states| == |actions| + 1
    && states[0].pending == map[] && states[0].primary == states[0].mirror
    && forall i :: 0 <= i < |actions| ==> Enabled(states[i], actions[i]) && states[i + 1] == Next(states[i], actions[i])
  }

  type Hash = (nat, bytes) -> bytes

  predicate Matches(hash: Hash, cid: Cid, data: bytes) {
    hash(cid.algorithm, data) == cid.digest
  }

  ghost predicate CollisionFree(hash: Hash) {
    forall alg, x, y :: hash(alg, x) == hash(alg, y) ==> x == y
  }

  ghost predicate AllMatch(hash: Hash, m: Objects) {
    forall cid :: cid in m ==> Matches(hash, cid, m[cid])
  }

  predicate Verified(hash: Hash, a: Action) {
    a.WritePrimary? ==> Matches(hash, a.upload.cid, a.upload.data)
  }

  ghost predicate Inv(hash: Hash, s: State) {
    && AllMatch(hash, s.primary) && AllMatch(hash, s.mirror)
    && (forall id :: id in s.pending ==>
          s.pending[id].cid in s.primary && Matches(hash, s.pending[id].cid, s.pending[id].data))
    && s.mirror.Keys <= s.primary.Keys
    && (forall cid :: cid in s.primary && cid !in s.mirror ==> exists id :: id in s.pending && s.pending[id].cid == cid)
  }

  lemma StepKeepsInv(hash: Hash, s: State, a: Action)
    requires Inv(hash, s) && Enabled(s, a) && Verified(hash, a)
    ensures Inv(hash, Next(s, a))
  {
    var s' := Next(s, a);
    forall cid | cid in s'.primary && cid !in s'.mirror
      ensures exists id :: id in s'.pending && s'.pending[id].cid == cid
    {
      if a.WritePrimary? && cid == a.upload.cid {
        assert s'.pending[a.id].cid == cid;
      } else {
        var id :| id in s.pending && s.pending[id].cid == cid;
        assert s'.pending[id].cid == cid;
      }
    }
  }

  lemma {:induction false} RunKeepsInv(hash: Hash, states: seq<State>, actions: seq<Action>, i: nat)
    requires Run(states, actions) && AllMatch(hash, states[0].primary) && i < |states|
    requires forall k :: 0 <= k < |actions| ==> Verified(hash, actions[k])
    ensures Inv(hash, states[i])
  {
    if i > 0 {
      RunKeepsInv(hash, states, actions, i - 1);
      StepKeepsInv(hash, states[i - 1], actions[i - 1]);
    }
  }

  /**
   Every interleaving of verified pushes: at each moment the mirror holds nothing the primary
   lacks and both agree where both have bytes; once no push is between its legs they are equal.
   */
  lemma PushesConverge(hash: Hash, states: seq<State>, actions: seq<Action>, i: nat)
    requires CollisionFree(hash) && Run(states, actions) && AllMatch(hash, states[0].primary) && i < |states|
    requires forall k :: 0 <= k < |actions| ==> Verified(hash, actions[k])
    ensures states[i].mirror.Keys <= states[i].primary.Keys
    ensures forall cid :: cid in states[i].mirror ==> states[i].mirror[cid] == states[i].primary[cid]
    ensures states[i].pending == map[] ==> states[i].primary == states[i].mirror
  {
    RunKeepsInv(hash, states, actions, i);
    var s := states[i];
    forall cid | cid in s.mirror
      ensures s.mirror[cid] == s.primary[cid]
    {
      assert hash(cid.algorithm, s.mirror[cid]) == hash(cid.algorithm, s.primary[cid]);
    }
  }

  /** Verification is what makes this true: two unverified pushes of one CID can end with legs that differ. */
  lemma UnverifiedPushesDiverge(cid: Cid)
    ensures exists states: seq<State>, actions: seq<Action> ::
              Run(states, actions) && states[|actions|].pending == map[]
                && states[|actions|].primary != states[|actions|].mirror
  {
    var a, b := Upload(cid, [1]), Upload(cid, [2]);
    var actions := [WritePrimary(0, a), WritePrimary(1, b), WriteMirror(1), WriteMirror(0)];
    var s0 := State(map[], map[], map[]);
    var s1 := Next(s0, actions[0]);
    var s2 := Next(s1, actions[1]);
    var s3 := Next(s2, actions[2]);
    var s4 := Next(s3, actions[3]);
    var states := [s0, s1, s2, s3, s4];
    assert s4.primary[cid] == [2] && s4.mirror[cid] == [1];
    assert s4.pending == map[];
    assert Run(states, actions) && states[|actions|] == s4;
  }
}
