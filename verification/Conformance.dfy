/** The three backends side by side, and whole runs of each of them. */
module Conformance {
  import opened Prelude
  import opened KeyService
  import Vault
  import Gcp
  import Pkcs11

  // ---------- Runs with faults ----------

  /** rs and ls record a run of calls that led from one ledger to another. */
  ghost predicate RunOf(
    env: Env, ls: seq<Ledger>, rs: seq<Record>, calls: seq<Call>, before: Ledger, after: Ledger)
  {
    && Trace(env, ls, rs) && ls[0] == before && ls[|rs|] == after
    && |rs| == |calls| && forall i :: 0 <= i < |calls| ==> rs[i].call == calls[i]
  }

  /** The driver's state after some of the calls: recorded so far, and the rest of the plan is still fresh. */
  ghost predicate Underway(
    env: Env, ls: seq<Ledger>, rs: seq<Record>, calls: seq<Call>, used: set<Digest>, before: Ledger, now: Ledger)
  {
    && |rs| <= |calls| && RunOf(env, ls, rs, calls[..|rs|], before, now)
    && Within(now, used) && FreshPlan(env, used, calls[|rs|..])
  }

  lemma NextIsFresh(
    env: Env, ls: seq<Ledger>, rs: seq<Record>, calls: seq<Call>, used: set<Digest>, before: Ledger, now: Ledger)
    requires Underway(env, ls, rs, calls, used, before, now) && |rs| < |calls|
    ensures FreshCall(env, now, calls[|rs|])
  {
    PlanIsFresh(env, now, used, calls[|rs|..]);
  }

  lemma Recorded(env: Env, ls: seq<Ledger>, rs: seq<Record>, calls: seq<Call>, used: set<Digest>, before: Ledger,
                 now: Ledger, r: Record, after: Ledger)
    requires Underway(env, ls, rs, calls, used, before, now) && |rs| < |calls|
    requires r.call == calls[|rs|] && Step(env, now, r.call, r.outcome, after, r.faults)
    ensures Underway(env, ls + [after], rs + [r], calls, UsedAfter(env, used, r.call), before, after)
  {
    NextIsFresh(env, ls, rs, calls, used, before, now);
    StepStaysWithin(env, now, used, r.call, r.outcome, after, r.faults);
    TraceExtends(env, ls, rs, r, after);
    assert calls[|rs|..][1..] == calls[|rs| + 1..];
  }

  /**
   Any run on Vault, whatever fails, is a trace of the abstract service. In particular a Transit key
   lacks its record exactly when an earlier call left it so and no deletion was acknowledged since.
   */
  method DriveVault(v: Vault.VaultTransit, calls: seq<Call>, ghost used: set<Digest>)
    returns (rs: seq<Record>, ghost ls: seq<Ledger>)
    requires v.Valid() && Within(v.ledger, used) && FreshPlan(v.env, used, calls)
    modifies v, v.server
    ensures v.Valid() && RunOf(v.env, ls, rs, calls, old(v.ledger), v.ledger)
    ensures forall d :: d !in old(v.ledger).stranded ==>
              (KeyWithoutRecord(v, d) <==> LeftBehind(v.env, ls, rs, |rs|, d))
  {
    rs, ls := [], [v.ledger];
    ghost var seen := used;
    for i := 0 to |calls|
      invariant |rs| == i && v.Valid() && Underway(v.env, ls, rs, calls, seen, old(v.ledger), v.ledger)
    {
      NextIsFresh(v.env, ls, rs, calls, seen, old(v.ledger), v.ledger);
      ghost var now := v.ledger;
      var failures, cleanups := v.server.failures, v.server.failedCleanups;
      var o := v.Serve(calls[i]);
      var r := Record(calls[i], o, v.Faulted(failures, cleanups));
      Recorded(v.env, ls, rs, calls, seen, old(v.ledger), now, r, v.ledger);
      rs, ls, seen := rs + [r], ls + [v.ledger], UsedAfter(v.env, seen, calls[i]);
    }
    assert calls[..|rs|] == calls;
    forall d | d !in old(v.ledger).stranded
      ensures KeyWithoutRecord(v, d) <==> LeftBehind(v.env, ls, rs, |rs|, d)
    {
      assert Vault.Agrees(v.server.remote, v.ledger, d);
      StrandedExactly(v.env, ls, rs, |rs|, d);
    }
  }

  ghost predicate KeyWithoutRecord(v: Vault.VaultTransit, d: Digest)
    reads v, v.server
  {
    Vault.TransitName(d) in v.server.remote.transit && Vault.KvName(d) !in v.server.remote.kv
  }

  /** Any run on Cloud KMS, whatever fails, is a trace of the abstract service. */
  method DriveGcp(g: Gcp.GcpKms, calls: seq<Call>, ghost used: set<Digest>)
    returns (rs: seq<Record>, ghost ls: seq<Ledger>)
    requires g.Valid() && Within(g.ledger, used) && FreshPlan(g.env, used, calls)
    modifies g, g.cloud
    ensures g.Valid() && RunOf(g.env, ls, rs, calls, old(g.ledger), g.ledger)
  {
    rs, ls := [], [g.ledger];
    ghost var seen := used;
    for i := 0 to |calls|
      invariant |rs| == i && g.Valid() && Underway(g.env, ls, rs, calls, seen, old(g.ledger), g.ledger)
    {
      NextIsFresh(g.env, ls, rs, calls, seen, old(g.ledger), g.ledger);
      ghost var now := g.ledger;
      var failures := g.cloud.failures;
      var o := g.Serve(calls[i]);
      var r := Record(calls[i], o, Faults(g.cloud.failures > failures, false));
      Recorded(g.env, ls, rs, calls, seen, old(g.ledger), now, r, g.ledger);
      rs, ls, seen := rs + [r], ls + [g.ledger], UsedAfter(g.env, seen, calls[i]);
    }
    assert calls[..|rs|] == calls;
  }

  /** Any run on PKCS#11, open or closed and whatever fails, is a trace of the abstract service. */
  method DrivePkcs11(p: Pkcs11.Service, calls: seq<Call>, ghost used: set<Digest>)
    returns (rs: seq<Record>, ghost ls: seq<Ledger>)
    requires p.Valid() && Within(p.ledger, used) && FreshPlan(p.env, used, calls)
    modifies p, p.token
    ensures p.Valid() && RunOf(p.env, ls, rs, calls, old(p.ledger), p.ledger)
    ensures p.NewLeftoverHasCause(old(p.index).leftovers, old(p.token.failedDestroys))
  {
    rs, ls := [], [p.ledger];
    ghost var seen := used;
    for i := 0 to |calls|
      invariant |rs| == i && p.Valid() && Underway(p.env, ls, rs, calls, seen, old(p.ledger), p.ledger)
      invariant p.NewLeftoverHasCause(old(p.index).leftovers, old(p.token.failedDestroys))
    {
      NextIsFresh(p.env, ls, rs, calls, seen, old(p.ledger), p.ledger);
      ghost var now := p.ledger;
      var failures := p.token.failures;
      var o := p.Serve(calls[i]);
      var r := Record(calls[i], o, Faults(!p.open || p.token.failures > failures, false));
      Recorded(p.env, ls, rs, calls, seen, old(p.ledger), now, r, p.ledger);
      rs, ls, seen := rs + [r], ls + [p.ledger], UsedAfter(p.env, seen, calls[i]);
    }
    assert calls[..|rs|] == calls;
  }

  // ---------- Runs without faults, on all three ----------

  /** The outcomes the abstract service gives to a sequence of calls. */
  function Outcomes(env: Env, live: Records, calls: seq<Call>): seq<Outcome>
    decreases |calls|
  {
    if calls == [] then []
    else
      var (live', o) := Apply(env, live, calls[0]);
      [o] + Outcomes(env, live', calls[1..])
  }

  function CallsOf(rs: seq<Record>): (cs: seq<Call>)
    ensures |cs| == |rs| && forall i :: 0 <= i < |rs| ==> cs[i] == rs[i].call
  {
    if rs == [] then [] else [rs[0].call] + CallsOf(rs[1..])
  }

  function OutcomesOf(rs: seq<Record>): seq<Outcome> {
    if rs == [] then [] else [rs[0].outcome] + OutcomesOf(rs[1..])
  }

  predicate Clean(rs: seq<Record>) {
    forall i :: 0 <= i < |rs| ==> !rs[i].faults.request
  }

  /** A trace without failed requests shows the abstract service's outcomes. */
  lemma {:induction false} CleanTrace(env: Env, ls: seq<Ledger>, rs: seq<Record>)
    requires Trace(env, ls, rs) && Clean(rs)
    ensures OutcomesOf(rs) == Outcomes(env, ls[0].live, CallsOf(rs))
    decreases |rs|
  {
    if rs != [] {
      var r := rs[0];
      assert Served(env, ls, rs, 0);
      FaultFreeStep(env, ls[0], r.call, r.outcome, ls[1], r.faults);
      TraceTail(env, ls, rs);
      CleanTrace(env, ls[1..], rs[1..]);
      assert CallsOf(rs)[1..] == CallsOf(rs[1..]);
    }
  }

  lemma TraceTail(env: Env, ls: seq<Ledger>, rs: seq<Record>)
    requires Trace(env, ls, rs) && rs != []
    ensures Trace(env, ls[1..], rs[1..])
  {
    TraceWellFormed(env, ls, rs, 1);
    forall i | 0 <= i < |rs| - 1 ensures Served(env, ls[1..], rs[1..], i) {
      assert Served(env, ls, rs, i + 1);
    }
  }

  lemma CleanRun(env: Env, ls: seq<Ledger>, rs: seq<Record>, calls: seq<Call>, before: Ledger, after: Ledger)
    requires RunOf(env, ls, rs, calls, before, after) && Clean(rs)
    ensures OutcomesOf(rs) == Outcomes(env, before.live, calls)
  {
    CleanTrace(env, ls, rs);
    assert CallsOf(rs) == calls;
  }

  /**
   The same calls on all three backends. A backend on which no request failed gives every call the
   outcome of the abstract service; so all three look alike whenever none fails.
   */
  method RunAll(v: Vault.VaultTransit, g: Gcp.GcpKms, p: Pkcs11.Service, calls: seq<Call>, ghost used: set<Digest>)
    returns (vs: seq<Record>, gs: seq<Record>, ps: seq<Record>)
    requires v.Valid() && g.Valid() && p.Valid() && v.env == g.env == p.env
    requires v.ledger.live == g.ledger.live == p.ledger.live && FreshPlan(v.env, used, calls)
    requires Within(v.ledger, used) && Within(g.ledger, used) && Within(p.ledger, used)
    modifies v, v.server, g, g.cloud, p, p.token
    ensures v.Valid() && g.Valid() && p.Valid()
    ensures var expected := Outcomes(v.env, old(v.ledger.live), calls);
            && (Clean(vs) ==> OutcomesOf(vs) == expected)
            && (Clean(gs) ==> OutcomesOf(gs) == expected)
            && (Clean(ps) ==> OutcomesOf(ps) == expected)
    ensures CallsOf(vs) == CallsOf(gs) == CallsOf(ps) == calls
  {
    ghost var vl, gl, pl;
    vs, vl := DriveVault(v, calls, used);
    gs, gl := DriveGcp(g, calls, used);
    ps, pl := DrivePkcs11(p, calls, used);
    if Clean(vs) {
      CleanRun(v.env, vl, vs, calls, old(v.ledger), v.ledger);
    }
    if Clean(gs) {
      CleanRun(v.env, gl, gs, calls, old(g.ledger), g.ledger);
    }
    if Clean(ps) {
      CleanRun(v.env, pl, ps, calls, old(p.ledger), p.ledger);
    }
  }
}
