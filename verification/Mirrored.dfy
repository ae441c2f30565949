/** Two object stores written in order and read with fallback. */
module Mirrored {
  import opened Prelude

  /** A content identifier: an algorithm tag and the digest under it. */
  datatype Cid = Cid(algorithm: nat, digest: bytes)

  datatype StoreError = NotFound | Unavailable

  type Objects = map<Cid, bytes>

  /** A backend. up says whether it answers the request; a request it does not answer has no effect. */
  class ObjectStore {
    var objects: Objects
    var pinned: set<Cid>

    constructor (initial: Objects)
      ensures objects == initial && pinned == {}
    {
      objects, pinned := initial, {};
    }

    method Push(cid: Cid, data: bytes, up: bool) returns (ok: bool)
      modifies this`objects
      ensures ok == up && objects == if up then old(objects)[cid := data] else old(objects)
    {
      ok := up;
      if up {
        objects := objects[cid := data];
      }
    }

    method Fetch(cid: Cid, up: bool) returns (r: Result<bytes, StoreError>)
      ensures r == Lookup(objects, cid, up)
    {
      if !up {
        return Err(Unavailable);
      }
      r := if cid in objects then Ok(objects[cid]) else Err(NotFound);
    }

    method Exists(cid: Cid, up: bool) returns (r: Result<bool, StoreError>)
      ensures r == if up then Ok(cid in objects) else Err(Unavailable)
    {
      r := if up then Ok(cid in objects) else Err(Unavailable);
    }

    method Delete(cid: Cid, up: bool) returns (ok: bool)
      modifies this`objects
      ensures ok == up && objects == if up then old(objects) - {cid} else old(objects)
    {
      ok := up;
      if up {
        objects := objects - {cid};
      }
    }

    method Pin(cid: Cid, up: bool) returns (ok: bool)
      modifies this`pinned
      ensures ok == up && pinned == if up then old(pinned) + {cid} else old(pinned)
    {
      ok := up;
      if up {
        pinned := pinned + {cid};
      }
    }
  }

  /** What a single store holding m answers. */
  function Lookup(m: Objects, cid: Cid, up: bool): Result<bytes, StoreError> {
    if !up then Err(Unavailable) else if cid in m then Ok(m[cid]) else Err(NotFound)
  }

  // ---------- What happened to the two legs ----------

  /** One write as the legs saw it. A push that fails on the primary is not sent to the mirror. */
  datatype Event =
    | Pushed(cid: Cid, data: bytes, primary: bool, mirror: bool)
    | Deleted(cid: Cid, primary: bool, mirror: bool)

  datatype Leg = Primary | Mirror

  function TookEffect(e: Event, leg: Leg): bool {
    if leg.Primary? then e.primary else e.mirror
  }

  /** The content of one leg after a history: every event that took effect there, in order. */
  function Replay(base: Objects, history: seq<Event>, leg: Leg): Objects {
    if history == [] then base
    else
      var e := history[|history| - 1];
      var before := Replay(base, history[..|history| - 1], leg);
      if !TookEffect(e, leg) then before
      else if e.Pushed? then before[e.cid := e.data]
      else before - {e.cid}
  }

  predicate OneLeg(e: Event, cid: Cid) { e.cid == cid && e.primary != e.mirror }
  predicate BothLegs(e: Event, cid: Cid) { e.cid == cid && e.primary && e.mirror }

  /** One leg failed on cid, and no later write of cid took effect on both. */
  predicate Suspect(history: seq<Event>, cid: Cid) {
    exists i :: 0 <= i < |history| && OneLeg(history[i], cid) &&
                forall j :: i < j < |history| ==> !BothLegs(history[j], cid)
  }

  predicate SameAt(a: Objects, b: Objects, cid: Cid) {
    (cid in a <==> cid in b) && (cid in a ==> a[cid] == b[cid])
  }

  /** Divergence is fully accounted for: the legs agree on every CID that is not suspect. */
  lemma {:induction false} LegsAgreeUnlessSuspect(base: Objects, history: seq<Event>, cid: Cid)
    requires !Suspect(history, cid)
    ensures SameAt(Replay(base, history, Primary), Replay(base, history, Mirror), cid)
  {
    if history != [] {
      var n := |history| - 1;
      var front, e := history[..n], history[n];
      if BothLegs(e, cid) {
        BothLegsSettle(base, history, cid);
      } else {
        SuspicionStays(front, e, cid);
        assert front + [e] == history;
        LegsAgreeUnlessSuspect(base, front, cid);
      }
    }
  }

  /** Only a write that takes effect on both legs clears a suspicion; a one-legged write raises it. */
  lemma SuspicionStays(front: seq<Event>, e: Event, cid: Cid)
    ensures Suspect(front + [e], cid) <==> OneLeg(e, cid) || (Suspect(front, cid) && !BothLegs(e, cid))
  {
    var history := front + [e];
    if OneLeg(e, cid) {
      assert OneLeg(history[|front|], cid);
    } else if Suspect(front, cid) && !BothLegs(e, cid) {
      var i :| 0 <= i < |front| && OneLeg(front[i], cid) && forall j :: i < j < |front| ==> !BothLegs(front[j], cid);
      assert OneLeg(history[i], cid);
      assert forall j :: i < j < |history| ==> !BothLegs(history[j], cid);
    } else if Suspect(history, cid) {
      var i :| 0 <= i < |history| && OneLeg(history[i], cid) && forall j :: i < j < |history| ==>
        !BothLegs(history[j], cid);
      assert history[|front|] == e;
      assert forall j :: 0 <= j < |front| ==> front[j] == history[j];
    }
  }

  lemma BothLegsSettle(base: Objects, history: seq<Event>, cid: Cid)
    requires history != [] && BothLegs(history[|history| - 1], cid)
    ensures SameAt(Replay(base, history, Primary), Replay(base, history, Mirror), cid)
  {
  }

  /** The exception is real: a delete the mirror missed leaves the object there and only there. */
  lemma MissedDeleteStaysOnMirror(cid: Cid, data: bytes)
    ensures var history := [Pushed(cid, data, true, true), Deleted(cid, true, false)];
            && Suspect(history, cid)
            && cid !in Replay(map[], history, Primary)
            && cid in Replay(map[], history, Mirror) && Replay(map[], history, Mirror)[cid] == data
  {
    var history := [Pushed(cid, data, true, true), Deleted(cid, true, false)];
    assert OneLeg(history[1], cid);
    assert history[..1] == [history[0]] && history[..1][..0] == [];
    assert Replay(map[], history[..1], Mirror) == map[cid := data];
  }

  // ---------- The decorator ----------

  /** Which legs answer the requests of one call. */
  datatype Legs = Legs(primary: bool, mirror: bool)

  class MirroredStore {
    const primary: ObjectStore
    const mirror: ObjectStore
    ghost const base: Objects
    ghost var history: seq<Event>

    ghost predicate Valid()
      reads this, primary, mirror
    {
      && primary != mirror
      && primary.objects == Replay(base, history, Primary)
      && mirror.objects == Replay(base, history, Mirror)
    }

    constructor (primary: ObjectStore, mirror: ObjectStore)
      requires primary != mirror && primary.objects == mirror.objects
      ensures Valid() && history == [] && base == primary.objects
      ensures this.primary == primary && this.mirror == mirror
    {
      this.primary := primary;
      this.mirror := mirror;
      base := primary.objects;
      history := [];
    }

    /** The caller sees the primary's result; a mirror failure is only logged. */
    method Push(cid: Cid, data: bytes, up: Legs) returns (ok: bool)
      requires Valid()
      modifies this, primary, mirror
      ensures Valid() && ok == up.primary
      ensures history == if ok then old(history) + [Pushed(cid, data, true, up.mirror)] else old(history)
    {
      ok := primary.Push(cid, data, up.primary);
      if !ok {
        return;
      }
      var mirrored := mirror.Push(cid, data, up.mirror);
      history := history + [Pushed(cid, data, true, mirrored)];
      assert history[..|history| - 1] == old(history);
    }

    /**
     The primary answers if it can, else the mirror. For a CID that is not suspect the answer is that of a single
     store that applied every successful write: a hit as long as either leg is up, and a miss
     or an outage as the mirror, asked last, reports it.
     */
    method Fetch(cid: Cid, up: Legs) returns (r: Result<bytes, StoreError>)
      requires Valid()
      ensures r == if up.primary && cid in primary.objects then Ok(primary.objects[cid])
              else Lookup(mirror.objects, cid, up.mirror)
      ensures !Suspect(history, cid) ==>
                var single := Replay(base, history, Primary);
                r == Lookup(single, cid, if cid in single then up.primary || up.mirror else up.mirror)
    {
      if !Suspect(history, cid) {
        LegsAgreeUnlessSuspect(base, history, cid);
      }
      r := primary.Fetch(cid, up.primary);
      if r.Err? {
        r := mirror.Fetch(cid, up.mirror);
      }
    }

    method Exists(cid: Cid, up: Legs) returns (r: Result<bool, StoreError>)
      requires Valid()
      ensures r == if up.primary && cid in primary.objects then Ok(true)
                   else if up.mirror then Ok(cid in mirror.objects)
                   else Err(Unavailable)
      ensures !Suspect(history, cid) ==>
                var held := cid in Replay(base, history, Primary);
                r == if up.mirror || (held && up.primary) then Ok(held) else Err(Unavailable)
    {
      if !Suspect(history, cid) {
        LegsAgreeUnlessSuspect(base, history, cid);
      }
      r := primary.Exists(cid, up.primary);
      if r.Ok? && r.value {
        return;
      }
      r := mirror.Exists(cid, up.mirror);
    }

    /** Both legs are always attempted; the caller sees the primary's result. */
    method Pin(cid: Cid, up: Legs) returns (ok: bool)
      requires Valid()
      modifies primary`pinned, mirror`pinned
      ensures Valid() && ok == up.primary
      ensures primary.pinned == old(primary.pinned) + if up.primary then {cid} else {}
      ensures mirror.pinned == old(mirror.pinned) + if up.mirror then {cid} else {}
    {
      ok := primary.Pin(cid, up.primary);
      var _ := mirror.Pin(cid, up.mirror);
    }

    /** Both legs are always attempted; the caller sees the primary's result. */
    method Delete(cid: Cid, up: Legs) returns (ok: bool)
      requires Valid()
      modifies this, primary, mirror
      ensures Valid() && ok == up.primary
      ensures history == old(history) + [Deleted(cid, up.primary, up.mirror)]
    {
      ok := primary.Delete(cid, up.primary);
      var mirrored := mirror.Delete(cid, up.mirror);
      history := history + [Deleted(cid, ok, mirrored)];
      assert history[..|history| - 1] == old(history);
    }
  }
}
