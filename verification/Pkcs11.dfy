/** The PKCS#11 backend: keys as token objects, found by label, behind one mutex. */
module Pkcs11 {
  import opened Prelude
  import opened KeyService
  import Hex

  // ---------- Labels ----------

  function KeyLabel(prefix: string, d: Digest): (s: string)
    ensures |s| >= |prefix| && s[..|prefix|] == prefix && Hex.Decode(s[|prefix|..]) == Some(d)
  {
    var s := prefix + Hex.Encode(d);
    assert s[|prefix|..] == Hex.Encode(d);
    s
  }

  function TmpLabel(prefix: string, nonce: bytes): (s: string)
    ensures |s| > |prefix| && s[|prefix|] == 't'
  {
    prefix + "tmp-" + Hex.Encode(nonce)
  }

  /** The label a key is generated under can never be looked up as a committed one. */
  lemma LabelsDisjoint(prefix: string, nonce: bytes, d: Digest)
    ensures TmpLabel(prefix, nonce) != KeyLabel(prefix, d)
  {
    var s := KeyLabel(prefix, d);
    assert Hex.IsHex(s[|prefix|..]);
    if |s| > |prefix| {
      assert Hex.Value(s[|prefix|..][0]).Some?;
    }
  }

  predicate StartsWith(s: string, prefix: string) {
    |s| >= |prefix| && s[..|prefix|] == prefix
  }

  predicate IsTmp(prefix: string, tag: string) {
    StartsWith(tag, prefix + "tmp-")
  }

  lemma TmpIsNotFinal(prefix: string, tag: string, d: Digest)
    requires IsTmp(prefix, tag)
    ensures tag != KeyLabel(prefix, d)
  {
    assert tag[..|prefix| + 4][|prefix|] == 't';
    LabelsDisjoint(prefix, [], d);
    var s := KeyLabel(prefix, d);
    if |s| > |prefix| {
      assert Hex.Value(s[|prefix|..][0]).Some?;
    }
  }

  // ---------- The token ----------

  datatype Object = Object(tag: string, value: bytes, id: bytes)

  datatype LoginResult = LoggedIn | AlreadyLoggedIn | LoginFailed
  datatype DestroyResult = Destroyed | HandleInvalid | DestroyFailed

  /**
   The module and its token. sessions holds, for each session ever opened, how often it was
   closed; calls counts every entry into the module. Any call may fail without effect.
   */
  class Token {
    var objects: map<nat, Object>
    var nextHandle: nat
    var sessions: seq<nat>
    var calls: nat
    var failures: nat
    var failedDestroys: nat  // those among the failures that were destroy calls

    /** Every session ever opened has been closed exactly once. */
    ghost predicate Balanced()
      reads this
    {
      forall s :: 0 <= s < |sessions| ==> sessions[s] == 1
    }

    /** Session s is open and every other one has been closed exactly once. */
    ghost predicate OnlyOpen(s: nat)
      reads this
    {
      s < |sessions| && forall t :: 0 <= t < |sessions| ==> sessions[t] == if t == s then 0 else 1
    }

    constructor ()
      ensures Balanced() && objects == map[] && nextHandle == 0 && calls == 0 && failures == 0 && failedDestroys == 0
    {
      objects, sessions := map[], [];
      nextHandle, calls, failures, failedDestroys := 0, 0, 0, 0;
    }

    method Fault() returns (ok: bool)
      modifies this`failures, this`calls
      ensures failures == (if ok then old(failures) else old(failures) + 1)
    {
      calls := calls + 1;
      ok := *;
      if !ok {
        failures := failures + 1;
      }
    }

    method OpenSession() returns (s: Option<nat>)
      requires Balanced()
      modifies this`sessions, this`failures, this`calls
      ensures s.Some? ==> OnlyOpen(s.value) && failures == old(failures)
      ensures s.None? ==> Balanced() && failures == old(failures) + 1
    {
      var ok := Fault();
      if !ok {
        return None;
      }
      sessions := sessions + [0];
      s := Some(|sessions| - 1);
    }

    method Login(s: nat) returns (r: LoginResult)
      requires OnlyOpen(s)
      modifies this`failures, this`calls
      ensures failures == (if r == LoginFailed then old(failures) + 1 else old(failures))
    {
      var ok := Fault();
      if !ok {
        return LoginFailed;
      }
      if {
        case true => r := LoggedIn;
        case true => r := AlreadyLoggedIn;
      }
    }

    /** The caller ignores the result. */
    method Logout(s: nat)
      requires OnlyOpen(s)
      modifies this`calls
    {
      calls := calls + 1;
    }

    /** The caller ignores the result; what counts is that the call is made. */
    method CloseSession(s: nat)
      requires OnlyOpen(s)
      modifies this`sessions, this`calls
      ensures Balanced()
    {
      calls := calls + 1;
      sessions := sessions[s := sessions[s] + 1];
    }

    /** Asks for one match only, and may be given any. */
    method FindObject(s: nat, tag: string) returns (ok: bool, h: Option<nat>)
      requires OnlyOpen(s)
      modifies this`failures, this`calls
      ensures failures == (if ok then old(failures) else old(failures) + 1)
      ensures ok && h.Some? ==> h.value in objects && objects[h.value].tag == tag
      ensures ok && h.None? ==> forall k :: k in objects ==> objects[k].tag != tag
    {
      h := None;
      ok := Fault();
      if ok && exists k :: k in objects && objects[k].tag == tag {
        var k :| k in objects && objects[k].tag == tag;
        h := Some(k);
      }
    }

    method GenerateKey(s: nat, tag: string, id: bytes, value: bytes) returns (h: Option<nat>)
      requires OnlyOpen(s)
      modifies this`objects, this`nextHandle, this`failures, this`calls
      ensures h.Some? ==>
                && h.value == old(nextHandle) && nextHandle == old(nextHandle) + 1 && failures == old(failures)
                && objects == old(objects)[h.value := Object(tag, value, id)]
      ensures h.None? ==> objects == old(objects) && nextHandle == old(nextHandle) && failures == old(failures) + 1
    {
      var ok := Fault();
      if !ok {
        return None;
      }
      objects := objects[nextHandle := Object(tag, value, id)];
      h := Some(nextHandle);
      nextHandle := nextHandle + 1;
    }

    method SetLabel(s: nat, h: nat, tag: string) returns (ok: bool)
      requires OnlyOpen(s) && h in objects
      modifies this`objects, this`failures, this`calls
      ensures failures == (if ok then old(failures) else old(failures) + 1)
      ensures objects == if ok then old(objects)[h := old(objects)[h].(tag := tag)] else old(objects)
    {
      ok := Fault();
      if ok {
        objects := objects[h := objects[h].(tag := tag)];
      }
    }

    method DestroyObject(s: nat, h: nat) returns (r: DestroyResult)
      requires OnlyOpen(s)
      modifies this`objects, this`failures, this`failedDestroys, this`calls
      ensures failures == (if r == DestroyFailed then old(failures) + 1 else old(failures))
      ensures failedDestroys == (if r == DestroyFailed then old(failedDestroys) + 1 else old(failedDestroys))
      ensures r == Destroyed ==> objects == old(objects) - {h}
      ensures r == HandleInvalid ==> h !in objects
      ensures r != Destroyed ==> objects == old(objects)
    {
      var ok := Fault();
      if !ok {
        failedDestroys := failedDestroys + 1;
        r := DestroyFailed;
      } else if h !in objects {
        r := HandleInvalid;
      } else {
        objects := objects - {h};
        r := Destroyed;
      }
    }
  }

  // ---------- Objects and the ledger ----------

  /** Which object holds which digest, and the temporary objects whose destruction failed. */
  datatype Index = Index(handle: map<Digest, nat>, owner: map<nat, Digest>, leftovers: set<nat>)

  /** A live digest has its object, labelled and loaded accordingly. */
  predicate HasObject(objects: map<nat, Object>, prefix: string, l: Ledger, x: Index, d: Digest) {
    && (d in l.live <==> d in x.handle)
    && (d in l.live ==>
          var h := x.handle[d];
          && h in objects && h in x.owner && x.owner[h] == d
          && objects[h] == Object(KeyLabel(prefix, d), l.live[d].key, l.live[d].nonce))
  }

  /** An object is a live digest's own, a leftover under a temporary label, or another service's. */
  predicate Accounted(objects: map<nat, Object>, prefix: string, x: Index, h: nat) {
    h in objects ==>
      if h in x.owner then x.owner[h] in x.handle && x.handle[x.owner[h]] == h
      else if h in x.leftovers then IsTmp(prefix, objects[h].tag)
      else !StartsWith(objects[h].tag, prefix)
  }

  ghost predicate Tied(objects: map<nat, Object>, nextHandle: nat, prefix: string, l: Ledger, x: Index) {
    && WellFormed(l) && l.stranded == {}
    && (forall d :: HasObject(objects, prefix, l, x, d))
    && (forall h :: Accounted(objects, prefix, x, h))
    && (forall h :: h in objects ==> h < nextHandle)
    && (forall h :: h in x.owner || h in x.leftovers ==> h < nextHandle)
  }

  /** Lookup by final label is exact: it finds the digest's own object, and only when it is live. */
  lemma LookupExact(objects: map<nat, Object>, nextHandle: nat, prefix: string, l: Ledger, x: Index, h: nat, d: Digest)
    requires Tied(objects, nextHandle, prefix, l, x) && h in objects
    ensures objects[h].tag == KeyLabel(prefix, d) <==> d in x.handle && x.handle[d] == h
    ensures d in x.handle <==> d in l.live
  {
    assert HasObject(objects, prefix, l, x, d) && Accounted(objects, prefix, x, h);
    if h in x.owner {
      assert HasObject(objects, prefix, l, x, x.owner[h]);
    } else if h in x.leftovers {
      TmpIsNotFinal(prefix, objects[h].tag, d);
    }
  }

  /** No two objects ever share a final label. */
  lemma FinalLabelsUnique(objects: map<nat, Object>, nextHandle: nat, prefix: string, l: Ledger, x: Index, h: nat,
      k: nat, d: Digest)
    requires Tied(objects, nextHandle, prefix, l, x) && h in objects && k in objects
    requires objects[h].tag == KeyLabel(prefix, d) && objects[k].tag == KeyLabel(prefix, d)
    ensures h == k
  {
    LookupExact(objects, nextHandle, prefix, l, x, h, d);
    LookupExact(objects, nextHandle, prefix, l, x, k, d);
  }

  /** A temporary label marks a leftover and nothing else. */
  lemma TemporaryIsLeftover(
    objects: map<nat, Object>, nextHandle: nat, prefix: string, l: Ledger, x: Index, h: nat)
    requires Tied(objects, nextHandle, prefix, l, x) && h in objects && IsTmp(prefix, objects[h].tag)
    ensures h in x.leftovers && h !in x.owner
  {
    var tag := objects[h].tag;
    assert Accounted(objects, prefix, x, h);
    assert tag[..|prefix|] == tag[..|prefix| + 4][..|prefix|] == prefix;
    if h in x.owner {
      assert HasObject(objects, prefix, l, x, x.owner[h]);
      TmpIsNotFinal(prefix, tag, x.owner[h]);
    }
  }

  lemma {:induction false} SubsetSize(a: set<nat>, b: set<nat>)
    requires a <= b
    ensures |a| <= |b|
  {
    if a != {} {
      var k :| k in a;
      SubsetSize(a - {k}, b - {k});
    }
  }

  lemma TiedLeftover(objects: map<nat, Object>, n: nat, prefix: string, l: Ledger, x: Index, o: Object)
    requires Tied(objects, n, prefix, l, x) && IsTmp(prefix, o.tag)
    ensures Tied(objects[n := o], n + 1, prefix, l, x.(leftovers := x.leftovers + {n}))
  {
    var objects', x' := objects[n := o], x.(leftovers := x.leftovers + {n});
    forall d ensures HasObject(objects', prefix, l, x', d) {
      assert HasObject(objects, prefix, l, x, d);
    }
    forall h ensures Accounted(objects', prefix, x', h) {
      assert Accounted(objects, prefix, x, h);
    }
  }

  /** Destroying an object that no digest owns. */
  lemma TiedDestroyLeftover(objects: map<nat, Object>, n: nat, prefix: string, l: Ledger, x: Index, k: nat)
    requires Tied(objects, n, prefix, l, x) && k !in x.owner
    ensures Tied(objects - {k}, n, prefix, l, x.(leftovers := x.leftovers - {k}))
  {
    var objects', x' := objects - {k}, x.(leftovers := x.leftovers - {k});
    forall d ensures HasObject(objects', prefix, l, x', d) {
      assert HasObject(objects, prefix, l, x, d);
    }
    forall h ensures Accounted(objects', prefix, x', h) {
      assert Accounted(objects, prefix, x, h);
    }
  }

  /** Relabelling commits: the temporary object becomes the digest's own. */
  lemma TiedCommit(objects: map<nat, Object>, n: nat, prefix: string, l: Ledger, x: Index, k: nat, d: Digest,
      m: Material)
    requires Tied(objects, n, prefix, l, x) && Unused(l, d) && GoodMaterial(m)
    requires k in objects && k !in x.owner && k < n && objects[k].value == m.key && objects[k].id == m.nonce
    ensures Tied(objects[k := objects[k].(tag := KeyLabel(prefix, d))], n, prefix, l.(live := l.live[d := m]),
                 Index(x.handle[d := k], x.owner[k := d], x.leftovers - {k}))
  {
    var objects' := objects[k := objects[k].(tag := KeyLabel(prefix, d))];
    var l', x' := l.(live := l.live[d := m]), Index(x.handle[d := k], x.owner[k := d], x.leftovers - {k});
    forall e ensures HasObject(objects', prefix, l', x', e) {
      assert HasObject(objects, prefix, l, x, e);
    }
    forall h ensures Accounted(objects', prefix, x', h) {
      assert HasObject(objects, prefix, l, x, d);
      assert Accounted(objects, prefix, x, h);
    }
  }

  lemma TiedDelete(objects: map<nat, Object>, n: nat, prefix: string, l: Ledger, x: Index, d: Digest)
    requires Tied(objects, n, prefix, l, x)
    ensures d in l.live ==>
              && d in x.handle
              && Tied(objects - {x.handle[d]}, n, prefix, Ledger(l.live - {d}, l.stranded - {d}, l.erased + {d}),
                      x.(handle := x.handle - {d}, owner := x.owner - {x.handle[d]}))
    ensures d !in l.live ==> Tied(objects, n, prefix, Ledger(l.live - {d}, l.stranded - {d}, l.erased + {d}), x)
  {
    assert HasObject(objects, prefix, l, x, d);
    var l' := Ledger(l.live - {d}, l.stranded - {d}, l.erased + {d});
    if d in l.live {
      var objects', x' := objects - {x.handle[d]}, x.(handle := x.handle - {d}, owner := x.owner - {x.handle[d]});
      forall e ensures HasObject(objects', prefix, l', x', e) {
        assert HasObject(objects, prefix, l, x, e);
      }
      forall h ensures Accounted(objects', prefix, x', h) {
        assert Accounted(objects, prefix, x, h);
      }
    } else {
      forall e ensures HasObject(objects, prefix, l', x, e) {
        assert HasObject(objects, prefix, l, x, e);
      }
    }
  }

  // ---------- The backend ----------

  class Service {
    const prefix: string
    const env: Env
    const token: Token
    var open: bool      // false once Close has dropped the module context
    var locked: bool    // the mutex
    ghost var ledger: Ledger
    ghost var index: Index

    ghost predicate TokenTied()
      reads this, token
    {
      Tied(token.objects, token.nextHandle, prefix, ledger, index)
    }

    /** Every leftover is the doing of a destroy call that failed. */
    ghost predicate Tidy()
      reads this, token
    {
      |index.leftovers| <= token.failedDestroys
    }

    /** Whenever the mutex is free: objects accounted for, every session closed exactly once. */
    ghost predicate Valid()
      reads this, token
    {
      !locked && TokenTied() && Tidy() && token.Balanced()
    }

    ghost function Temporaries(): set<nat>
      reads this, token
    {
      set h | h in token.objects && IsTmp(prefix, token.objects[h].tag)
    }

    /** Whenever the mutex is free, there are no more temporary objects than destroy calls that failed. */
    lemma TemporariesHaveCause()
      requires Valid()
      ensures |Temporaries()| <= token.failedDestroys
      ensures token.failedDestroys == 0 ==> Temporaries() == {}
    {
      forall h | h in Temporaries() ensures h in index.leftovers {
        TemporaryIsLeftover(token.objects, token.nextHandle, prefix, ledger, index, h);
      }
      SubsetSize(Temporaries(), index.leftovers);
    }

    constructor (env: Env, prefix: string)
      ensures Valid() && open && fresh(token) && this.env == env && ledger == Ledger(map[], {}, {})
    {
      this.env := env;
      this.prefix := prefix;
      token := new Token();
      open, locked := true, false;
      ledger := Ledger(map[], {}, {});
      index := Index(map[], map[], {});
    }

    method Lock()
      requires !locked
      modifies this`locked
      ensures locked
    {
      locked := true;
    }

    /** Releasing the mutex carries an obligation: no session may still be open. */
    method Unlock()
      requires locked && token.Balanced()
      modifies this`locked
      ensures !locked
    {
      locked := false;
    }

    /** Finalizes the module; afterwards no call reaches it. */
    method Close()
      requires Valid()
      modifies this, token`calls
      ensures Valid() && !open && ledger == old(ledger) && index == old(index)
      ensures !old(open) ==> token.calls == old(token.calls)
    {
      Lock();
      if open {
        token.calls := token.calls + 2;
        open := false;
      }
      Unlock();
    }

    /** Opens and logs in; when already logged in the first session is closed and a second one used. */
    method OpenSession() returns (s: Option<nat>)
      requires locked && open && token.Balanced()
      modifies token`sessions, token`failures, token`calls
      ensures s.Some? ==> token.OnlyOpen(s.value)
      ensures s.None? ==> token.Balanced() && token.failures > old(token.failures)
      ensures token.failures >= old(token.failures)
    {
      s := token.OpenSession();
      if s.None? {
        return;
      }
      var login := token.Login(s.value);
      if login == LoggedIn {
        return;
      }
      token.CloseSession(s.value);
      if login == AlreadyLoggedIn {
        s := token.OpenSession();
      } else {
        s := None;
      }
    }

    method CloseSession(s: nat)
      requires locked && token.OnlyOpen(s)
      modifies token`sessions, token`calls
      ensures token.Balanced()
    {
      token.Logout(s);
      token.CloseSession(s);
    }

    /** Lock, check, open a session: the preamble every operation shares. */
    method Begin() returns (s: Option<nat>)
      requires Valid()
      modifies this`locked, token`sessions, token`failures, token`calls
      ensures TokenTied() && Tidy() && token.failures >= old(token.failures)
      ensures s.Some? ==> open && locked && token.OnlyOpen(s.value)
      ensures s.None? ==> Valid()
      ensures s.None? && open ==> token.failures > old(token.failures)
      ensures !open ==> s.None? && token.calls == old(token.calls) && token.failures == old(token.failures)
    {
      Lock();
      s := None;
      if open {
        s := OpenSession();
      }
      if s.None? {
        Unlock();
      }
    }

    method End(s: nat)
      requires locked && TokenTied() && Tidy() && token.OnlyOpen(s)
      modifies this`locked, token`sessions, token`calls
      ensures Valid()
    {
      CloseSession(s);
      Unlock();
    }

    /** Compared with before, something was left behind only if a destroy call failed since. */
    ghost predicate NewLeftoverHasCause(leftovers: set<nat>, failedDestroys: nat)
      reads this, token
    {
      && token.failedDestroys >= failedDestroys
      && (token.failedDestroys == failedDestroys ==> index.leftovers == leftovers)
    }

    /** Two-phase label commit: generate under a temporary label, encrypt, then relabel. */
    method CommitKey(s: nat, pt: bytes, dek: Material) returns (o: Outcome)
      requires locked && TokenTied() && Tidy() && token.OnlyOpen(s) && FreshCall(env, ledger, Generate(pt, dek))
      modifies this`ledger, this`index, token`objects, token`nextHandle, token`failures, token`failedDestroys,
        token`calls
      ensures TokenTied() && Tidy() && token.OnlyOpen(s) && token.failures >= old(token.failures)
      ensures GenerateStep(env, old(ledger), pt, dek, o, ledger, Faults(token.failures > old(token.failures), false))
      ensures NewLeftoverHasCause(old(index).leftovers, old(token.failedDestroys))
    {
      ghost var before := index.leftovers;
      var tmp := TmpLabel(prefix, dek.nonce);
      TmpLabelIsTmp(prefix, dek.nonce);
      TiedLeftover(token.objects, token.nextHandle, prefix, ledger, index, Object(tmp, dek.key, dek.nonce));
      var h := token.GenerateKey(s, tmp, dek.nonce, dek.key);
      if h.None? {
        return Failed(Other);
      }
      index := index.(leftovers := index.leftovers + {h.value});
      assert index.leftovers - {h.value} == before;
      var encrypted := token.Fault();
      if !encrypted {
        DestroyTemporary(s, h.value);
        return Failed(Other);
      }
      o := Relabel(s, h.value, pt, dek);
    }

    /** The second phase: the object takes its final label, or is destroyed. */
    method Relabel(s: nat, h: nat, pt: bytes, dek: Material) returns (o: Outcome)
      requires locked && TokenTied() && token.OnlyOpen(s) && FreshCall(env, ledger, Generate(pt, dek))
      requires h in token.objects && h !in index.owner && h < token.nextHandle
      requires token.objects[h].value == dek.key && token.objects[h].id == dek.nonce
      requires |index.leftovers - {h}| <= token.failedDestroys
      modifies this`ledger, this`index, token`objects, token`failures, token`failedDestroys, token`calls
      ensures TokenTied() && Tidy() && token.OnlyOpen(s) && token.failures >= old(token.failures)
      ensures GenerateStep(env, old(ledger), pt, dek, o, ledger, Faults(token.failures > old(token.failures), false))
      ensures NewLeftoverHasCause(old(index).leftovers - {h}, old(token.failedDestroys))
    {
      var ct := SealedFor(dek, pt);
      var d := env.hash(ct);
      TiedCommit(token.objects, token.nextHandle, prefix, ledger, index, h, d, dek);
      var ok := token.SetLabel(s, h, KeyLabel(prefix, d));
      if !ok {
        DestroyTemporary(s, h);
        return Failed(Other);
      }
      ledger := ledger.(live := ledger.live[d := dek]);
      index := Index(index.handle[d := h], index.owner[h := d], index.leftovers - {h});
      o := Generated(d, ct);
    }

    /** Best effort: an object whose destruction fails stays behind as a leftover. */
    method DestroyTemporary(s: nat, h: nat)
      requires locked && TokenTied() && token.OnlyOpen(s) && h in token.objects && h !in index.owner
      requires |index.leftovers - {h}| <= token.failedDestroys
      modifies this`index, token`objects, token`failures, token`failedDestroys, token`calls
      ensures TokenTied() && Tidy() && token.OnlyOpen(s) && token.failures >= old(token.failures)
      ensures NewLeftoverHasCause(old(index).leftovers - {h}, old(token.failedDestroys))
    {
      TiedDestroyLeftover(token.objects, token.nextHandle, prefix, ledger, index, h);
      var r := token.DestroyObject(s, h);
      if r == Destroyed {
        index := index.(leftovers := index.leftovers - {h});
      } else {
        assert index.leftovers <= (index.leftovers - {h}) + {h};
        SubsetSize(index.leftovers, (index.leftovers - {h}) + {h});
      }
    }

    method GenerateAndEncrypt(pt: bytes, dek: Material) returns (o: Outcome)
      requires Valid() && FreshCall(env, ledger, Generate(pt, dek))
      modifies this`locked, this`ledger, this`index, token
      ensures Valid() && token.failures >= old(token.failures)
      ensures open ==> GenerateStep(env, old(ledger), pt, dek, o, ledger,
              Faults(token.failures > old(token.failures), false))
      ensures NewLeftoverHasCause(old(index).leftovers, old(token.failedDestroys))
      ensures !open ==> o == Failed(Other) && ledger == old(ledger) && token.calls == old(token.calls)
    {
      var s := Begin();
      if s.None? {
        return Failed(Other);
      }
      o := CommitKey(s.value, pt, dek);
      End(s.value);
    }

    /** The object for d, if any: exactly the live digest's own. */
    method FindKey(s: nat, d: Digest) returns (ok: bool, h: Option<nat>)
      requires locked && TokenTied() && Tidy() && token.OnlyOpen(s)
      modifies token`failures, token`calls
      ensures TokenTied() && Tidy() && token.OnlyOpen(s)
      ensures token.failures == (if ok then old(token.failures) else old(token.failures) + 1)
      ensures ok && h.Some? ==>
                && d in ledger.live && d in index.handle && h.value == index.handle[d] && h.value in token.objects
                && token.objects[h.value].value == ledger.live[d].key
                   && token.objects[h.value].id == ledger.live[d].nonce
      ensures ok && h.None? ==> d !in ledger.live
    {
      assert HasObject(token.objects, prefix, ledger, index, d);
      ok, h := token.FindObject(s, KeyLabel(prefix, d));
      if ok && h.Some? {
        LookupExact(token.objects, token.nextHandle, prefix, ledger, index, h.value, d);
      }
    }

    method WrapForRecipient(d: Digest, recipient: bytes) returns (o: Outcome)
      requires Valid()
      modifies this`locked, token`sessions, token`failures, token`calls
      ensures Valid() && token.failures >= old(token.failures)
      ensures open ==> ReadStep(env, ledger, Wrap(d, recipient), o, ledger,
              Faults(token.failures > old(token.failures), false))
      ensures !open ==>
                && token.calls == old(token.calls) && o.Failed?
                && (o == Failed(Other) || o == Read(env, ledger.live, Wrap(d, recipient)))
    {
      if recipient == [] || !env.validRecipient(recipient) {
        return Failed(InvalidRecipient);
      }
      var s := Begin();
      if s.None? {
        return Failed(Other);
      }
      o := Failed(Other);
      var ok, h := FindKey(s.value, d);
      if ok && h.None? {
        o := Failed(KeyNotFound);
      } else if ok {
        var read := token.Fault();
        if read {
          var material := token.objects[h.value].value + token.objects[h.value].id;
          var ecies := token.Fault();
          o := if ecies then Wrapped(Envelope(recipient, material)) else Failed(Other);
        }
      }
      End(s.value);
    }

    /** The token decrypts; any error it reports is taken for a mismatch. */
    method Decrypt(d: Digest, ct: Ciphertext) returns (o: Outcome)
      requires Valid()
      modifies this`locked, token`sessions, token`failures, token`calls
      ensures Valid() && token.failures >= old(token.failures)
      ensures open ==> ReadStep(env, ledger, KeyService.Decrypt(d, ct), o, ledger,
              Faults(token.failures > old(token.failures), false))
      ensures !open ==> o == Failed(Other) && token.calls == old(token.calls)
    {
      var s := Begin();
      if s.None? {
        return Failed(Other);
      }
      o := Failed(Other);
      var ok, h := FindKey(s.value, d);
      if ok && h.None? {
        o := Failed(KeyNotFound);
      } else if ok {
        var read := token.Fault();
        var nonce := token.objects[h.value].id;
        if read && |nonce| == NONCE_SIZE {
          var decrypted := token.Fault();
          var pt := if decrypted then Open(token.objects[h.value].value, nonce, ct) else None;
          o := if pt.Some? then Plain(pt.value) else Failed(CiphertextMismatch);
        }
      }
      End(s.value);
    }

    method Delete(d: Digest) returns (o: Outcome)
      requires Valid()
      modifies this`locked, this`ledger, this`index, token
      ensures Valid() && token.failures >= old(token.failures)
      ensures index.leftovers == old(index).leftovers && token.failedDestroys >= old(token.failedDestroys)
      ensures open ==>
                && (o == Deleted || (o.Failed? && Outage(o.error)))
                && DeleteStep(old(ledger), d, o == Deleted, ledger, Faults(token.failures > old(token.failures), false))
      ensures !open ==> o == Failed(Other) && ledger == old(ledger) && token.calls == old(token.calls)
    {
      var s := Begin();
      if s.None? {
        return Failed(Other);
      }
      o := Failed(Other);
      TiedDelete(token.objects, token.nextHandle, prefix, ledger, index, d);
      var ok, h := FindKey(s.value, d);
      if ok {
        var r := HandleInvalid;
        if h.Some? {
          r := token.DestroyObject(s.value, h.value);
        }
        if r != DestroyFailed {
          if h.Some? {
            index := index.(handle := index.handle - {d}, owner := index.owner - {h.value});
          }
          ledger := Ledger(ledger.live - {d}, ledger.stranded - {d}, ledger.erased + {d});
          o := Deleted;
        }
      }
      End(s.value);
    }

    /** Three separate lock sections: decrypt, generate, delete. */
    method Rotate(d: Digest, ct: Ciphertext, dek: Material) returns (o: Outcome)
      requires Valid() && FreshCall(env, ledger, KeyService.Rotate(d, ct, dek))
      modifies this`locked, this`ledger, this`index, token
      ensures Valid() && token.failures >= old(token.failures)
      ensures NewLeftoverHasCause(old(index).leftovers, old(token.failedDestroys))
      ensures open ==> Step(env, old(ledger), KeyService.Rotate(d, ct, dek), o, ledger,
              Faults(token.failures > old(token.failures), false))
      ensures !open ==> o == Failed(Other) && ledger == old(ledger) && token.calls == old(token.calls)
    {
      o := Decrypt(d, ct);
      if !o.Plain? {
        return;
      }
      o := GenerateAndEncrypt(o.plaintext, dek);
      if o.Failed? {
        return;
      }
      var deleted := Delete(d);
      if deleted.Failed? {
        o := NotErased(o.digest, o.ct, deleted.error);
      }
    }

    /**
     While open, any call with any faults does what the abstract service allows; once closed,
     every call fails without reaching the module.
     */
    method Serve(c: Call) returns (o: Outcome)
      requires Valid() && FreshCall(env, ledger, c)
      modifies this`locked, this`ledger, this`index, token
      ensures Valid() && token.failures >= old(token.failures)
      ensures NewLeftoverHasCause(old(index).leftovers, old(token.failedDestroys))
      ensures Step(env, old(ledger), c, o, ledger, Faults(!open || token.failures > old(token.failures), false))
      ensures !open ==> o.Failed? && ledger == old(ledger) && token.calls == old(token.calls)
    {
      match c
      case Generate(pt, dek) => o := GenerateAndEncrypt(pt, dek);
      case Wrap(d, recipient) => o := WrapForRecipient(d, recipient);
      case Decrypt(d, ct) => o := Decrypt(d, ct);
      case Rotate(d, ct, dek) => o := Rotate(d, ct, dek);
      case Delete(d) => o := Delete(d);
    }
  }

  lemma TmpLabelIsTmp(prefix: string, nonce: bytes)
    ensures IsTmp(prefix, TmpLabel(prefix, nonce))
  {
    var s := TmpLabel(prefix, nonce);
    assert s[..|prefix| + 4] == prefix + "tmp-";
  }
}
