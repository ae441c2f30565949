/** The HashiCorp Vault backend: one Transit key and one kv-v2 record per digest. */
module Vault {
  import opened Prelude
  import opened KeyService
  import Hex

  // ---------- Names ----------

  /** kv-v2 records are addressed by the digest in hex; the name determines the digest. */
  function KvName(d: Digest): (s: string)
    ensures Hex.Decode(s) == Some(d)
  {
    Hex.Encode(d)
  }

  const TRANSIT_PREFIX := "artifact-"

  function TransitName(d: Digest): (s: string)
    ensures |s| >= 9 && s[..9] == "artifact-" && Hex.Decode(s[9..]) == Some(d)
  {
    var s := TRANSIT_PREFIX + Hex.Encode(d);
    assert s[9..] == Hex.Encode(d);
    s
  }

  // ---------- The remote state ----------

  /** Every created Transit key gets a KEK of its own; a KEK never comes back. */
  datatype TransitKey = TransitKey(kek: nat, deletable: bool)

  datatype WrappedDek = WrappedDek(kek: nat, material: bytes)

  datatype Remote = Remote(transit: map<string, TransitKey>, kv: map<string, WrappedDek>, nextKek: nat)

  /** Creating a key that exists changes nothing. */
  function CreateKey(r: Remote, name: string): Remote {
    if name in r.transit then r
    else r.(transit := r.transit[name := TransitKey(r.nextKek, false)], nextKek := r.nextKek + 1)
  }

  /** None when the key is missing or the blob was made under another KEK. */
  function DecryptUnder(r: Remote, name: string, w: WrappedDek): Option<bytes> {
    if name in r.transit && r.transit[name].kek == w.kek then Some(w.material) else None
  }

  function AllowDeletion(r: Remote, name: string): Remote
    requires name in r.transit
  {
    r.(transit := r.transit[name := r.transit[name].(deletable := true)])
  }

  function DropKey(r: Remote, name: string): Remote { r.(transit := r.transit - {name}) }
  function PutRecord(r: Remote, name: string, w: WrappedDek): Remote { r.(kv := r.kv[name := w]) }
  function DropRecord(r: Remote, name: string): Remote { r.(kv := r.kv - {name}) }

  /** Response classes: success, 404, any other 4xx, and 5xx or no response. */
  datatype Status = Success | Missing | Refused | Down

  /** The request did its work, or there was nothing to do. */
  predicate Settled(s: Status) { s == Success || s == Missing }

  function ErrorOf(s: Status): (e: Error)
    ensures Outage(e) && (e == Unavailable <==> s == Down)
  {
    if s == Down then Unavailable else Other
  }

  /** The server. Any request may fail; a request that reports failure had no effect. */
  class Server {
    var remote: Remote
    var failures: nat
    var failedCleanups: nat  // those among the three requests that remove a key

    constructor ()
      ensures remote == Remote(map[], map[], 0) && failures == 0 && failedCleanups == 0
    {
      remote, failures, failedCleanups := Remote(map[], map[], 0), 0, 0;
    }

    method Fault() returns (st: Status)
      modifies this`failures
      ensures st != Missing
      ensures failures == if st == Success then old(failures) else old(failures) + 1
    {
      if {
        case true => st := Success;
        case true => st := Refused; failures := failures + 1;
        case true => st := Down; failures := failures + 1;
      }
    }

    method Create(name: string) returns (st: Status)
      modifies this`remote, this`failures
      ensures st == Success ==> remote == CreateKey(old(remote), name) && failures == old(failures)
      ensures st != Success ==> st != Missing && remote == old(remote) && failures == old(failures) + 1
    {
      st := Fault();
      if st == Success {
        remote := CreateKey(remote, name);
      }
    }

    /** Encrypting under a missing key is a 4xx. */
    method Encrypt(name: string, material: bytes) returns (st: Status, w: WrappedDek)
      modifies this`failures
      ensures st == Success ==>
                && name in remote.transit && w == WrappedDek(remote.transit[name].kek, material)
                && failures == old(failures)
      ensures st != Success ==> name !in remote.transit || failures == old(failures) + 1
    {
      w := WrappedDek(0, []);
      st := Fault();
      if st == Success {
        if name in remote.transit {
          w := WrappedDek(remote.transit[name].kek, material);
        } else {
          st := Refused;
        }
      }
    }

    method Decrypt(name: string, w: WrappedDek) returns (st: Status, material: bytes)
      modifies this`failures
      ensures st == Success ==> DecryptUnder(remote, name, w) == Some(material) && failures == old(failures)
      ensures st != Success ==> DecryptUnder(remote, name, w) == None || failures == old(failures) + 1
      ensures st == Missing ==> name !in remote.transit
    {
      material := [];
      st := Fault();
      if st == Success {
        if name !in remote.transit {
          st := Missing;
        } else if remote.transit[name].kek != w.kek {
          st := Refused;
        } else {
          material := w.material;
        }
      }
    }

    /** A request of a key deletion. */
    method CleanupFault() returns (st: Status)
      modifies this`failures, this`failedCleanups
      ensures st != Missing
      ensures failures == if st == Success then old(failures) else old(failures) + 1
      ensures failedCleanups == if st == Success then old(failedCleanups) else old(failedCleanups) + 1
    {
      st := Fault();
      if st != Success {
        failedCleanups := failedCleanups + 1;
      }
    }

    method Probe(name: string) returns (st: Status)
      modifies this`failures, this`failedCleanups
      ensures st == Success ==> name in remote.transit
      ensures st == Missing ==> name !in remote.transit
      ensures if Settled(st) then failures == old(failures) && failedCleanups == old(failedCleanups)
              else failures > old(failures) && failedCleanups > old(failedCleanups)
    {
      st := CleanupFault();
      if st == Success && name !in remote.transit {
        st := Missing;
      }
    }

    /** Configuring a missing key is a 4xx. */
    method Configure(name: string) returns (st: Status)
      modifies this
      ensures st == Success ==>
                && name in old(remote).transit && remote == AllowDeletion(old(remote), name)
                && failures == old(failures) && failedCleanups == old(failedCleanups)
      ensures st != Success ==> st != Missing && remote == old(remote)
      ensures st != Success && name in remote.transit ==>
                failures > old(failures) && failedCleanups > old(failedCleanups)
    {
      st := CleanupFault();
      if st == Success {
        if name in remote.transit {
          remote := AllowDeletion(remote, name);
        } else {
          st := Refused;
        }
      }
    }

    /** A key must have been made deletable first. */
    method Drop(name: string) returns (st: Status)
      modifies this
      ensures st == Success ==>
                && remote == DropKey(old(remote), name)
                && failures == old(failures) && failedCleanups == old(failedCleanups)
      ensures st != Success ==> remote == old(remote)
      ensures st == Missing ==> name !in remote.transit
      ensures !Settled(st) && name in remote.transit && remote.transit[name].deletable ==>
                failures > old(failures) && failedCleanups > old(failedCleanups)
    {
      st := CleanupFault();
      if st == Success {
        if name !in remote.transit {
          st := Missing;
        } else if !remote.transit[name].deletable {
          st := Refused;
        } else {
          remote := DropKey(remote, name);
        }
      }
    }

    method KvPut(name: string, w: WrappedDek) returns (st: Status)
      modifies this`remote, this`failures
      ensures st == Success ==> remote == PutRecord(old(remote), name, w) && failures == old(failures)
      ensures st != Success ==> remote == old(remote) && failures == old(failures) + 1
    {
      st := Fault();
      if st == Success {
        remote := PutRecord(remote, name, w);
      }
    }

    method KvGet(name: string) returns (st: Status, w: WrappedDek)
      modifies this`failures
      ensures st == Success ==> name in remote.kv && w == remote.kv[name] && failures == old(failures)
      ensures st == Missing ==> name !in remote.kv && failures == old(failures)
      ensures !Settled(st) ==> failures == old(failures) + 1
    {
      w := WrappedDek(0, []);
      st := Fault();
      if st == Success {
        if name in remote.kv {
          w := remote.kv[name];
        } else {
          st := Missing;
        }
      }
    }

    method KvDelete(name: string) returns (st: Status)
      modifies this`remote, this`failures
      ensures Settled(st) ==> remote == DropRecord(old(remote), name) && failures == old(failures)
      ensures !Settled(st) ==> remote == old(remote) && failures == old(failures) + 1
    {
      st := Fault();
      if st == Success {
        if name !in remote.kv {
          st := Missing;
          assert DropRecord(remote, name) == remote;
        } else {
          remote := DropRecord(remote, name);
        }
      }
    }
  }

  // ---------- The two stores and the ledger ----------

  predicate Agrees(r: Remote, l: Ledger, d: Digest) {
    && (KvName(d) in r.kv <==> d in l.live)
    && (TransitName(d) in r.transit <==> d in l.live || d in l.stranded)
    && (d in l.live ==> r.kv[KvName(d)] == WrappedDek(r.transit[TransitName(d)].kek, Blob(l.live[d])))
  }

  /**
   The two-store invariant. A kv-v2 record has a Transit key holding the very KEK that wrapped
   it, and the Transit keys without a record are exactly the stranded ones.
   */
  ghost predicate Tied(r: Remote, l: Ledger) {
    WellFormed(l) && forall d :: Agrees(r, l, d)
  }

  /** Writing the record turns a key without one into a live digest. */
  lemma TiedPut(r: Remote, l: Ledger, d: Digest, m: Material, w: WrappedDek)
    requires Tied(r, l) && d in l.stranded && GoodMaterial(m)
    requires w.material == Blob(m) && TransitName(d) in r.transit && r.transit[TransitName(d)].kek == w.kek
    ensures Tied(PutRecord(r, KvName(d), w), l.(live := l.live[d := m], stranded := l.stranded - {d}))
  {
    var r', l' := PutRecord(r, KvName(d), w), l.(live := l.live[d := m], stranded := l.stranded - {d});
    forall e
      ensures Agrees(r', l', e)
    {
      assert Agrees(r, l, e) && Agrees(r, l, d);
    }
  }

  lemma TiedStrand(r: Remote, l: Ledger, d: Digest)
    requires Tied(r, l) && Unused(l, d)
    ensures Tied(CreateKey(r, TransitName(d)), l.(stranded := l.stranded + {d}))
  {
    var r', l' := CreateKey(r, TransitName(d)), l.(stranded := l.stranded + {d});
    forall e
      ensures Agrees(r', l', e)
    {
      assert Agrees(r, l, e);
    }
  }

  lemma TiedConfigure(r: Remote, l: Ledger, d: Digest)
    requires Tied(r, l) && TransitName(d) in r.transit
    ensures Tied(AllowDeletion(r, TransitName(d)), l)
  {
    forall e
      ensures Agrees(AllowDeletion(r, TransitName(d)), l, e)
    {
      assert Agrees(r, l, e);
    }
  }

  /** Removing the record alone turns a live digest into a stranded one. */
  function AfterRecordGone(l: Ledger, d: Digest): Ledger {
    if d in l.live then l.(live := l.live - {d}, stranded := l.stranded + {d}) else l
  }

  lemma TiedDropRecord(r: Remote, l: Ledger, d: Digest)
    requires Tied(r, l)
    ensures Tied(DropRecord(r, KvName(d)), AfterRecordGone(l, d))
  {
    var r', l' := DropRecord(r, KvName(d)), AfterRecordGone(l, d);
    forall e
      ensures Agrees(r', l', e)
    {
      assert Agrees(r, l, e) && Agrees(r, l, d);
    }
  }

  lemma TiedDropKey(r: Remote, l: Ledger, d: Digest)
    requires Tied(r, l) && d !in l.live
    ensures Tied(DropKey(r, TransitName(d)), l.(stranded := l.stranded - {d}))
  {
    var r', l' := DropKey(r, TransitName(d)), l.(stranded := l.stranded - {d});
    forall e
      ensures Agrees(r', l', e)
    {
      assert Agrees(r, l, e);
    }
  }

  /** Record gone, key gone, erasure noted: together one completed deletion. */
  lemma DeletionCompletes(l: Ledger, d: Digest)
    requires WellFormed(l)
    ensures var gone := AfterRecordGone(l, d);
            && d !in gone.live
            && gone.(stranded := gone.stranded - {d}, erased := gone.erased + {d})
               == Ledger(l.live - {d}, l.stranded - {d}, l.erased + {d})
  {
    if d !in l.live {
      assert l.live - {d} == l.live;
    }
  }

  lemma TiedErase(r: Remote, l: Ledger, d: Digest)
    requires Tied(r, l) && d !in l.live && d !in l.stranded
    ensures Tied(r, l.(erased := l.erased + {d}))
  {
    forall e
      ensures Agrees(r, l.(erased := l.erased + {d}), e)
    {
      assert Agrees(r, l, e);
    }
  }

  // ---------- The backend ----------

  class VaultTransit {
    const server: Server
    const env: Env
    ghost var ledger: Ledger

    ghost predicate Valid()
      reads this, server
    {
      Tied(server.remote, ledger)
    }

    constructor (env: Env)
      ensures Valid() && fresh(server) && this.env == env && ledger == Ledger(map[], {}, {})
    {
      this.env := env;
      server := new Server();
      ledger := Ledger(map[], {}, {});
    }

    /** What went wrong since the counters had these values. */
    function Faulted(failures: nat, failedCleanups: nat): Faults
      reads server
    {
      Faults(server.failures > failures, server.failedCleanups > failedCleanups)
    }

    /** Probe, allow deletion, delete: three requests, any of which may be the last. */
    method TransitDeleteKey(d: Digest) returns (st: Status)
      requires Valid() && d !in ledger.live
      modifies this, server
      ensures Valid() && server.failures >= old(server.failures)
      ensures Settled(st) ==>
                && ledger == old(ledger).(stranded := old(ledger).stranded - {d})
                && server.failedCleanups == old(server.failedCleanups)
      ensures !Settled(st) ==>
                && ledger == old(ledger)
                && server.failures > old(server.failures) && server.failedCleanups > old(server.failedCleanups)
    {
      var name := TransitName(d);
      assert Agrees(server.remote, ledger, d);
      st := server.Probe(name);
      if st == Missing {
        assert ledger.stranded - {d} == ledger.stranded;
      }
      if st != Success {
        return;
      }
      st := server.Configure(name);
      if st != Success {
        return;
      }
      TiedConfigure(old(server.remote), ledger, d);
      label configured:
      st := server.Drop(name);
      if st == Success {
        TiedDropKey(old@configured(server.remote), ledger, d);
        ledger := ledger.(stranded := ledger.stranded - {d});
      }
    }

    /** Seal, create the KEK, wrap, store; roll the KEK back when wrapping or storing fails. */
    method GenerateAndEncrypt(pt: bytes, dek: Material) returns (o: Outcome)
      requires Valid() && FreshCall(env, ledger, Generate(pt, dek))
      modifies this, server
      ensures Valid() && server.failures >= old(server.failures)
      ensures GenerateStep(env, old(ledger), pt, dek, o, ledger,
                           Faulted(old(server.failures), old(server.failedCleanups)))
      ensures o.Generated? ==> server.failedCleanups == old(server.failedCleanups)
    {
      var entropy := server.Fault();
      if entropy != Success {
        return Failed(Other);
      }
      var ct := SealedFor(dek, pt);
      var d := env.hash(ct);
      var name := TransitName(d);
      assert Agrees(server.remote, ledger, d);
      TiedStrand(server.remote, ledger, d);
      var st := server.Create(name);
      if st != Success {
        return Failed(ErrorOf(st));
      }
      ledger := ledger.(stranded := ledger.stranded + {d});
      assert old(ledger).stranded == ledger.stranded - {d};
      st := WrapAndStore(d, dek);
      o := if st == Success then Generated(d, ct) else Failed(ErrorOf(st));
    }

    /** Wrap the DEK under the KEK just created and store it; on failure delete that KEK, ignoring errors. */
    method WrapAndStore(d: Digest, dek: Material) returns (st: Status)
      requires Valid() && d in ledger.stranded && GoodMaterial(dek)
      modifies this, server
      ensures Valid() && server.failures >= old(server.failures)
      ensures st == Success ==>
                && ledger == old(ledger).(live := old(ledger).live[d := dek], stranded := old(ledger).stranded - {d})
                && server.failedCleanups == old(server.failedCleanups)
      ensures st != Success ==>
                && server.failures > old(server.failures)
                && ledger == if server.failedCleanups > old(server.failedCleanups) then old(ledger)
                             else old(ledger).(stranded := old(ledger).stranded - {d})
    {
      assert Agrees(server.remote, ledger, d);
      var w;
      st, w := server.Encrypt(TransitName(d), Blob(dek));
      if st != Success {
        var _ := TransitDeleteKey(d);
        return;
      }
      st := server.KvPut(KvName(d), w);
      if st != Success {
        var _ := TransitDeleteKey(d);
        return;
      }
      TiedPut(old(server.remote), ledger, d, dek, w);
      ledger := ledger.(live := ledger.live[d := dek], stranded := ledger.stranded - {d});
    }

    /** Record, then key: the DEK blob as Transit unwraps it. */
    method Unwrap(d: Digest) returns (material: Option<bytes>, e: Error)
      requires Valid()
      modifies server
      ensures Valid() && server.remote == old(server.remote) && server.failures >= old(server.failures)
      ensures server.failedCleanups == old(server.failedCleanups)
      ensures material.Some? ==> d in ledger.live && material.value == Blob(ledger.live[d])
      ensures material.None? ==> (e == KeyNotFound && d !in ledger.live) || Outage(e)
      ensures material.None? ==> (d !in ledger.live && e == KeyNotFound) || server.failures > old(server.failures)
    {
      assert Agrees(server.remote, ledger, d);
      material, e := None, KeyNotFound;
      var st, w := server.KvGet(KvName(d));
      if st != Success {
        e := if st == Missing then KeyNotFound else ErrorOf(st);
        return;
      }
      var blob;
      st, blob := server.Decrypt(TransitName(d), w);
      if st != Success {
        e := if st == Missing then KeyNotFound else ErrorOf(st);
        return;
      }
      material := Some(blob);
    }

    method WrapForRecipient(d: Digest, recipient: bytes) returns (o: Outcome)
      requires Valid()
      modifies server
      ensures Valid() && server.remote == old(server.remote) && server.failures >= old(server.failures)
      ensures server.failedCleanups == old(server.failedCleanups)
      ensures ReadStep(env, ledger, Wrap(d, recipient), o, ledger,
              Faulted(old(server.failures), old(server.failedCleanups)))
    {
      if recipient == [] || !env.validRecipient(recipient) {
        return Failed(InvalidRecipient);
      }
      var material, e := Unwrap(d);
      if material.None? {
        return Failed(e);
      }
      var ecies := server.Fault();
      o := if ecies == Success then Wrapped(Envelope(recipient, material.value)) else Failed(Other);
    }

    method Decrypt(d: Digest, ct: Ciphertext) returns (o: Outcome)
      requires Valid()
      modifies server
      ensures Valid() && server.remote == old(server.remote) && server.failures >= old(server.failures)
      ensures server.failedCleanups == old(server.failedCleanups)
      ensures ReadStep(env, ledger, KeyService.Decrypt(d, ct), o, ledger,
              Faulted(old(server.failures), old(server.failedCleanups)))
      ensures o == Failed(CiphertextMismatch) ==> o == Read(env, ledger.live, KeyService.Decrypt(d, ct))
    {
      var material, e := Unwrap(d);
      if material.None? {
        return Failed(e);
      }
      if |material.value| != KEY_SIZE + NONCE_SIZE {
        return Failed(Other);
      }
      var pt := Open(material.value[..KEY_SIZE], material.value[KEY_SIZE..], ct);
      o := if pt.Some? then Plain(pt.value) else Failed(CiphertextMismatch);
    }

    /** The record goes first, so an interrupted delete can leave a key but never a record without one. */
    method Delete(d: Digest) returns (o: Outcome)
      requires Valid()
      modifies this, server
      ensures Valid() && server.failures >= old(server.failures)
      ensures (o == Deleted || (o.Failed? && Outage(o.error))) && DeleteStep(old(ledger), d, o == Deleted, ledger,
              Faulted(old(server.failures), old(server.failedCleanups)))
    {
      assert Agrees(server.remote, ledger, d);
      TiedDropRecord(server.remote, ledger, d);
      DeletionCompletes(ledger, d);
      var st := server.KvDelete(KvName(d));
      if !Settled(st) {
        return Failed(ErrorOf(st));
      }
      ledger := AfterRecordGone(ledger, d);
      st := TransitDeleteKey(d);
      if !Settled(st) {
        return Failed(ErrorOf(st));
      }
      TiedErase(server.remote, ledger, d);
      ledger := ledger.(erased := ledger.erased + {d});
      o := Deleted;
    }

    /** Decrypt, re-encrypt under a new DEK, then delete the old digest. */
    method Rotate(d: Digest, ct: Ciphertext, dek: Material) returns (o: Outcome)
      requires Valid() && FreshCall(env, ledger, KeyService.Rotate(d, ct, dek))
      modifies this, server
      ensures Valid() && server.failures >= old(server.failures)
      ensures Step(env, old(ledger), KeyService.Rotate(d, ct, dek), o, ledger,
              Faulted(old(server.failures), old(server.failedCleanups)))
    {
      o := Decrypt(d, ct);
      if !o.Plain? {
        return;
      }
      o := GenerateAndEncrypt(o.plaintext, dek);
      if o.Failed? {
        return;
      }
      var deleted := Delete(d);
      if deleted.Failed? {
        o := NotErased(o.digest, o.ct, deleted.error);
      }
    }

    /** Any call, with any faults, does what the abstract service allows. */
    method Serve(c: Call) returns (o: Outcome)
      requires Valid() && FreshCall(env, ledger, c)
      modifies this, server
      ensures Valid() && server.failures >= old(server.failures)
      ensures Step(env, old(ledger), c, o, ledger, Faulted(old(server.failures), old(server.failedCleanups)))
    {
      match c
      case Generate(pt, dek) => o := GenerateAndEncrypt(pt, dek);
      case Wrap(d, recipient) => o := WrapForRecipient(d, recipient);
      case Decrypt(d, ct) => o := Decrypt(d, ct);
      case Rotate(d, ct, dek) => o := Rotate(d, ct, dek);
      case Delete(d) => o := Delete(d);
    }
  }
}
