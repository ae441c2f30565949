/** The Cloud KMS backend: one global KEK and one Firestore document per digest. */
module Gcp {
  import opened Prelude
  import opened KeyService
  import Hex

  function DocId(d: Digest): (s: string)
    ensures Hex.Decode(s) == Some(d)
  {
    Hex.Encode(d)
  }

  /** A blob wrapped under the global KEK. */
  datatype WrappedDek = WrappedDek(material: bytes)

  datatype Status = Success | Missing | Conflict | Refused | Down

  predicate Settled(s: Status) { s == Success || s == Missing }

  function ErrorOf(s: Status): (e: Error)
    ensures Outage(e) && (e == Unavailable <==> s == Down)
  {
    if s == Down then Unavailable else Other
  }

  /** KMS and Firestore. Any request may fail; a request that reports failure had no effect. */
  class Cloud {
    var docs: map<string, WrappedDek>
    var failures: nat

    constructor ()
      ensures docs == map[] && failures == 0
    {
      docs, failures := map[], 0;
    }

    method Fault() returns (st: Status)
      modifies this`failures
      ensures st in {Success, Refused, Down}
      ensures failures == if st == Success then old(failures) else old(failures) + 1
    {
      if {
        case true => st := Success;
        case true => st := Refused; failures := failures + 1;
        case true => st := Down; failures := failures + 1;
      }
    }

    method KmsEncrypt(material: bytes) returns (st: Status, w: WrappedDek)
      modifies this`failures
      ensures st == Success ==> w == WrappedDek(material) && failures == old(failures)
      ensures st != Success ==> failures == old(failures) + 1
    {
      st := Fault();
      w := WrappedDek(material);
    }

    method KmsDecrypt(w: WrappedDek) returns (st: Status, material: bytes)
      modifies this`failures
      ensures st == Success ==> material == w.material && failures == old(failures)
      ensures st != Success ==> failures == old(failures) + 1
    {
      st := Fault();
      material := w.material;
    }

    /** Creation never overwrites: an existing document is a conflict. */
    method CreateDocument(id: string, w: WrappedDek) returns (st: Status)
      modifies this
      ensures st == Success ==> id !in old(docs) && docs == old(docs)[id := w] && failures == old(failures)
      ensures st != Success ==> docs == old(docs) && (id in docs || failures == old(failures) + 1)
      ensures failures >= old(failures)
    {
      st := Fault();
      if st == Success {
        if id in docs {
          st := Conflict;
        } else {
          docs := docs[id := w];
        }
      }
    }

    method GetDocument(id: string) returns (st: Status, w: WrappedDek)
      modifies this`failures
      ensures st == Success ==> id in docs && w == docs[id] && failures == old(failures)
      ensures st == Missing ==> id !in docs && failures == old(failures)
      ensures !Settled(st) ==> failures == old(failures) + 1
    {
      w := WrappedDek([]);
      st := Fault();
      if st == Success {
        if id in docs {
          w := docs[id];
        } else {
          st := Missing;
        }
      }
    }

    method DeleteDocument(id: string) returns (st: Status)
      modifies this
      ensures Settled(st) ==> docs == old(docs) - {id} && failures == old(failures)
      ensures !Settled(st) ==> docs == old(docs) && failures == old(failures) + 1
    {
      st := Fault();
      if st == Success {
        st := if id in docs then Success else Missing;
        docs := docs - {id};
      }
    }
  }

  predicate Agrees(docs: map<string, WrappedDek>, l: Ledger, d: Digest) {
    && (DocId(d) in docs <==> d in l.live)
    && (d in l.live ==> docs[DocId(d)] == WrappedDek(Blob(l.live[d])))
  }

  /** Documents and live digests correspond one to one; nothing can be stranded. */
  ghost predicate Tied(docs: map<string, WrappedDek>, l: Ledger) {
    WellFormed(l) && l.stranded == {} && forall d :: Agrees(docs, l, d)
  }

  lemma TiedCreate(docs: map<string, WrappedDek>, l: Ledger, d: Digest, m: Material)
    requires Tied(docs, l) && Unused(l, d) && GoodMaterial(m)
    ensures Tied(docs[DocId(d) := WrappedDek(Blob(m))], l.(live := l.live[d := m]))
  {
    var docs', l' := docs[DocId(d) := WrappedDek(Blob(m))], l.(live := l.live[d := m]);
    forall e
      ensures Agrees(docs', l', e)
    {
      assert Agrees(docs, l, e);
    }
  }

  lemma TiedDelete(docs: map<string, WrappedDek>, l: Ledger, d: Digest)
    requires Tied(docs, l)
    ensures Tied(docs - {DocId(d)}, Ledger(l.live - {d}, l.stranded - {d}, l.erased + {d}))
  {
    var docs', l' := docs - {DocId(d)}, Ledger(l.live - {d}, l.stranded - {d}, l.erased + {d});
    forall e
      ensures Agrees(docs', l', e)
    {
      assert Agrees(docs, l, e);
    }
  }

  class GcpKms {
    const cloud: Cloud
    const env: Env
    ghost var ledger: Ledger

    ghost predicate Valid()
      reads this, cloud
    {
      Tied(cloud.docs, ledger)
    }

    constructor (env: Env)
      ensures Valid() && fresh(cloud) && this.env == env && ledger == Ledger(map[], {}, {})
    {
      this.env := env;
      cloud := new Cloud();
      ledger := Ledger(map[], {}, {});
    }

    method GenerateAndEncrypt(pt: bytes, dek: Material) returns (o: Outcome)
      requires Valid() && FreshCall(env, ledger, Generate(pt, dek))
      modifies this, cloud
      ensures Valid() && cloud.failures >= old(cloud.failures)
      ensures GenerateStep(env, old(ledger), pt, dek, o, ledger, Faults(cloud.failures > old(cloud.failures), false))
    {
      var entropy := cloud.Fault();
      if entropy != Success {
        return Failed(Other);
      }
      var ct := SealedFor(dek, pt);
      var d := env.hash(ct);
      assert Agrees(cloud.docs, ledger, d);
      TiedCreate(cloud.docs, ledger, d, dek);
      var st, w := cloud.KmsEncrypt(Blob(dek));
      if st != Success {
        return Failed(ErrorOf(st));
      }
      st := cloud.CreateDocument(DocId(d), w);
      if st != Success {
        return Failed(ErrorOf(st));
      }
      ledger := ledger.(live := ledger.live[d := dek]);
      o := Generated(d, ct);
    }

    method Unwrap(d: Digest) returns (material: Option<bytes>, e: Error)
      requires Valid()
      modifies cloud
      ensures Valid() && cloud.docs == old(cloud.docs) && cloud.failures >= old(cloud.failures)
      ensures material.Some? ==> d in ledger.live && material.value == Blob(ledger.live[d])
      ensures material.None? ==> (e == KeyNotFound && d !in ledger.live) || Outage(e)
      ensures material.None? ==> (d !in ledger.live && e == KeyNotFound) || cloud.failures > old(cloud.failures)
    {
      assert Agrees(cloud.docs, ledger, d);
      material, e := None, KeyNotFound;
      var st, w := cloud.GetDocument(DocId(d));
      if st != Success {
        e := if st == Missing then KeyNotFound else ErrorOf(st);
        return;
      }
      var blob;
      st, blob := cloud.KmsDecrypt(w);
      if st != Success {
        e := ErrorOf(st);
        return;
      }
      material := Some(blob);
    }

    method WrapForRecipient(d: Digest, recipient: bytes) returns (o: Outcome)
      requires Valid()
      modifies cloud
      ensures Valid() && cloud.docs == old(cloud.docs) && cloud.failures >= old(cloud.failures)
      ensures ReadStep(env, ledger, Wrap(d, recipient), o, ledger, Faults(cloud.failures > old(cloud.failures), false))
    {
      if recipient == [] || !env.validRecipient(recipient) {
        return Failed(InvalidRecipient);
      }
      var material, e := Unwrap(d);
      if material.None? {
        return Failed(e);
      }
      var ecies := cloud.Fault();
      o := if ecies == Success then Wrapped(Envelope(recipient, material.value)) else Failed(Other);
    }

    method Decrypt(d: Digest, ct: Ciphertext) returns (o: Outcome)
      requires Valid()
      modifies cloud
      ensures Valid() && cloud.docs == old(cloud.docs) && cloud.failures >= old(cloud.failures)
      ensures ReadStep(env, ledger, KeyService.Decrypt(d, ct), o, ledger,
              Faults(cloud.failures > old(cloud.failures), false))
      ensures o == Failed(CiphertextMismatch) ==> o == Read(env, ledger.live, KeyService.Decrypt(d, ct))
    {
      var material, e := Unwrap(d);
      if material.None? {
        return Failed(e);
      }
      if |material.value| != KEY_SIZE + NONCE_SIZE {
        return Failed(Other);
      }
      var pt := Open(material.value[..KEY_SIZE], material.value[KEY_SIZE..], ct);
      o := if pt.Some? then Plain(pt.value) else Failed(CiphertextMismatch);
    }

    method Delete(d: Digest) returns (o: Outcome)
      requires Valid()
      modifies this, cloud
      ensures Valid() && cloud.failures >= old(cloud.failures)
      ensures (o == Deleted || (o.Failed? && Outage(o.error))) && DeleteStep(old(ledger), d, o == Deleted, ledger,
              Faults(cloud.failures > old(cloud.failures), false))
    {
      TiedDelete(cloud.docs, ledger, d);
      var st := cloud.DeleteDocument(DocId(d));
      if !Settled(st) {
        return Failed(ErrorOf(st));
      }
      ledger := Ledger(ledger.live - {d}, ledger.stranded - {d}, ledger.erased + {d});
      o := Deleted;
    }

    method Rotate(d: Digest, ct: Ciphertext, dek: Material) returns (o: Outcome)
      requires Valid() && FreshCall(env, ledger, KeyService.Rotate(d, ct, dek))
      modifies this, cloud
      ensures Valid() && cloud.failures >= old(cloud.failures)
      ensures Step(env, old(ledger), KeyService.Rotate(d, ct, dek), o, ledger,
              Faults(cloud.failures > old(cloud.failures), false))
    {
      o := Decrypt(d, ct);
      if !o.Plain? {
        return;
      }
      o := GenerateAndEncrypt(o.plaintext, dek);
      if o.Failed? {
        return;
      }
      var deleted := Delete(d);
      if deleted.Failed? {
        o := NotErased(o.digest, o.ct, deleted.error);
      }
    }

    /** Any call, with any faults, does what the abstract service allows; nothing is ever stranded. */
    method Serve(c: Call) returns (o: Outcome)
      requires Valid() && FreshCall(env, ledger, c)
      modifies this, cloud
      ensures Valid() && cloud.failures >= old(cloud.failures)
      ensures Step(env, old(ledger), c, o, ledger, Faults(cloud.failures > old(cloud.failures), false))
    {
      match c
      case Generate(pt, dek) => o := GenerateAndEncrypt(pt, dek);
      case Wrap(d, recipient) => o := WrapForRecipient(d, recipient);
      case Decrypt(d, ct) => o := Decrypt(d, ct);
      case Rotate(d, ct, dek) => o := Rotate(d, ct, dek);
      case Delete(d) => o := Delete(d);
    }
  }
}
