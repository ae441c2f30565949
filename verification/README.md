# Artifact store: envelope keys, pushes and parsers

This project models the parts of the artifact store where a mistake loses data, keeps data that
was meant to be erased, or lets an unverified upload in, and proves what they promise.

- **Envelope keys** (`keyservice/`). `KeyService.dfy` gives the abstract service: a map from
  digest to (key, nonce), the outcomes its five calls may have, and a step relation that says what
  one call may do when requests fail. `Vault.dfy`, `Gcp.dfy` and `Pkcs11.dfy` are the three
  backends as classes over explicit remote state in which every request may fail; each is proved
  to implement that relation. `Conformance.dfy` turns any run of each class, faults included, into a
  trace of the abstract service and compares all three on the same calls.
  `VaultInterleaving.dfy` and `GcpInterleaving.dfy` interleave concurrent calls one backend request
  at a time; a request may work, fail without effect, or take effect while its response is lost, and
  a Vault read that was answered returns in a step of its own.
  `Pkcs11Interleaving.dfy` interleaves lock sections, of which Rotate has three.
  `VaultCompletion.dfy` and `GcpCompletion.dfy` prove that calls come to their proper end.
  `VaultWitnesses.dfy` and `GcpWitnesses.dfy` hold runs, from the initial state, that show where the
  guarantees end.
- **Pushes** (`api/push.go`, `api/token.go`, `backends/mirrored.go`). `PushHandler.dfy` is the
  admission pipeline with its audit trail, `Mirrored.dfy` the two-leg store with a replayable
  history, `MirrorInterleaving.dfy` concurrent pushes at single-leg granularity, `StoreRun.dfy`
  start-up and whole runs.
- **Parsers** (`cmd/artifact-store/token.go`, `api/token.go`, `api/resolve.go`). `InlineKeys.dfy`,
  `UploadToken.dfy`, `BodyLimit.dfy` and `Expiry.dfy`, over `Hex.dfy`, `Base64.dfy` and `Text.dfy`.

## Assumptions

- Cryptography is symbolic: a sealed text opens under its own key and nonce only, and every Transit
  key that is created gets a KEK that never existed before. Hash, CID reader, recipient-key parser,
  PEM block decoder, JSON and Ed25519 are parameters. Laws about them (`UploadToken.Lawful`,
  `MirrorInterleaving.CollisionFree`, `KeyService.CollisionFree`) are stated where they are used.
- Randomness is fresh: a newly generated digest is not one already used or asked for
  (`KeyService.FreshCall`, `FreshGen`). Callers can only name digests they were told, or guesses
  that match nobody's undisclosed digest (`Enabled`).
- In the backend classes a request that reports failure had no effect. The two interleaving
  machines drop this assumption.
- The PKCS#11 mutex makes each lock section one step; `Pkcs11Interleaving.Perform` shows that each
  section of the class is one, and `RunIsTrace` that their interleavings are traces.

## What the proofs found

- A kv-v2 write whose response is lost, followed by a working rollback, leaves a record without
  its Transit key (`VaultWitnesses.LostWriteStrandsRecord`). That is the only way it can happen,
  and the digest of such a record is never handed to a caller, so every disclosed digest still
  decrypts even when responses are lost.
- After an acknowledged deletion a call that starts later reveals nothing, on any backend, and on
  Vault no request for that digest succeeds any more. A call that had got hold of the key before
  still completes: on Vault a Decrypt or Rotate whose unwrap was already answered
  (`VaultWitnesses.InFlightDecryptOutlivesDelete`, `InFlightRotateOutlivesDelete`), on Cloud KMS a
  Decrypt that had fetched the document (`GcpWitnesses.InFlightDecryptOutlivesDelete`).
- Under a registered kid equal to the sentinel `<rejected>` the handler takes a correctly signed
  push for one it has already answered: it stores nothing, audits nothing and writes nothing, and
  net/http then sends an empty 200, so the client is told success. No other kid does this.
- A body whose transport error arrives together with its byte number limit + 1, the last, is
  reported as broken and not as too large (`BodyLimit.CutAtLimitExists`); this is the only exception
  (`BodyLimit.TooLargeExactly`).
- A body limit of 2^63-1 wraps to a negative read budget: the handler then takes every body for an
  empty one. No smaller limit does.
- An expiry above 9223372036 seconds wraps; one second above it gives a negative duration.
- Two concurrent pushes of one CID without digest verification can leave the legs with different
  bytes for good; a delete the mirror missed leaves the object readable through the mirror.
- `keyservice/doc.go` speaks of Vault generating data keys; the code draws the DEK locally and
  wraps it, and the model follows the code. The backends' `pathCache` is written and never read.

## Model

| member | source | states |
|---|---|---|
| `VaultInterleaving.StepKeepsBase` | keyservice/vault.go:116-268 | Every request of every call, whatever fails or is lost, keeps: a record is the one blob ever wrapped for its digest, only its owner can add it, and an erased digest has no record and no key that unwraps a saved copy. |
| `VaultInterleaving.StepKeepsStrong` | keyservice/vault.go:116-268 | Every request also keeps the two stores in agreement: a record that was not mislaid has the Transit key whose KEK wrapped it, a disclosed and undoomed digest has its record, and no mislaid digest is ever disclosed. |
| `VaultInterleaving.StoresAgree` | keyservice/vault.go:116-268 | In every interleaved run: records match their keys up to mislaid ones, mislaid digests stay undisclosed, and every digest handed out and not yet being deleted unwraps to its own key and nonce. |
| `VaultInterleaving.NothingMislaid` | keyservice/vault.go:142-163 | In every run without a lost response each kv-v2 record has a Transit key holding the very KEK that wrapped it, without exception. |
| `VaultInterleaving.MislaidHasCause` | keyservice/vault.go:155-163 | A mislaid record was produced by a kv-v2 write whose response was lost, and by nothing else. |
| `VaultWitnesses.LostWriteStrandsRecord` | keyservice/vault.go:155-163 | Witness run from the initial state: the write's response is lost, the three rollback requests work, and a record without a key is left. |
| `VaultInterleaving.ErasureIsPermanent` | keyservice/vault.go:253-268 | In every interleaved run, after a deletion of d was acknowledged: what a call still returns of d (plaintext, key material or a re-encryption) it had unwrapped, and so had started, no later than that; no later request to fetch or unwrap d succeeds; and no saved blob unwraps even after a key of that name is created again. |
| `VaultInterleaving.RevealsHeld` | keyservice/vault.go:174-229 | Whatever a call reveals, it unwrapped after its own start and before any acknowledged deletion. |
| `VaultWitnesses.InFlightDecryptOutlivesDelete` | keyservice/vault.go:204-229 | Witness run from the initial state: a Decrypt whose unwrap was answered returns the plaintext after another caller's deletion was acknowledged. |
| `VaultInterleaving.RotatedOrigin` | keyservice/vault.go:233-249 | What a Rotate is about to return was derived from the old digest by this very call, after it started and before any acknowledged deletion. |
| `VaultWitnesses.InFlightRotateOutlivesDelete` | keyservice/vault.go:233-249 | Witness run from the initial state: a Rotate in flight returns a re-encryption after another caller's deletion was acknowledged. |
| `VaultInterleaving.ReadsAreTrue` | keyservice/vault.go:174-229 | Even with lost responses, a successful Decrypt returns what was sealed under that digest, and WrapForRecipient the 44-byte key and nonce of that digest. |
| `VaultInterleaving.FetchFinds` | keyservice/vault.go:204-212 | From any reachable state, a fetch that works finds the record of a disclosed digest nobody began to delete. |
| `VaultInterleaving.UnwrapAnswers` | keyservice/vault.go:204-213 | Whoever acted in between, an unwrap of an undoomed digest that works yields its key and nonce. |
| `VaultInterleaving.DecryptAnswers` | keyservice/vault.go:214-229 | From then on, whatever others do, the caller gets the plaintext. |
| `VaultInterleaving.WrapAnswers` | keyservice/vault.go:189-199 | Likewise a Wrap that holds the key hands key and nonce to the recipient. |
| `VaultInterleaving.NothingErasedBeforeDeleting` | keyservice/vault.go:233-249 | Until a call reaches its deleting phase none of its steps changes the record or key of any digest a caller can name. |
| `VaultInterleaving.OldStillDecrypts` | keyservice/vault.go:233-249 | So whatever decrypted before such a step, failed or not, decrypts after it. |
| `VaultInterleaving.ReplacementCommitted` | keyservice/vault.go:233-249 | At every moment of Rotate's deleting phase the replacement has its record and matching key and decrypts to the plaintext that was sealed under the old digest's key; with a collision-free hash and the ciphertext the old digest names, to the old plaintext. |
| `VaultInterleaving.RotatedStillDecrypts` | keyservice/vault.go:233-249 | A rotation that returns, with or without a failed final delete, returns a digest that decrypts to that same plaintext. |
| `VaultCompletion.CallsComplete` | keyservice/vault.go:116-268 | In every interleaved run, a call whose own steps work while nobody else acts on its digest gets its proper answer within at most ten of them: a committed new digest, the plaintext, key and nonce, or, for Delete and for Rotate alike, a report of erasure with neither record nor key of the old digest left. |
| `VaultCompletion.OwnStep` | keyservice/vault_api.go:25-231 | Each working step of the caller's own brings it nearer or gives that answer. |
| `VaultCompletion.OtherStep` | keyservice/vault.go:116-268 | Nothing others do to other digests throws the caller off its way. |
| `VaultCompletion.Begins` | keyservice/vault.go:116-268 | Every call starts on its way; a query, when its digest exists, is not being deleted and its ciphertext fits. |
| `VaultCompletion.FailureRollsBack` | keyservice/vault.go:142-163 | A wrap or store request that fails leads into the rollback. |
| `VaultCompletion.RollbackCompletes` | keyservice/vault.go:142-163 | In every interleaved run, whatever others do, a rollback whose requests work ends within three of them with the error and with neither record nor key left. |
| `GcpInterleaving.StepKeepsInv` | keyservice/gcpkms.go:27-161 | Every KMS or Firestore request of every call, whatever fails or is lost, keeps documents true to their digests, erased digests without documents, and held material older than any acknowledged deletion. |
| `GcpInterleaving.ErasureIsPermanent` | keyservice/gcpkms.go:151-161 | In every interleaved run, what a call reveals of d after a deletion of d was acknowledged it had fetched, and so had started, no later than that. |
| `GcpInterleaving.RevealsHeld` | keyservice/gcpkms.go:68-123 | What a call reveals it fetched after its start and before any acknowledged deletion, and it is the digest's own key and nonce, or the plaintext sealed under them. |
| `GcpInterleaving.FetchFinds` | keyservice/gcpkms.go:98-104 | A fetch that works finds the document of a disclosed digest nobody began to delete. |
| `GcpInterleaving.DecryptAnswers` | keyservice/gcpkms.go:105-123 | Whoever acted since, an unwrap that works yields the plaintext. |
| `GcpInterleaving.WrapAnswers` | keyservice/gcpkms.go:84-94 | Likewise an unwrap for a recipient yields key and nonce. |
| `GcpInterleaving.DocumentsAgree` | keyservice/gcpkms.go:27-63 | In every interleaved run each document wraps its own digest's material and every disclosed, undoomed digest has its document. |
| `GcpInterleaving.NothingErasedBeforeDropping` | keyservice/gcpkms.go:130-146 | Before its delete request no call changes the document of any digest a caller can name. |
| `GcpInterleaving.ReplacementStored` | keyservice/gcpkms.go:130-146 | Rotate's delete request finds and leaves the replacement's document in place, and it decrypts to the plaintext that was sealed under the old digest's key; with a collision-free hash, to the old plaintext. |
| `GcpCompletion.CallsComplete` | keyservice/gcpkms.go:27-161 | In every interleaved run, a call whose own requests work while nobody else begins to delete its digest gets its proper answer within at most five of them; Delete and Rotate leave no document of the old digest and say so. |
| `GcpCompletion.OwnStep` | keyservice/gcpkms_api.go:25-165 | Each working request of the caller's own brings it nearer or gives that answer. |
| `GcpCompletion.Begins` | keyservice/gcpkms.go:27-161 | Every call starts on its way. |
| `GcpWitnesses.InFlightDecryptOutlivesDelete` | keyservice/gcpkms.go:98-123 | Witness run from the initial state: a Decrypt that fetched first answers after the deletion was acknowledged. |
| `KeyService.FaultFreeStep` | keyservice/vault.go:116-268 | Without a failed request the step relation leaves no choice: state and outcome are the abstract service's. |
| `KeyService.ReadExactly` | keyservice/vault.go:174-229 | Each outcome of Decrypt and WrapForRecipient, and exactly when it is given: plaintext iff the ciphertext was sealed under the digest's key and nonce, key-not-found, mismatch, invalid recipient, 44 bytes of key and nonce. |
| `KeyService.OpenExactly` | keyservice/internals.go:43-60 | A key and nonce open exactly what was sealed under them. |
| `KeyService.FaultFreeRunsAgree` | keyservice/vault.go:116-268 | Two fault-free runs of the same calls on any two backends have equal outcomes and equal records throughout. |
| `KeyService.ErasureIsPermanent` | keyservice/pkcs11.go:192-219 | In any trace with any faults, after an acknowledged deletion no later Wrap, Decrypt or Rotate of that digest succeeds; applied to interleaved lock sections by `Pkcs11Interleaving.ErasureIsPermanent`. |
| `KeyService.ErasedIsNotFound` | keyservice/gcpkms_api.go:112-144 | And without a failed request the answer is then key-not-found. |
| `KeyService.DecryptsUntilDeleted` | keyservice/vault.go:204-249 | A digest handed out by Generate or by Rotate, its old key erased or not, decrypts to the plaintext behind it through any run until a Delete or Rotate of it is attempted. |
| `KeyService.StrandedExactly` | keyservice/vault.go:142-163 | In any run with faults, d's key lacks a record iff an earlier call left it so (its rollback's key deletion failed, or it removed the record and then failed on the key) and no deletion of d was acknowledged since. |
| `KeyService.StrandedStep` | keyservice/vault.go:253-268 | The same for one call, in both directions. |
| `KeyService.RotateNeverLoses` | keyservice/vault.go:233-249 | Whatever fails in a rotation, the plaintext is reachable under the old digest, or under the new one that is returned. |
| `KeyService.DeleteRetrySucceeds` | keyservice/vault.go:253-268 | Once requests stop failing, a retried delete succeeds from any state and leaves neither record nor key. |
| `KeyService.StepKeepsWellFormed` | keyservice/vault.go:116-268 | Every allowed step keeps live, stranded and erased digests apart and never forgets an erasure. |
| `KeyService.TraceWellFormed` | keyservice/vault.go:116-268 | The same at every point of a whole run. |
| `KeyService.OthersSurvive` | keyservice/vault.go:116-268 | A call that does not target a digest leaves its record as it was. |
| `Vault.VaultTransit.GenerateAndEncrypt` | keyservice/vault.go:116-170 | Commits the new digest, or fails leaving a key behind iff a request of the rollback's key deletion failed. |
| `Vault.VaultTransit.WrapAndStore` | keyservice/vault.go:142-163 | Wrapping and storing with rollback: success makes the digest live, failure removes its key iff no rollback request failed. |
| `Vault.VaultTransit.TransitDeleteKey` | keyservice/vault_api.go:115-154 | The three-request deletion removes exactly the key without a record, or fails and changes no digest's standing. |
| `Vault.VaultTransit.WrapForRecipient` | keyservice/vault.go:174-200 | The abstract read, or an error caused by a failed request; recipient checked before any request. |
| `Vault.VaultTransit.Decrypt` | keyservice/vault.go:204-229 | The abstract read: plaintext, key not found, or ciphertext mismatch. |
| `Vault.VaultTransit.Delete` | keyservice/vault.go:253-268 | Success leaves neither record nor key; failure leaves the key alone iff removing the key is what failed, and everything otherwise. |
| `Vault.VaultTransit.Rotate` | keyservice/vault.go:233-249 | The abstract rotation step: the old digest is touched only after the new one is live. |
| `Vault.VaultTransit.Serve` | keyservice/vault.go:116-268 | Any call with any faults is an allowed step and keeps the two-store invariant. |
| `Vault.TiedPut` | keyservice/vault_api.go:157-175 | Writing a record under the KEK its key holds turns a stranded key into a live digest and disturbs no other digest. |
| `Vault.TiedDropRecord` | keyservice/vault_api.go:216-231 | Removing the record alone turns a live digest into a stranded key and disturbs no other digest. |
| `Vault.TiedDropKey` | keyservice/vault_api.go:115-154 | Removing the key of a digest without a record keeps the two-store invariant. |
| `Vault.KvName` | keyservice/vault_api.go:285-293 | The record name decodes back to the digest, so two digests never share one. |
| `Vault.TransitName` | keyservice/vault.go:109-111 | The key name behind its prefix decodes back to the digest. |
| `Hex.HexCid` | keyservice/vault_api.go:285-293 | The table-driven loop writes the same text as the hex encoder. |
| `Hex.Encode` | keyservice/vault_api.go:285-293 | Twice as many hex characters as bytes, decoding back to the input. |
| `Hex.EncodeInjective` | keyservice/vault_api.go:285-293 | Equal names mean equal digests. |
| `Hex.DecodeByValue` | cmd/artifact-store/token.go:256-260 | Decoding looks at the value of each digit only. |
| `Hex.EitherCase` | keyservice/vault_api.go:285-293 | Digits are written in lower case and read in either. |
| `Gcp.GcpKms.GenerateAndEncrypt` | keyservice/gcpkms.go:27-63 | Commits the new digest or fails with nothing left behind. |
| `Gcp.GcpKms.WrapForRecipient` | keyservice/gcpkms.go:68-94 | The abstract read, or an error caused by a failed request. |
| `Gcp.GcpKms.Decrypt` | keyservice/gcpkms.go:98-123 | The abstract read, or an error caused by a failed request. |
| `Gcp.GcpKms.Delete` | keyservice/gcpkms.go:151-161 | Success, also for a missing document, leaves no document; failure changes nothing. |
| `Gcp.GcpKms.Rotate` | keyservice/gcpkms.go:130-146 | The abstract rotation step. |
| `Gcp.GcpKms.Serve` | keyservice/gcpkms.go:27-161 | Any call with any faults is an allowed step, and nothing is ever stranded. |
| `Gcp.DocId` | keyservice/gcpkms_setup.go:158-160 | The document id decodes back to the digest. |
| `Pkcs11.LabelsDisjoint` | keyservice/pkcs11_setup.go:120-122 | A temporary label is never a final label. |
| `Pkcs11.LookupExact` | keyservice/pkcs11_api.go:61-79 | An object carries a digest's final label iff it is that live digest's own object, so a one-result lookup is exact. |
| `Pkcs11.FinalLabelsUnique` | keyservice/pkcs11.go:43-65 | No two objects share a final label. |
| `Pkcs11.TiedCommit` | keyservice/pkcs11.go:43-65 | Relabelling turns the temporary object into the new digest's own and disturbs no other object. |
| `Pkcs11.TemporaryIsLeftover` | keyservice/pkcs11.go:43-65 | An object with a temporary label is a leftover and no digest's own. |
| `Pkcs11.Service.TemporariesHaveCause` | keyservice/pkcs11.go:43-65 | Whenever the mutex is free there are at most as many objects with a temporary label as destroy calls that failed; none if none failed. |
| `Pkcs11.Service.CommitKey` | keyservice/pkcs11.go:43-65 | Two-phase commit: live under its final label, or failed; a temporary object stays behind only if a destroy call failed. |
| `Pkcs11.Service.Relabel` | keyservice/pkcs11.go:55-65 | The second phase: the object becomes the digest's own, or is destroyed, or its destruction failed. |
| `Pkcs11.Service.OpenSession` | keyservice/pkcs11_api.go:28-51 | Exactly one session is open on success and none on failure, on the already-logged-in path too. |
| `Pkcs11.Service.Begin` | keyservice/pkcs11.go:26-41 | Lock, check, open: without a session the mutex is free again; when closed the module is not called. |
| `Pkcs11.Service.End` | keyservice/pkcs11_api.go:54-57 | Every session ever opened has been closed exactly once when the mutex is released. |
| `Pkcs11.Service.Close` | keyservice/pkcs11_setup.go:101-111 | Closes once; a second call does not reach the module. |
| `Pkcs11.Service.GenerateAndEncrypt` | keyservice/pkcs11.go:23-66 | The abstract generation with sessions balanced, objects accounted for and nothing temporary left unless a destroy call failed; after Close it fails without calling the module. |
| `Pkcs11.Service.WrapForRecipient` | keyservice/pkcs11.go:72-115 | The abstract read with sessions balanced; after Close it fails without calling the module. |
| `Pkcs11.Service.Decrypt` | keyservice/pkcs11.go:121-164 | The abstract read with sessions balanced; after Close it fails without calling the module. |
| `Pkcs11.Service.Delete` | keyservice/pkcs11.go:192-219 | Success leaves no object with the digest's label; failure changes nothing. |
| `Pkcs11.Service.Rotate` | keyservice/pkcs11.go:171-187 | The abstract rotation step across three lock sections, with nothing temporary left unless a destroy call failed. |
| `Pkcs11.Service.Serve` | keyservice/pkcs11.go:23-219 | Any call with any faults is an allowed step, leaves nothing temporary unless a destroy call failed, and makes no module call once closed. |
| `Pkcs11Interleaving.Perform` | keyservice/pkcs11.go:23-219 | One lock section on the backend itself, whatever fails, is a legal step of the section machine. |
| `Pkcs11Interleaving.RunIsTrace` | keyservice/pkcs11.go:171-187 | Every interleaving of lock sections, Rotate's three among them, is a trace of the abstract service. |
| `Pkcs11Interleaving.PendingWasRead` | keyservice/pkcs11.go:171-187 | A Rotate between sections holds exactly what its own first section read. |
| `Pkcs11Interleaving.ErasureIsPermanent` | keyservice/pkcs11.go:192-219 | Under every interleaving, after an acknowledged deletion of d no section reads d, and a Rotate of d that still goes on had read it before. |
| `Pkcs11Interleaving.RotateNeverErasesEarly` | keyservice/pkcs11.go:171-187 | Under every interleaving, before and after Rotate's delete section its replacement decrypts to the plaintext its first section read. |
| `Pkcs11Interleaving.EarlierSectionsSpare` | keyservice/pkcs11.go:171-187 | Rotate's first two sections, failed or not, leave every live digest as it was. |
| `Pkcs11Interleaving.SectionsComplete` | keyservice/pkcs11.go:171-187 | Without a failed call the first section reads, the second makes the replacement, and the third erases the old digest and says so. |
| `Pkcs11Interleaving.FailureEnds` | keyservice/pkcs11.go:171-187 | A section that fails is the last of its Rotate. |
| `Conformance.DriveVault` | keyservice/vault.go:116-268 | Any run on Vault, whatever fails, is a trace of the abstract service; at its end a Transit key lacks its record exactly when a call left it so and no deletion was acknowledged since. |
| `Conformance.DriveGcp` | keyservice/gcpkms.go:27-161 | Any run on Cloud KMS, whatever fails, is a trace of the abstract service. |
| `Conformance.DrivePkcs11` | keyservice/pkcs11.go:23-219 | Any run on PKCS#11, open or closed and whatever fails, is a trace of the abstract service and leaves nothing temporary unless a destroy call failed. |
| `Conformance.CleanTrace` | keyservice/vault.go:116-268 | A trace without a failed request shows exactly the abstract service's outcomes. |
| `Conformance.RunAll` | keyservice/pkcs11.go:23-219 | The same calls on Vault, Cloud KMS and PKCS#11: each backend on which no request failed gives the abstract service's outcomes, so the three agree. |
| `Mirrored.LegsAgreeUnlessSuspect` | backends/mirrored.go:73-118 | After any history the legs agree on every CID except those where one leg failed since the last write that reached both. |
| `Mirrored.SuspicionStays` | backends/mirrored.go:73-118 | A CID becomes suspect by a one-legged write and is cleared by a two-legged one only. |
| `Mirrored.MissedDeleteStaysOnMirror` | backends/mirrored.go:111-118 | Witness: a delete the mirror missed leaves the object there. |
| `Mirrored.MirroredStore.Push` | backends/mirrored.go:73-82 | Primary first; its failure stops the push with nothing written; a mirror failure is recorded and hidden from the caller. |
| `Mirrored.MirroredStore.Fetch` | backends/mirrored.go:84-92 | For a CID that is not suspect the answer is a single store's: a hit while either leg is up, a miss when the mirror reports it. |
| `Mirrored.MirroredStore.Exists` | backends/mirrored.go:94-100 | True if the primary answers and holds the object, else what the mirror says; for a CID that is not suspect a single store's answer, or unavailable. |
| `Mirrored.MirroredStore.Pin` | backends/mirrored.go:102-109 | Both legs are attempted, the caller sees the primary's result, and no object changes. |
| `Mirrored.MirroredStore.Delete` | backends/mirrored.go:111-118 | Both legs are attempted, the caller sees the primary's result, and the history says which leg took it. |
| `MirrorInterleaving.PushesConverge` | backends/mirrored.go:73-82 | In every interleaving of verified pushes the mirror holds only what the primary holds, with the same bytes, and both are equal once no push is between its legs. |
| `MirrorInterleaving.RunKeepsInv` | backends/mirrored.go:73-82 | The invariant behind it, at every moment of every run. |
| `MirrorInterleaving.UnverifiedPushesDiverge` | api/push.go:127-148 | Witness: without digest verification two pushes of one CID can leave the legs different. |
| `PushHandler.Handler.ServeHTTP` | api/push.go:73-168 | The first failed check gets one response and one audit record and leaves the backend alone; otherwise the whole body is pushed and answered 200, or the backend error is answered 500; nothing is written only under the sentinel kid. |
| `PushHandler.Handler.Admit` | api/push.go:74-116 | Everything before the digest check: the CID and whole body of a request that passes, or its one rejection. |
| `PushHandler.Handler.Receive` | api/push.go:74-108 | CID header and body: the parsed CID and the whole body, or one rejection for the first of these checks that fails. |
| `PushHandler.Handler.CheckUploadToken` | api/push.go:179-218 | Switched off or without keys: no part played. Otherwise a missing token is refused iff required, and a token that is there, required or not, iff it does not vouch for this upload; else the verified kid and no output. |
| `PushHandler.Handler.VerifyAndPersist` | api/push.go:127-168 | Nothing reaches the backend unless the digest matches or verification is off. |
| `PushHandler.FirstFailedIsFirst` | api/push.go:73-168 | The reported check fails and every check before it in the documented order passes. |
| `PushHandler.TokenPolicy` | api/push.go:179-218 | The same of the decision, in terms of policy, keys and token alone. |
| `PushHandler.AnswerTable` | api/push.go:73-168 | Status and reason, literally, for each kind of bad request. |
| `PushHandler.MintedAnswers` | api/push.go:221-238 | And for each thing that can be wrong with an issued token: unknown kid, other signer, expired, other CID, other size. |
| `PushHandler.GarbageAnswer` | api/push.go:221-238 | Text without a dot is answered 401 token_malformed. |
| `StoreRun.RequiredMeansVerified` | api/push.go:179-218 | Under "required" a request that passes carries a token whose payload is signed by the key registered under its kid, in force, for this CID and size. |
| `StoreRun.OptionalMeansNoneOrVerified` | api/push.go:179-218 | Under "optional" it carries such a token or none. |
| `StoreRun.NeverSilent` | api/push.go:110-116 | Without a key under the sentinel kid the handler answers every request. |
| `StoreRun.SentinelKidSilences` | api/push.go:169-175 | With one, there is a correctly signed request to which the handler writes nothing. |
| `StoreRun.BuildUploadTokenVerifier` | cmd/artifact-store/token.go:54-104 | Every outcome of start-up, each iff: no verifier under "off", an error for an unknown policy, for no key source and for two, and otherwise the source's keys iff they were read, are non-empty and all 32 bytes long. |
| `StoreRun.ReplayIsGood` | api/push.go:127-148 | If every push in a history carried matching bytes within the limit, each leg holds only such objects. |
| `StoreRun.AcceptedIsGood` | api/push.go:87-148 | With verification on, an accepted body hashes to its CID under the CID's algorithm and is within the limit. |
| `StoreRun.RunServer` | api/push.go:87-159 | In any run of push, fetch, delete and pin with either leg down at any time, any keys and any tokens, both legs hold only good objects and fetches return only good bytes; the responses are one for each push that is not silent, which without a key under the sentinel kid is every push. |
| `StoreRun.PushesAreAnswered` | api/push.go:110-116 | Without a key under the sentinel kid the answered pushes of a run are all its pushes. |
| `StoreRun.Serve` | backends/mirrored.go:73-118 | The same for one operation; a fetch the primary can answer returns the primary's bytes. |
| `UploadToken.NewVerifier` | api/token.go:133-147 | Accepts exactly the non-empty maps of 32-byte keys, and copies them. |
| `UploadToken.MintSplits` | api/token.go:149-171 | A minted token, each half padded or not, splits at its first dot into halves that decode to payload and signature. |
| `UploadToken.MintVerifies` | api/token.go:149-211 | A minted token is accepted iff its kid is registered with the signer's key, it is unexpired, and CID and size match; otherwise the verdict names the first claim that fails. |
| `UploadToken.VerifyExactly` | api/token.go:149-211 | For every token: accepted iff the halves around its first dot decode to a payload and a signature, the payload reads as claims, the key registered under its kid verifies the signature, it is in force, and CID and size match. |
| `UploadToken.MintClassified` | api/push.go:221-238 | The audit reason of every issued token, literally. |
| `UploadToken.VerifiedKid` | api/push.go:242-262 | After any successful verification the extracted kid is the one that selected the key. |
| `UploadToken.ExtractKid` | api/push.go:242-262 | The loop over decoders returns the kid of the first decoding that reads as JSON. |
| `UploadToken.OtherKidsIrrelevant` | api/token.go:187-190 | Adding, dropping or changing other kids never changes a verdict. |
| `UploadToken.TokenBindsUpload` | api/token.go:201-210 | One token is never accepted for two different CIDs or sizes. |
| `Base64.SextetsRoundTrip` | api/token.go:158-174 | Regrouping bytes into six-bit values and back is the identity. |
| `Base64.RoundTrip` | api/token.go:158-174 | Decoding undoes encoding for both alphabets, padded or not. |
| `Base64.RawOnPadded` | api/token.go:158-174 | The unpadded decoder refuses text that carries padding and agrees where there is none; it never returns other bytes. |
| `Base64.EitherRoundTrip` | api/token.go:158-174 | Trying unpadded, then padded recovers the bytes from either form. |
| `Base64.BreaksIgnored` | api/token.go:158-174 | A line break anywhere in the text makes no difference. |
| `Base64.DecodesOnlyAlphabet` | api/token.go:158-174 | Nothing but the alphabet, line breaks and, where meant, padding is accepted. |
| `Base64.TestVectors` | api/token.go:158-174 | Test vectors of section 10 of RFC 4648 and the letters in which the alphabets differ. |
| `InlineKeys.PemAwareSplit` | cmd/artifact-store/token.go:166-192 | The loop returns the trimmed, non-blank pieces between commas at depth zero; its counter is begin markers minus end markers seen so far. |
| `InlineKeys.FilterInPlace` | cmd/artifact-store/token.go:155-163 | The in-place filter keeps exactly the non-blank pieces, in order. |
| `InlineKeys.SplitInlineEntries` | cmd/artifact-store/token.go:152-193 | Fast and slow path together return the specified entries. |
| `InlineKeys.PiecesRejoin` | cmd/artifact-store/token.go:166-192 | Raw pieces rejoined with commas are the input. |
| `InlineKeys.SeparatorsAreCuts` | cmd/artifact-store/token.go:166-192 | The separators are exactly the commas at depth zero, so none inside an open block. |
| `InlineKeys.FastPathAgrees` | cmd/artifact-store/token.go:152-193 | Without markers the fast path's pieces equal the slow path's after trimming. |
| `InlineKeys.ParseInlinePubKeys` | cmd/artifact-store/token.go:117-145 | The loop builds the specified map or reports the specified error. |
| `InlineKeys.ParseSound` | cmd/artifact-store/token.go:117-145 | An accepted list has one 32-byte key per entry, each under its own kid. |
| `InlineKeys.RepeatedKidRefused` | cmd/artifact-store/token.go:140-142 | A list that names a kid twice is refused, wherever the two entries stand. |
| `InlineKeys.DecodePubKey` | cmd/artifact-store/token.go:232-271 | Every decoded key is exactly 32 bytes. |
| `InlineKeys.PemDecodes` | cmd/artifact-store/token.go:238-252 | A PEM block of any header and a 32-byte key decodes to the key. |
| `InlineKeys.PemRefused` | cmd/artifact-store/token.go:238-252 | PEM text is refused iff it holds no block or one shorter than a key. |
| `InlineKeys.KeyTextDecodes` | cmd/artifact-store/token.go:232-271 | A 32-byte key written as hex, standard base64 or PEM decodes to itself. |
| `InlineKeys.EntriesOfPrint` | cmd/artifact-store/token.go:152-193 | A printed list splits into its own lines, on the fast path and, with PEM in it, on the slow path. |
| `InlineKeys.InlineRoundTrip` | cmd/artifact-store/token.go:117-145 | Printing a key map in any order, with any white space around kids and keys and any mix of hex, base64 and PEM, then parsing, returns the map. |
| `InlineKeys.UnmarkedBalanced` | cmd/artifact-store/token.go:166-192 | Marker-free kids meet the condition on lines. |
| `InlineKeys.EntryErrors` | cmd/artifact-store/token.go:126-139 | An entry with a blank value, or one that is no key, is refused with its own error. |
| `Text.TrimExactly` | cmd/artifact-store/token.go:126-129 | Trimming takes away white space at both ends, all of it and nothing else. |
| `Text.TrimPad` | cmd/artifact-store/token.go:126-129 | White space around a text makes no difference to trimming it. |
| `BodyLimit.ReadLimited` | api/push.go:87-94 | For any chunking, any buffer sizes and an end reported alone or with the last bytes: the bytes read are the first ones up to the budget, and an error is seen iff it comes before the budget is used up or with the byte that uses it up. |
| `BodyLimit.ReadBody` | api/push.go:87-108 | Too large, broken or whole as the limit promises; at the largest int64 an empty body. |
| `BodyLimit.TooLargeExactly` | api/push.go:87-108 | Below 2^63-1, too large iff longer than the limit, except exactly when the transport error comes with byte limit + 1, the last; accepted iff properly ended and within the limit, and then whole. |
| `BodyLimit.CutAtLimitExists` | api/push.go:87-108 | Witness of that exception for every limit. |
| `BodyLimit.LimitExactWhenBelowMax` | api/push.go:87-108 | Every body is accepted, with all its bytes, iff it ended properly within the limit: this holds of all bodies iff the limit is below 2^63-1. |
| `Expiry.ExpiryBound` | api/resolve.go:30-36 | For every positive number of seconds the product is exact, and divides back, iff it is at most 9223372036. |
| `Expiry.RequestedExpiryExact` | api/resolve.go:30-36 | A decimal request, with or without a plus sign, gets exactly its lifetime iff within that bound; one second above gives a negative duration. |
| `Expiry.ParseExactly` | api/resolve.go:33 | Text reads as a number iff only digits follow an optional sign and the signed value is an int64. |
| `Expiry.SignedDecimalReads` | api/resolve.go:33 | Decimal text behind any sign reads back as its signed number in range, and not at all out of range. |
| `Expiry.DefaultForNumbers` | api/resolve.go:33 | Negative numbers, zero and numbers beyond int64 leave the default. |
| `Expiry.DefaultForOtherText` | api/resolve.go:33 | So does any text that is not a number. |
| `Expiry.HourReads` | api/resolve.go:33 | Base ten: "3600" is 3600. |
| `Expiry.RequestedExpiry` | api/resolve.go:30-36 | The default for missing, unreadable and non-positive values; the exact number of nanoseconds up to 9223372036 seconds; beyond that a different int64 equal to it modulo 2^64. |
| `Expiry.DecimalReads` | api/resolve.go:30-36 | Decimal text reads back as its number. |

## Left out

- HTTP requests, JSON bodies, OAuth and the cgo PKCS#11 module: only their state changes and status classes are modelled.
- AES-GCM, ECIES, Ed25519, the hashes and secp256k1 parsing are symbolic or parameters; nothing is claimed about the algorithms.
- `internal/signers`, `backends/gcs.go` and `backends/rustfs.go`: thin clients and request signing. Their Exists reports any non-200 status as "absent", so the claim about Exists does not extend to real outages of those backends.
- Resolve through the mirror: it signs for the primary only, and no agreement with Exists holds.
- Wiping of key buffers: byte-level memory is not modelled.
- `pathCache`: written and never read, so it cannot be observed.
- `loadPubKeysDir`: the directory's content is a parameter of `StoreRun.BuildUploadTokenVerifier`.
- Audit fields other than the reason and the claimed CID, and the messages sent to clients.
- RFC 3339 formatting, configuration loading, the watchdog, and the health, exists, pin and delete handlers: plumbing that would only add easy members.
- PKCS#11 slot search, attribute loops and label trimming; failing to draw the nonce counts as a failed session request.
- Strings are sequences of characters; the source indexes bytes. The markers and separators are ASCII, so the cuts are the same.
