# Distributed storage core: a Dafny model

This project models the core of a distributed, content-addressed storage
system written in C#:

- the challenge-response key swap with which two nodes authenticate each other (`RsaKeySwapper`);
- the keyed-container helpers and the dictionary adapter that registries are built on (`ContainerExtensions`);
- the remote bucket proxy that turns every bucket member into one named call on a protocol connection, and the factory that builds such proxies (`RemoteBucket`, `RemoteBucket.Factory`);
- the storage data model: the `Slice` record and the projection from the storage manifest to the web manifest (`Slice`, `ManifestExtensions`).

The files are:

| file | module | models |
|---|---|---|
| `common.dfy` | `Common` | bytes, `long`, `Option`, byte-wise XOR and its laws, enumerations of a set |
| `slice.dfy` | `Encoding` | `Hash`, the storage `Manifest`, the `Slice` class |
| `container.dfy` | `Storage` | the dictionary, the `ToContainer` adapter, `GetKeysAndValues`, `GetValues` |
| `remote_bucket.dfy` | `Networking` | the protocol connection, one named remote method, `RemoteBucket`, its `Factory` |
| `rsa_key_swapper.dfy` | `Security` | the record stream, the RSA collaborator, `RsaKeySwapper`, whole-exchange drivers |
| `manifest_extensions.dfy` | `AspNetModels` | the web `Manifest` and `ToManifest` |

Collaborators whose code is not part of this model are stood in for as follows.

- **The transport stream.** A `Stream` object holds two queues: records that arrived from the peer and have not been read yet, and records this end wrote. Each record is a public key or a chunk. The stream also logs every blocking read it was asked for, with the time budget given. A read succeeds when its budget is positive and the next record has the expected kind. A failed read consumes nothing. `Deliver` is the connection between two ends.
- **RSA.** A `CryptoRsa` object carries abstract `sign` and `verify` functions and logs each call. The cryptographic promise `verify(m, sign(m, k), public(k))` is the predicate `Sound`. The model never assumes it. The whole-exchange driver takes it as a precondition.
- **The replay argument.** This needs one more idealisation, `Binding`: a signature verifies for no message other than the one signed. `ToyCryptoIsSoundAndBinding` shows the two hypotheses can hold together.
- **Elapsed time.** The stopwatch reading is a non-negative parameter.
- **`IProtocol` and `ProtocolMethod.Create`.** A `Protocol` logs every call (name and payload). It answers the n-th call with `remote(n, call)`, an arbitrary function standing for the far end. A `ProtocolMethod` runs its hook, encodes its argument, makes exactly one call and decodes the response. Converters are arbitrary functions.

Choices the model makes about behaviour the code leaves open or states implicitly:

- **Receive failures.** Every failed read is reported as `false`. Whether the real readers throw on a timeout is not modelled.
- **What each side signs.** The sender signs *their challenge XOR our challenge*. The verifier checks *our challenge XOR their challenge*. The sender's "their" is the verifier's "our", so both compute the same expression, `Xor(verifier's challenge, sender's challenge)`, in the same order. `XorCommutes` shows something else: the buffer a side signs equals the buffer that same side verifies, which is what a reflected proof exploits (`ReflectionAccepted`).
- **Slice count.** The web manifest's slice count is the length of the storage manifest's slice-hash array.

## Model

| member | source | states |
|---|---|---|
| `Security.RsaKeySwapper.constructor` | Security/RsaKeySwapper.cs:22-25 | the swapper keeps the RSA collaborator it is given |
| `Security.RsaKeySwapper.SendChallenge` | Security/RsaKeySwapper.cs:30-34 | exactly two records are appended, in order: the public half of our key, then our challenge as one chunk; nothing is read |
| `Security.RsaKeySwapper.TryReceiveChallenge` | Security/RsaKeySwapper.cs:39-47 | success iff a key and then a chunk can be read; if the key read fails, no chunk read is attempted, nothing is consumed, the key is the empty key and the challenge stays null; if only the chunk read fails, exactly the key record is consumed; the chunk read gets budget `timeout - elapsed`, never more than `timeout`; on success the peer's key and a fresh copy of its challenge are returned |
| `Security.RsaKeySwapper.SendChallengeResponse` | Security/RsaKeySwapper.cs:52-59 | exactly one chunk is appended: the signature under our key of their challenge XOR ours; the signer is asked exactly that; neither challenge array changes |
| `Security.RsaKeySwapper.TryReceiveChallengeResponse` | Security/RsaKeySwapper.cs:64-73 | without a readable proof chunk: false, and the verifier is not consulted; otherwise the result is exactly `verify(our XOR their, proof, theirs)`, the verifier is asked exactly that, and one chunk is consumed; neither challenge array changes |
| `Security.XorInto` | Security/RsaKeySwapper.cs:54-55 | mixing in place leaves `old(target) XOR other` in the target |
| `Security.Clone` | Security/RsaKeySwapper.cs:54 | the clone is a new array with the same contents |
| `Security.ExchangeChallenges` | Security/RsaKeySwapper.cs:30-47 | when both sides send and then receive within budget, each holds the other's public key and a copy of the other's challenge |
| `Security.HonestHandshake` | Security/RsaKeySwapper.cs:30-73 | with sound signatures, equal-length challenges and enough time, both sides accept and each holds the other's public key: the buffer A signs is the buffer B verifies, and the other way round |
| `Security.ReplayRejected` | Security/RsaKeySwapper.cs:64-73 | with binding signatures, a verbatim recording of an earlier session whose verifier challenge differs from the current one is rejected |
| `Security.AdaptiveReplayAccepted` | Security/RsaKeySwapper.cs:30-73 | with sound signatures, a peer that reads B's challenge before announcing its own can choose a challenge that makes B accept a recorded proof of A's, and B then holds A's public key as the peer's |
| `Security.ReflectionAccepted` | Security/RsaKeySwapper.cs:30-73 | with sound signatures, a peer holding no private key that echoes A's public key, sends any challenge of the right length and echoes A's proof back makes A accept, holding its own public key as the peer's |
| `Security.RsaKeySwapper.SendBoundChallengeResponse` | Security/RsaKeySwapper.cs:52-59 | corrected response: one chunk is appended, the signature of their challenge followed by ours; the signer is asked exactly that |
| `Security.RsaKeySwapper.TryReceiveBoundChallengeResponse` | Security/RsaKeySwapper.cs:64-73 | corrected check: without a readable proof chunk, false and no verifier call; otherwise exactly `verify(ours followed by theirs, proof, theirs)`, with one chunk consumed |
| `Security.AdaptiveReplayRejectedWhenBound` | Security/RsaKeySwapper.cs:64-73 | with the corrected check and binding signatures, a recorded proof from a session with a different challenge of B is rejected, whatever challenge the peer announces after reading B's, provided B's earlier and current challenges have one length |
| `Security.BoundHonestHandshake` | Security/RsaKeySwapper.cs:30-73 | with the corrected response, sound signatures and enough time, both sides accept and hold each other's public key, whatever the challenge lengths |
| `Common.XorCommutes` | Security/RsaKeySwapper.cs:54-55 | the buffer a side signs, their challenge XOR ours, equals the buffer that same side verifies, ours XOR theirs |
| `Common.XorCancels` | Security/RsaKeySwapper.cs:69-70 | mixing the same challenge in twice gives back the original |
| `Common.XorUnmasks` | Security/RsaKeySwapper.cs:69-70 | a buffer masked with our challenge and mixed with it again loses the mask |
| `Common.XorInjective` | Security/RsaKeySwapper.cs:69-70 | two challenges mixed with the same buffer agree iff the challenges agree |
| `Storage.ToContainer` | DistributedStorage/Storage/ContainerExtensions.cs:21 | the container shares the given dictionary rather than copying it |
| `Storage.Container.constructor` | DistributedStorage/Storage/ContainerExtensions.cs:21-33 | the container wraps the given dictionary |
| `Storage.Container.GetKeys` | DistributedStorage/Storage/ContainerExtensions.cs:23 | every key of the dictionary, each exactly once |
| `Storage.Container.TryAdd` | DistributedStorage/Storage/ContainerExtensions.cs:24-30 | true iff the key was absent; then the key maps to the value and every other entry is unchanged; otherwise nothing changes |
| `Storage.Container.TryGet` | DistributedStorage/Storage/ContainerExtensions.cs:31 | finds a value iff the key is in the dictionary, and it is the dictionary's value |
| `Storage.Container.TryRemove` | DistributedStorage/Storage/ContainerExtensions.cs:32 | true iff the key was present; afterwards it is absent and every other entry is unchanged |
| `Storage.AddThenGet` | DistributedStorage/Storage/ContainerExtensions.cs:24-31 | after a successful add, a lookup of that key yields the value added |
| `Storage.GetKeysAndValues` | DistributedStorage/Storage/ContainerExtensions.cs:8-14 | the pairs collected along the key enumeration, in that order; each entry of the dictionary appears exactly once with its value |
| `Storage.CollectMembership` | DistributedStorage/Storage/ContainerExtensions.cs:11-13 | along any key walk, `(k, v)` is yielded iff `k` was walked and its lookup succeeds with `v` |
| `Storage.CollectSkipsMissing` | DistributedStorage/Storage/ContainerExtensions.cs:12 | a walked key whose lookup fails yields nothing, and no error |
| `Storage.CollectAllFound` | DistributedStorage/Storage/ContainerExtensions.cs:11-13 | when every walked key is found, the pairs follow the walk one for one |
| `Storage.GetValues` | DistributedStorage/Storage/ContainerExtensions.cs:16 | the value projection of the collected pairs in the same order; one value per entry; exactly the dictionary's values occur |
| `Storage.ValuesProjection` | DistributedStorage/Storage/ContainerExtensions.cs:16 | the projection keeps length and order and takes each pair's value |
| `Storage.ValuesOfListing` | DistributedStorage/Storage/ContainerExtensions.cs:16 | the values of a faithful listing of a dictionary are exactly the dictionary's values |
| `Networking.ProtocolMethod.InvokeAndWait` | DistributedStorage/Networking/RemoteBucket.cs:137 | one invocation logs exactly one call under the method's name with the encoded argument, and returns the decoded response |
| `Networking.InvocationRoundTrip` | DistributedStorage/Networking/RemoteBucket.cs:137-140 | with a decoder that inverts the far end's encoding, the caller gets back exactly the result the far end sent, after one call |
| `Networking.RouteNamesDistinct` | DistributedStorage/Networking/RemoteBucket.cs:123-130 | the eight route names are pairwise distinct |
| `Networking.RemoteBucket.constructor` | DistributedStorage/Networking/RemoteBucket.cs:111-131 | all eight members share the given protocol, are named after their own bucket member, carry the given converters in their roles (the identity members share one decoder, `MaxSize` and `GetCurrentSize` share the long decoder) and have the no-op hook |
| `Networking.RemoteBucket.MaxSize` | DistributedStorage/Networking/RemoteBucket.cs:86 | one call named `MaxSize` carrying the encoded `Nothing`; the decoded response is returned unchanged |
| `Networking.RemoteBucket.OwnerIdentity` | DistributedStorage/Networking/RemoteBucket.cs:87 | one call named `OwnerIdentity` carrying the encoded `Nothing`, decoded by the identity decoder |
| `Networking.RemoteBucket.PoolIdentity` | DistributedStorage/Networking/RemoteBucket.cs:88 | one call named `PoolIdentity` carrying the encoded `Nothing`, decoded by the identity decoder |
| `Networking.RemoteBucket.SelfIdentity` | DistributedStorage/Networking/RemoteBucket.cs:89 | one call named `SelfIdentity` carrying the encoded `Nothing`, decoded by the identity decoder |
| `Networking.RemoteBucket.GetCurrentSize` | DistributedStorage/Networking/RemoteBucket.cs:137 | one call named `GetCurrentSize` carrying the encoded `Nothing`, decoded by the long decoder |
| `Networking.RemoteBucket.GetHashes` | DistributedStorage/Networking/RemoteBucket.cs:138 | one call named `GetHashes` carrying the given manifest, encoded as is |
| `Networking.RemoteBucket.GetManifests` | DistributedStorage/Networking/RemoteBucket.cs:139 | one call named `GetManifests` carrying the encoded `Nothing` |
| `Networking.RemoteBucket.GetSlices` | DistributedStorage/Networking/RemoteBucket.cs:140 | one call named `GetSlices` carrying the pair (manifest, hashes) in that order, hashes unchanged |
| `Networking.ReadMaxSizeTwice` | DistributedStorage/Networking/RemoteBucket.cs:86 | two reads of `MaxSize` make two identical calls: nothing is cached |
| `Networking.Factory.constructor` | DistributedStorage/Networking/RemoteBucket.cs:41-60 | the factory stores the eight converters in their roles |
| `Networking.Factory.CreateFrom` | DistributedStorage/Networking/RemoteBucket.cs:69-79 | a new proxy on the given protocol, wired exactly with the stored converters |
| `Networking.CreateTwo` | DistributedStorage/Networking/RemoteBucket.cs:69-79 | two proxies from one factory have the same wiring and differ only in their protocol |
| `Encoding.Slice.constructor` | DistributedStorage/Encoding/Slice.cs:3-8 | a new slice has neither coefficients nor symbol |
| `Encoding.Slice.SetCoefficients` | DistributedStorage/Encoding/Slice.cs:5 | the coefficients become the value set; the symbol is unchanged |
| `Encoding.Slice.SetEncodingSymbol` | DistributedStorage/Encoding/Slice.cs:7 | the symbol becomes the value set; the coefficients are unchanged |
| `Encoding.SetThenGet` | DistributedStorage/Encoding/Slice.cs:5-7 | whichever property is set first, reading both back yields what was set |
| `Encoding.UnrelatedLengths` | DistributedStorage/Encoding/Slice.cs:3-8 | a slice may hold a coefficient count different from its symbol length |
| `AspNetModels.ToManifest` | AspNet/Models/ManifestExtensions.cs:8-13 | the id is the string form of the source id; the length is copied; the slice count is the number of slice hashes; the slice ids are the caller's, passed through |
| `AspNetModels.ToManifestForgetsHashes` | AspNet/Models/ManifestExtensions.cs:9-11 | only the id, the length and the number of slice hashes matter: manifests agreeing on those give the same web manifest |
| `AspNetModels.SliceIdsNotChecked` | AspNet/Models/ManifestExtensions.cs:11-12 | some input gives a web manifest whose slice count differs from its number of slice ids |

## Left out

- The real RSA signing and verification are not modelled; `CryptoRsa` stands for them. No security claim depends on RSA itself: the handshake result assumes `Sound`, and the replay result assumes `Binding`.
- Key serialisation (`WritePublicKey`, `TryReadRsaKey`), chunk framing (`WriteChunk`, `TryBlockingReadChunk`) and the byte formats are not part of this model. The stream moves whole records.
- Security.Stream.TryReadRsaKey and Security.Stream.TryBlockingReadChunk: a failed read consumes nothing and is reported as `false`. A record of the wrong kind counts as a failed read. Whether the real readers throw on a timeout is not modelled, and neither are the bytes they would consume.
- Security.Stream.TryReadRsaKey: after a failed key read, the key out-parameter holds an all-empty key.
- Security.RsaKeySwapper.SendChallengeResponse and Security.RsaKeySwapper.TryReceiveChallengeResponse: both require challenges of equal length. The XOR helper's behaviour on unequal lengths is not part of this model.
- Security.XorInto: requires the two arrays to be distinct. Both callers always pass a fresh clone.
- Security.AdaptiveReplayRejectedWhenBound and Security.BoundHonestHandshake: the corrected response stops replays of recorded proofs only, and only when all of B's challenges have one length. Joining two challenges end to end leaves no mark of where the first stops: with earlier challenges `[1]` of B and `[2, 3]` of A, a new challenge `[1, 2]` of B and an announced `[3]` give the same signed buffer. Signing the verifier's challenge length as well would lift this condition; it is not modelled. Neither it nor the response as written stops a live reflection (`ReflectionAccepted`) or a relay between two honest nodes, so neither shows that the peer owns the private key of the key it announced.
- Security.ReplayRejected: covers only a verbatim replay, in which the recorded challenge is sent unchanged. `Binding` is a deterministic idealisation of what is, for real signatures, a probabilistic promise. A peer that picks its challenge after reading ours is not stopped (see Findings).
- Wall-clock time is not modelled. The stopwatch reading is a parameter. The caller that picks the response timeout is not part of this model.
- Networking.ProtocolMethod.InvokeAndWait: the connection always answers. Invocation timeouts, serialisation failures and deserialisation failures are not modelled. Neither is the cross-thread correlation of requests and responses.
- The converters' byte formats are not modelled. Converters are arbitrary functions.
- The hook is modelled only as the no-op every member is given.
- The `TIdentity : IIdentity` constraint is not modelled. Identities are an arbitrary type.
- Security.RsaKeySwapper.SendChallenge, Security.RsaKeySwapper.SendChallengeResponse and Security.RsaKeySwapper.TryReceiveChallengeResponse: the challenge arrays are non-null. The null dereference a null challenge causes is not modelled, including a `theirChallenge` still null after a failed `TryReceiveChallenge`.
- Storage.Container.TryAdd, Storage.Container.TryGet and Storage.Container.TryRemove: keys are never null. The argument error a dictionary raises on a null key is not modelled.
- AspNetModels.ToManifest: the manifest and its slice-hash array are values, never null. The null dereference on a missing slice-hash array is not modelled.
- Storage.Container.GetKeys: returns the keys as a snapshot taken at the call. The source returns the wrapped dictionary's own key collection, so whether later changes show up depends on that dictionary: a `Dictionary` gives a live view, which also makes an enumeration throw after a change, and a `ConcurrentDictionary` gives a copy.
- Storage.GetKeysAndValues: returns a snapshot taken at the call. The source is a lazy `yield return` sequence: it walks the keys again on every enumeration and sees entries added or removed after the call.
- Storage.GetValues: returns a snapshot taken at the call. The source's `Select` is lazy and sees later changes to the dictionary the same way.
- Concurrency is not modelled. This covers atomic `TryAdd`/`TryRemove` across threads, keys vanishing during `GetKeysAndValues`, and concurrent calls on one connection. `CollectSkipsMissing` states the skipping over any key walk instead.
- The dictionary's enumeration order is left open. `GetKeysAndValues` is stated for whatever enumeration `GetKeys` produced.
- The storage manifest's `Id` type is not shown. The model uses `Hash`, and its string conversion is a parameter of `ToManifest`.
- The web manifest's slice ids are a value sequence. Sharing of the caller's array is not modelled.
- DistributedStorage/Common/TaskExtensions.cs is not modelled. It only waits on tasks and schedules continuations.
- Server/Models/Authentication/IdentityClaimFactory.cs is not modelled. It is a one-line wrapper over the framework's claim constructor.
- SecurityTests/RsaKeySwapperClass.cs: no property is taken from these tests. They call members and a constructor that the swapper does not have.

## Findings

| source | as written | input that shows it | evidently intended | confidence | as-written member | corrected member |
|---|---|---|---|---|---|---|
| Security/RsaKeySwapper.cs:54-55, 69-70 | both sides prove key ownership by signing the XOR of the two challenges, and nothing makes a peer commit to its challenge before it reads ours | a recording of A's earlier session (challenges `ea` of A, `eb` of B, proof `sign(eb XOR ea, keyA)`); the peer reads B's new challenge `cb` and announces `cb XOR eb XOR ea`, so B's mixed buffer is `eb XOR ea` and the recorded proof checks | a recorded proof from an earlier session is rejected, even when the peer picks its challenge after reading ours (proved for challenges of one length) | medium; not executed | `Security.AdaptiveReplayAccepted` | `Security.AdaptiveReplayRejectedWhenBound`, `Security.BoundHonestHandshake` |

The corrected response signs the two challenges one after the other, the verifier's first, instead of mixing them by XOR. The model of the source itself (`SendChallengeResponse`, `TryReceiveChallengeResponse`, `HonestHandshake`, `ReplayRejected`) keeps the XOR as written.
