/**
 * The node-to-node authentication step: each side announces its public key
 * and a challenge, then proves it owns the matching private key by signing
 * both challenges mixed together, and checks the peer's proof the same way.
 * RSA and the transport are collaborators; they appear here as a crypto
 * object carrying abstract sign/verify functions and as a stream of records.
 */
module Security {
  import opened Common

  /** RSA key parameters; a public-only key has an empty private exponent. */
  datatype RsaParameters = RsaParameters(modulus: Bytes, exponent: Bytes, privateExponent: Bytes)

  /** The public half of a key, which is what goes on the wire. */
  function PublicPart(key: RsaParameters): (pub: RsaParameters)
    ensures pub.modulus == key.modulus && pub.exponent == key.exponent && pub.privateExponent == []
  {
    RsaParameters(key.modulus, key.exponent, [])
  }

  /** The key value a failed key read leaves behind. */
  const NoKey := RsaParameters([], [], [])

  /** What the stream carries: a serialised public key or a length-prefixed chunk. */
  datatype Record = PublicKeyRecord(key: RsaParameters) | ChunkRecord(payload: Bytes)

  /** A blocking read the stream was asked for, with the time budget it was given. */
  datatype ReadAttempt = KeyRead(budget: int) | ChunkRead(budget: int)

  /** A key read with this budget succeeds: time is left and a key record is next. */
  predicate KeyArrives(incoming: seq<Record>, budget: int)
  {
    budget > 0 && |incoming| > 0 && incoming[0].PublicKeyRecord?
  }

  /** A chunk read with this budget succeeds: time is left and a chunk record is next. */
  predicate ChunkArrives(incoming: seq<Record>, budget: int)
  {
    budget > 0 && |incoming| > 0 && incoming[0].ChunkRecord?
  }

  /**
   * One end of a connection: what has arrived from the peer and not been
   * read yet, what this end has written, and the reads it was asked for.
   */
  class Stream {
    var incoming: seq<Record>
    var outgoing: seq<Record>
    var attempts: seq<ReadAttempt>

    constructor (incoming: seq<Record>)
      ensures this.incoming == incoming && outgoing == [] && attempts == []
    {
      this.incoming := incoming;
      outgoing := [];
      attempts := [];
    }

    /** Writes only the public half of the key. */
    method WritePublicKey(key: RsaParameters)
      modifies this
      ensures outgoing == old(outgoing) + [PublicKeyRecord(PublicPart(key))]
      ensures incoming == old(incoming) && attempts == old(attempts)
    {
      outgoing := outgoing + [PublicKeyRecord(PublicPart(key))];
    }

    method WriteChunk(payload: Bytes)
      modifies this
      ensures outgoing == old(outgoing) + [ChunkRecord(payload)]
      ensures incoming == old(incoming) && attempts == old(attempts)
    {
      outgoing := outgoing + [ChunkRecord(payload)];
    }

    /** Reads a public key, failing when the budget is spent or no key comes next. */
    method TryReadRsaKey(timeout: int) returns (ok: bool, key: RsaParameters)
      modifies this
      ensures attempts == old(attempts) + [KeyRead(timeout)] && outgoing == old(outgoing)
      ensures ok <==> KeyArrives(old(incoming), timeout)
      ensures ok ==> key == old(incoming)[0].key && incoming == old(incoming)[1..]
      ensures !ok ==> key == NoKey && incoming == old(incoming)
    {
      attempts := attempts + [KeyRead(timeout)];
      ok := KeyArrives(incoming, timeout);
      if ok {
        key := incoming[0].key;
        incoming := incoming[1..];
      } else {
        key := NoKey;
      }
    }

    /** Reads one chunk into a new buffer, or gives null when none can be read in time. */
    method TryBlockingReadChunk(timeout: int) returns (ok: bool, chunk: array?<Byte>)
      modifies this
      ensures attempts == old(attempts) + [ChunkRead(timeout)] && outgoing == old(outgoing)
      ensures ok <==> ChunkArrives(old(incoming), timeout)
      ensures ok ==> chunk != null && fresh(chunk) && chunk[..] == old(incoming)[0].payload && incoming == old(incoming)[1..]
      ensures !ok ==> chunk == null && incoming == old(incoming)
    {
      attempts := attempts + [ChunkRead(timeout)];
      ok := ChunkArrives(incoming, timeout);
      if ok {
        var payload := incoming[0].payload;
        chunk := new Byte[|payload|](i requires 0 <= i < |payload| => payload[i]);
        incoming := incoming[1..];
      } else {
        chunk := null;
      }
    }
  }

  /** The transport: everything one end wrote arrives, in order, at the other end. */
  method Deliver(from: Stream, to: Stream)
    requires from != to
    modifies from, to
    ensures to.incoming == old(to.incoming) + old(from.outgoing) && from.outgoing == []
    ensures to.outgoing == old(to.outgoing) && to.attempts == old(to.attempts)
    ensures from.incoming == old(from.incoming) && from.attempts == old(from.attempts)
  {
    to.incoming := to.incoming + from.outgoing;
    from.outgoing := [];
  }

  /** A request made of the RSA collaborator. */
  datatype CryptoCall =
    | SignCall(message: Bytes, key: RsaParameters)
    | VerifyCall(message: Bytes, signature: Bytes, key: RsaParameters)

  /** The RSA collaborator: abstract sign and verify, with a log of what it was asked. */
  class CryptoRsa {
    const sign: (Bytes, RsaParameters) -> Bytes
    const verify: (Bytes, Bytes, RsaParameters) -> bool
    var calls: seq<CryptoCall>

    constructor (sign: (Bytes, RsaParameters) -> Bytes, verify: (Bytes, Bytes, RsaParameters) -> bool)
      ensures this.sign == sign && this.verify == verify && calls == []
    {
      this.sign := sign;
      this.verify := verify;
      calls := [];
    }

    method Sign(message: Bytes, key: RsaParameters) returns (signature: Bytes)
      modifies this
      ensures signature == sign(message, key)
      ensures calls == old(calls) + [SignCall(message, key)]
    {
      signature := sign(message, key);
      calls := calls + [SignCall(message, key)];
    }

    method Verify(message: Bytes, signature: Bytes, key: RsaParameters) returns (valid: bool)
      modifies this
      ensures valid == verify(message, signature, key)
      ensures calls == old(calls) + [VerifyCall(message, signature, key)]
    {
      valid := verify(message, signature, key);
      calls := calls + [VerifyCall(message, signature, key)];
    }
  }

  /** What RSA promises: a signature made with a key verifies under its public half. */
  ghost predicate Sound(sign: (Bytes, RsaParameters) -> Bytes, verify: (Bytes, Bytes, RsaParameters) -> bool)
  {
    forall m, key :: verify(m, sign(m, key), PublicPart(key))
  }

  /**
   * The idealisation the replay argument needs: a signature verifies for no
   * message other than the one signed.
   */
  ghost predicate Binding(sign: (Bytes, RsaParameters) -> Bytes, verify: (Bytes, Bytes, RsaParameters) -> bool)
  {
    forall m, m', key :: verify(m', sign(m, key), PublicPart(key)) ==> m' == m
  }

  /** A copy of a buffer in a new array. */
  method Clone(source: array<Byte>) returns (copy: array<Byte>)
    ensures fresh(copy) && copy[..] == source[..]
  {
    copy := new Byte[source.Length](i requires 0 <= i < source.Length reads source => source[i]);
  }

  /** Exclusive-or of `other` into `target`, in place. */
  method XorInto(target: array<Byte>, other: array<Byte>)
    requires target.Length == other.Length && target != other
    modifies target
    ensures target[..] == Xor(old(target[..]), other[..])
  {
    var i := 0;
    while i < target.Length
      invariant 0 <= i <= target.Length
      invariant forall k :: 0 <= k < i ==> target[k] == old(target[k]) ^ other[k]
      invariant forall k :: i <= k < target.Length ==> target[k] == old(target[k])
    {
      target[i] := target[i] ^ other[i];
      i := i + 1;
    }
  }

  /** Swaps public keys between two parties together with proof of owning the private keys. */
  class RsaKeySwapper {
    const cryptoRsa: CryptoRsa

    constructor (cryptoRsa: CryptoRsa)
      ensures this.cryptoRsa == cryptoRsa
    {
      this.cryptoRsa := cryptoRsa;
    }

    /** Writes our public key, then our challenge as one chunk. */
    method SendChallenge(stream: Stream, ours: RsaParameters, ourChallenge: array<Byte>)
      modifies stream
      ensures stream.outgoing == old(stream.outgoing) + [PublicKeyRecord(PublicPart(ours)), ChunkRecord(ourChallenge[..])]
      ensures stream.incoming == old(stream.incoming) && stream.attempts == old(stream.attempts)
    {
      stream.WritePublicKey(ours);
      stream.WriteChunk(ourChallenge[..]);
    }

    /**
     * Reads their key with the whole budget and then their challenge with
     * what is left of it; `elapsed` is the time the key read took. When the
     * key read fails the chunk is never asked for.
     */
    method TryReceiveChallenge(stream: Stream, timeout: int, elapsed: nat)
      returns (ok: bool, theirs: RsaParameters, theirChallenge: array?<Byte>)
      modifies stream
      ensures stream.outgoing == old(stream.outgoing)
      ensures ok <==> KeyArrives(old(stream.incoming), timeout) && ChunkArrives(old(stream.incoming)[1..], timeout - elapsed)
      ensures !KeyArrives(old(stream.incoming), timeout) ==>
        && stream.attempts == old(stream.attempts) + [KeyRead(timeout)]
        && stream.incoming == old(stream.incoming)
        && theirChallenge == null
        && theirs == NoKey
      ensures KeyArrives(old(stream.incoming), timeout) && !ok ==> stream.incoming == old(stream.incoming)[1..]
      ensures KeyArrives(old(stream.incoming), timeout) ==>
        && stream.attempts == old(stream.attempts) + [KeyRead(timeout), ChunkRead(timeout - elapsed)]
        && theirs == old(stream.incoming)[0].key
      ensures ok ==>
        && theirChallenge != null && fresh(theirChallenge)
        && theirChallenge[..] == old(stream.incoming)[1].payload
        && stream.incoming == old(stream.incoming)[2..]
      ensures !ok ==> theirChallenge == null
      ensures forall i :: |old(stream.attempts)| <= i < |stream.attempts| ==> stream.attempts[i].budget <= timeout
    {
      theirChallenge := null;
      var keyRead;
      keyRead, theirs := stream.TryReadRsaKey(timeout);
      if !keyRead {
        return false, theirs, null;
      }
      ok, theirChallenge := stream.TryBlockingReadChunk(timeout - elapsed);
    }

    /**
     * Signs their challenge mixed with ours and writes the signature as one
     * chunk. The mixing happens in a copy, so neither challenge changes.
     */
    method SendChallengeResponse(stream: Stream, ours: RsaParameters, theirChallenge: array<Byte>, ourChallenge: array<Byte>)
      requires theirChallenge.Length == ourChallenge.Length
      modifies stream, cryptoRsa
      ensures stream.outgoing == old(stream.outgoing) + [ChunkRecord(cryptoRsa.sign(Xor(theirChallenge[..], ourChallenge[..]), ours))]
      ensures stream.incoming == old(stream.incoming) && stream.attempts == old(stream.attempts)
      ensures cryptoRsa.calls == old(cryptoRsa.calls) + [SignCall(Xor(theirChallenge[..], ourChallenge[..]), ours)]
      ensures theirChallenge[..] == old(theirChallenge[..]) && ourChallenge[..] == old(ourChallenge[..])
    {
      var mixed := Clone(theirChallenge);
      XorInto(mixed, ourChallenge);
      var proof := cryptoRsa.Sign(mixed[..], ours);
      stream.WriteChunk(proof);
    }

    /**
     * Reads their proof and checks it against our challenge mixed with theirs
     * under their public key. Without a proof chunk it answers false and does
     * not consult the verifier.
     */
    method TryReceiveChallengeResponse(stream: Stream, ourChallenge: array<Byte>, theirChallenge: array<Byte>, theirs: RsaParameters, timeout: int)
      returns (ok: bool)
      requires ourChallenge.Length == theirChallenge.Length
      modifies stream, cryptoRsa
      ensures stream.attempts == old(stream.attempts) + [ChunkRead(timeout)] && stream.outgoing == old(stream.outgoing)
      ensures !ChunkArrives(old(stream.incoming), timeout) ==>
        !ok && cryptoRsa.calls == old(cryptoRsa.calls) && stream.incoming == old(stream.incoming)
      ensures ChunkArrives(old(stream.incoming), timeout) ==>
        var mixed := Xor(ourChallenge[..], theirChallenge[..]);
        var proof := old(stream.incoming)[0].payload;
        && ok == cryptoRsa.verify(mixed, proof, theirs)
        && cryptoRsa.calls == old(cryptoRsa.calls) + [VerifyCall(mixed, proof, theirs)]
        && stream.incoming == old(stream.incoming)[1..]
      ensures theirChallenge[..] == old(theirChallenge[..]) && ourChallenge[..] == old(ourChallenge[..])
    {
      var read, theirProof := stream.TryBlockingReadChunk(timeout);
      if !read {
        return false;
      }
      var mixed := Clone(ourChallenge);
      XorInto(mixed, theirChallenge);
      ok := cryptoRsa.Verify(mixed[..], theirProof[..], theirs);
    }

    /**
     * The corrected response: signs their challenge followed by ours, so the
     * verifier's own challenge sits at the front of the signed message.
     */
    method SendBoundChallengeResponse(stream: Stream, ours: RsaParameters, theirChallenge: array<Byte>, ourChallenge: array<Byte>)
      modifies stream, cryptoRsa
      ensures stream.outgoing == old(stream.outgoing) + [ChunkRecord(cryptoRsa.sign(theirChallenge[..] + ourChallenge[..], ours))]
      ensures stream.incoming == old(stream.incoming) && stream.attempts == old(stream.attempts)
      ensures cryptoRsa.calls == old(cryptoRsa.calls) + [SignCall(theirChallenge[..] + ourChallenge[..], ours)]
    {
      var proof := cryptoRsa.Sign(theirChallenge[..] + ourChallenge[..], ours);
      stream.WriteChunk(proof);
    }

    /** The corrected check: their proof must sign our challenge followed by theirs. */
    method TryReceiveBoundChallengeResponse(stream: Stream, ourChallenge: array<Byte>, theirChallenge: array<Byte>, theirs: RsaParameters, timeout: int)
      returns (ok: bool)
      modifies stream, cryptoRsa
      ensures stream.attempts == old(stream.attempts) + [ChunkRead(timeout)] && stream.outgoing == old(stream.outgoing)
      ensures !ChunkArrives(old(stream.incoming), timeout) ==>
        !ok && cryptoRsa.calls == old(cryptoRsa.calls) && stream.incoming == old(stream.incoming)
      ensures ChunkArrives(old(stream.incoming), timeout) ==>
        var bound := ourChallenge[..] + theirChallenge[..];
        var proof := old(stream.incoming)[0].payload;
        && ok == cryptoRsa.verify(bound, proof, theirs)
        && cryptoRsa.calls == old(cryptoRsa.calls) + [VerifyCall(bound, proof, theirs)]
        && stream.incoming == old(stream.incoming)[1..]
    {
      var read, theirProof := stream.TryBlockingReadChunk(timeout);
      if !read {
        return false;
      }
      ok := cryptoRsa.Verify(ourChallenge[..] + theirChallenge[..], theirProof[..], theirs);
    }
  }

  /**
   * The first half of an honest exchange over a duplex connection: both
   * sides send their key and challenge and receive the other's.
   */
  method ExchangeChallenges(
    a: RsaKeySwapper, b: RsaKeySwapper, keyA: RsaParameters, keyB: RsaParameters,
    challengeA: array<Byte>, challengeB: array<Byte>, timeout: int, elapsedA: nat, elapsedB: nat)
    returns (endA: Stream, endB: Stream, theirsAtA: RsaParameters, theirsAtB: RsaParameters,
             theirChallengeAtA: array<Byte>, theirChallengeAtB: array<Byte>)
    requires elapsedA < timeout && elapsedB < timeout
    ensures fresh(endA) && fresh(endB) && endA != endB && fresh(theirChallengeAtA) && fresh(theirChallengeAtB)
    ensures endA.incoming == [] && endA.outgoing == [] && endB.incoming == [] && endB.outgoing == []
    ensures theirsAtA == PublicPart(keyB) && theirsAtB == PublicPart(keyA)
    ensures theirChallengeAtA[..] == challengeB[..] && theirChallengeAtB[..] == challengeA[..]
  {
    endA := new Stream([]);
    endB := new Stream([]);
    a.SendChallenge(endA, keyA, challengeA);
    b.SendChallenge(endB, keyB, challengeB);
    Deliver(endA, endB);
    Deliver(endB, endA);
    var gotA, gotB;
    gotA, theirsAtA, theirChallengeAtA := a.TryReceiveChallenge(endA, timeout, elapsedA);
    gotB, theirsAtB, theirChallengeAtB := b.TryReceiveChallenge(endB, timeout, elapsedB);
    assert gotA && gotB;
  }

  /**
   * An honest exchange: both sides exchange challenges, answer, and check
   * the answer. With sound signatures and enough time, both accept, each
   * holding the other's public key, and neither challenge buffer changes.
   */
  method HonestHandshake(
    sign: (Bytes, RsaParameters) -> Bytes, verify: (Bytes, Bytes, RsaParameters) -> bool,
    keyA: RsaParameters, keyB: RsaParameters, challengeA: array<Byte>, challengeB: array<Byte>,
    timeout: int, elapsedA: nat, elapsedB: nat, responseTimeout: int)
    returns (acceptedByA: bool, acceptedByB: bool, keyAtA: RsaParameters, keyAtB: RsaParameters)
    requires Sound(sign, verify)
    requires challengeA.Length == challengeB.Length
    requires elapsedA < timeout && elapsedB < timeout && 0 < responseTimeout
    ensures acceptedByA && acceptedByB
    ensures keyAtA == PublicPart(keyB) && keyAtB == PublicPart(keyA)
  {
    ghost var ca, cb := challengeA[..], challengeB[..];
    var cryptoA := new CryptoRsa(sign, verify);
    var cryptoB := new CryptoRsa(sign, verify);
    var a := new RsaKeySwapper(cryptoA);
    var b := new RsaKeySwapper(cryptoB);

    var endA, endB, theirChallengeAtA, theirChallengeAtB;
    endA, endB, keyAtA, keyAtB, theirChallengeAtA, theirChallengeAtB :=
      ExchangeChallenges(a, b, keyA, keyB, challengeA, challengeB, timeout, elapsedA, elapsedB);

    // A signs cb XOR ca, which is exactly what B checks, and the other way round.
    a.SendChallengeResponse(endA, keyA, theirChallengeAtA, challengeA);
    b.SendChallengeResponse(endB, keyB, theirChallengeAtB, challengeB);
    Deliver(endA, endB);
    Deliver(endB, endA);
    assert endA.incoming == [ChunkRecord(sign(Xor(ca, cb), keyB))];
    assert endB.incoming == [ChunkRecord(sign(Xor(cb, ca), keyA))];

    acceptedByA := a.TryReceiveChallengeResponse(endA, challengeA, theirChallengeAtA, keyAtA, responseTimeout);
    acceptedByB := b.TryReceiveChallengeResponse(endB, challengeB, theirChallengeAtB, keyAtB, responseTimeout);
  }

  /**
   * Replay: B runs a fresh session against a recording of A's side of an
   * earlier session in which B's challenge was different. With binding
   * signatures, B rejects the replayed proof.
   */
  method ReplayRejected(
    sign: (Bytes, RsaParameters) -> Bytes, verify: (Bytes, Bytes, RsaParameters) -> bool,
    keyA: RsaParameters, recordedChallengeA: Bytes, earlierChallengeB: Bytes,
    keyB: RsaParameters, challengeB: array<Byte>,
    timeout: int, elapsed: nat, responseTimeout: int)
    returns (accepted: bool)
    requires Binding(sign, verify)
    requires |recordedChallengeA| == |earlierChallengeB| == challengeB.Length
    requires earlierChallengeB != challengeB[..]
    ensures !accepted
  {
    var recordedProof := sign(Xor(earlierChallengeB, recordedChallengeA), keyA);
    var endB := new Stream([PublicKeyRecord(PublicPart(keyA)), ChunkRecord(recordedChallengeA), ChunkRecord(recordedProof)]);
    var cryptoB := new CryptoRsa(sign, verify);
    var b := new RsaKeySwapper(cryptoB);

    b.SendChallenge(endB, keyB, challengeB);
    var got, theirs, theirChallenge := b.TryReceiveChallenge(endB, timeout, elapsed);
    if !got {
      return false;
    }
    b.SendChallengeResponse(endB, keyB, theirChallenge, challengeB);
    accepted := b.TryReceiveChallengeResponse(endB, challengeB, theirChallenge, theirs, responseTimeout);
    if accepted {
      XorInjective(challengeB[..], earlierChallengeB, recordedChallengeA);
    }
  }

  /**
   * A peer replaying a recorded proof: it reads the victim's key and
   * challenge first, then announces a key, a challenge chosen after seeing
   * the victim's, and the recorded proof.
   */
  method ReplayAfterReading(victim: Stream, announced: RsaParameters, choose: Bytes -> Bytes, recordedProof: Bytes)
    returns (seen: Bytes)
    requires |victim.outgoing| == 2 && victim.outgoing[0].PublicKeyRecord? && victim.outgoing[1].ChunkRecord?
    modifies victim
    ensures seen == old(victim.outgoing)[1].payload
    ensures victim.incoming == old(victim.incoming) + [PublicKeyRecord(PublicPart(announced)), ChunkRecord(choose(seen)), ChunkRecord(recordedProof)]
    ensures victim.outgoing == [] && victim.attempts == old(victim.attempts)
  {
    var peer := new Stream([]);
    Deliver(victim, peer);
    var keySeen, victimKey := peer.TryReadRsaKey(1);
    assert keySeen;
    var challengeSeen, victimChallenge := peer.TryBlockingReadChunk(1);
    assert challengeSeen;
    seen := victimChallenge[..];
    peer.WritePublicKey(announced);
    peer.WriteChunk(choose(seen));
    peer.WriteChunk(recordedProof);
    Deliver(peer, victim);
  }

  /** The challenge that unmasks B's current challenge into an earlier session's mixed buffer. */
  function Unmasking(earlierChallengeB: Bytes, recordedChallengeA: Bytes): (choose: Bytes -> Bytes)
    requires |earlierChallengeB| == |recordedChallengeA|
  {
    current => if |current| == |earlierChallengeB| then Xor(Xor(current, earlierChallengeB), recordedChallengeA) else current
  }

  /**
   * The replay that mixing by exclusive or lets through: a peer holding A's
   * proof from an earlier session first reads B's new challenge, then
   * announces as its own challenge the one that makes B's mixed buffer equal
   * to the earlier session's. B accepts the recorded proof and takes the peer
   * for A, although the peer never used A's private key.
   */
  method AdaptiveReplayAccepted(
    sign: (Bytes, RsaParameters) -> Bytes, verify: (Bytes, Bytes, RsaParameters) -> bool,
    keyA: RsaParameters, recordedChallengeA: Bytes, earlierChallengeB: Bytes, recordedProof: Bytes,
    keyB: RsaParameters, challengeB: array<Byte>,
    timeout: int, elapsed: nat, responseTimeout: int)
    returns (accepted: bool, theirs: RsaParameters)
    requires Sound(sign, verify)
    requires |recordedChallengeA| == |earlierChallengeB| == challengeB.Length
    requires recordedProof == sign(Xor(earlierChallengeB, recordedChallengeA), keyA)
    requires elapsed < timeout && 0 < responseTimeout
    ensures accepted && theirs == PublicPart(keyA)
  {
    var endB := new Stream([]);
    var cryptoB := new CryptoRsa(sign, verify);
    var b := new RsaKeySwapper(cryptoB);
    b.SendChallenge(endB, keyB, challengeB);
    var _ := ReplayAfterReading(endB, PublicPart(keyA), Unmasking(earlierChallengeB, recordedChallengeA), recordedProof);

    var got, theirChallenge;
    got, theirs, theirChallenge := b.TryReceiveChallenge(endB, timeout, elapsed);
    assert got;
    b.SendChallengeResponse(endB, keyB, theirChallenge, challengeB);
    XorUnmasks(challengeB[..], earlierChallengeB, recordedChallengeA);
    accepted := b.TryReceiveChallengeResponse(endB, challengeB, theirChallenge, theirs, responseTimeout);
  }

  /**
   * A peer with no key of its own: it reads the victim's key and challenge,
   * sends the victim's own public key back together with a challenge of its
   * choosing.
   */
  method EchoKey(victim: Stream, challenge: Bytes) returns (echoed: RsaParameters)
    requires |victim.outgoing| == 2 && victim.outgoing[0].PublicKeyRecord? && victim.outgoing[1].ChunkRecord?
    modifies victim
    ensures echoed == old(victim.outgoing)[0].key
    ensures victim.incoming == old(victim.incoming) + [PublicKeyRecord(PublicPart(echoed)), ChunkRecord(challenge)]
    ensures victim.outgoing == [] && victim.attempts == old(victim.attempts)
  {
    var peer := new Stream([]);
    Deliver(victim, peer);
    var keySeen, victimKey := peer.TryReadRsaKey(1);
    assert keySeen;
    var challengeSeen, victimChallenge := peer.TryBlockingReadChunk(1);
    assert challengeSeen;
    echoed := victimKey;
    peer.WritePublicKey(echoed);
    peer.WriteChunk(challenge);
    Deliver(peer, victim);
  }

  /** The peer sends the victim's proof chunk straight back. */
  method EchoChunk(victim: Stream)
    requires |victim.outgoing| == 1 && victim.outgoing[0].ChunkRecord?
    modifies victim
    ensures victim.incoming == old(victim.incoming) + old(victim.outgoing)
    ensures victim.outgoing == [] && victim.attempts == old(victim.attempts)
  {
    var peer := new Stream([]);
    Deliver(victim, peer);
    var proofSeen, proof := peer.TryBlockingReadChunk(1);
    assert proofSeen;
    peer.WriteChunk(proof[..]);
    Deliver(peer, victim);
  }

  /**
   * Reflection: a peer without any private key echoes A's public key, sends
   * any challenge of the right length, and echoes A's proof back. A signs
   * their challenge XOR ours and checks ours XOR theirs, which are the same
   * buffer, so with sound signatures A accepts its own proof and takes the
   * peer for the owner of A's key.
   */
  method ReflectionAccepted(
    sign: (Bytes, RsaParameters) -> Bytes, verify: (Bytes, Bytes, RsaParameters) -> bool,
    keyA: RsaParameters, challengeA: array<Byte>, peerChallenge: Bytes,
    timeout: int, elapsed: nat, responseTimeout: int)
    returns (accepted: bool, theirs: RsaParameters)
    requires Sound(sign, verify)
    requires |peerChallenge| == challengeA.Length
    requires elapsed < timeout && 0 < responseTimeout
    ensures accepted && theirs == PublicPart(keyA)
  {
    var endA := new Stream([]);
    var cryptoA := new CryptoRsa(sign, verify);
    var a := new RsaKeySwapper(cryptoA);
    a.SendChallenge(endA, keyA, challengeA);
    var echoed := EchoKey(endA, peerChallenge);
    assert echoed == PublicPart(keyA);

    var got, theirChallenge;
    got, theirs, theirChallenge := a.TryReceiveChallenge(endA, timeout, elapsed);
    assert got;
    a.SendChallengeResponse(endA, keyA, theirChallenge, challengeA);
    EchoChunk(endA);
    XorCommutes(peerChallenge, challengeA[..]);
    accepted := a.TryReceiveChallengeResponse(endA, challengeA, theirChallenge, theirs, responseTimeout);
  }

  /**
   * The same attack against the corrected response: whatever challenge the
   * peer announces after seeing B's, the recorded proof signs B's earlier
   * challenge at the front, so with binding signatures B rejects it.
   */
  method AdaptiveReplayRejectedWhenBound(
    sign: (Bytes, RsaParameters) -> Bytes, verify: (Bytes, Bytes, RsaParameters) -> bool,
    keyA: RsaParameters, recordedChallengeA: Bytes, earlierChallengeB: Bytes, recordedProof: Bytes,
    keyB: RsaParameters, challengeB: array<Byte>, choose: Bytes -> Bytes,
    timeout: int, elapsed: nat, responseTimeout: int)
    returns (accepted: bool)
    requires Binding(sign, verify)
    requires |earlierChallengeB| == challengeB.Length && earlierChallengeB != challengeB[..]
    requires recordedProof == sign(earlierChallengeB + recordedChallengeA, keyA)
    ensures !accepted
  {
    var endB := new Stream([]);
    var cryptoB := new CryptoRsa(sign, verify);
    var b := new RsaKeySwapper(cryptoB);
    b.SendChallenge(endB, keyB, challengeB);
    var _ := ReplayAfterReading(endB, PublicPart(keyA), choose, recordedProof);

    var got, theirs, theirChallenge := b.TryReceiveChallenge(endB, timeout, elapsed);
    if !got {
      return false;
    }
    b.SendBoundChallengeResponse(endB, keyB, theirChallenge, challengeB);
    accepted := b.TryReceiveBoundChallengeResponse(endB, challengeB, theirChallenge, theirs, responseTimeout);
    if accepted {
      BoundPrefix(challengeB[..], theirChallenge[..], earlierChallengeB, recordedChallengeA);
    }
  }

  /** Two bound buffers with fronts of one length agree only when the fronts agree. */
  lemma BoundPrefix(front: Bytes, back: Bytes, front': Bytes, back': Bytes)
    requires |front| == |front'| && front + back == front' + back'
    ensures front == front'
  {
    assert (front + back)[..|front|] == front;
    assert (front' + back')[..|front'|] == front';
  }

  /** The response phase of an exchange with the corrected response. */
  method ExchangeBoundResponses(
    a: RsaKeySwapper, b: RsaKeySwapper, endA: Stream, endB: Stream, keyA: RsaParameters, keyB: RsaParameters,
    challengeA: array<Byte>, challengeB: array<Byte>, theirChallengeAtA: array<Byte>, theirChallengeAtB: array<Byte>,
    keyAtA: RsaParameters, keyAtB: RsaParameters, responseTimeout: int)
    returns (acceptedByA: bool, acceptedByB: bool)
    requires Sound(a.cryptoRsa.sign, a.cryptoRsa.verify)
    requires a.cryptoRsa.sign == b.cryptoRsa.sign && a.cryptoRsa.verify == b.cryptoRsa.verify
    requires endA != endB && a.cryptoRsa != b.cryptoRsa
    requires endA.incoming == [] && endA.outgoing == [] && endB.incoming == [] && endB.outgoing == []
    requires keyAtA == PublicPart(keyB) && keyAtB == PublicPart(keyA)
    requires theirChallengeAtA[..] == challengeB[..] && theirChallengeAtB[..] == challengeA[..]
    requires 0 < responseTimeout
    modifies endA, endB, a.cryptoRsa, b.cryptoRsa
    ensures acceptedByA && acceptedByB
  {
    // A signs cb followed by ca, which is exactly what B checks, and the other way round.
    a.SendBoundChallengeResponse(endA, keyA, theirChallengeAtA, challengeA);
    b.SendBoundChallengeResponse(endB, keyB, theirChallengeAtB, challengeB);
    Deliver(endA, endB);
    Deliver(endB, endA);
    acceptedByA := a.TryReceiveBoundChallengeResponse(endA, challengeA, theirChallengeAtA, keyAtA, responseTimeout);
    acceptedByB := b.TryReceiveBoundChallengeResponse(endB, challengeB, theirChallengeAtB, keyAtB, responseTimeout);
  }

  /**
   * The corrected response keeps the honest exchange working: with sound
   * signatures and enough time both sides accept, whatever the lengths of
   * the two challenges.
   */
  method BoundHonestHandshake(
    sign: (Bytes, RsaParameters) -> Bytes, verify: (Bytes, Bytes, RsaParameters) -> bool,
    keyA: RsaParameters, keyB: RsaParameters, challengeA: array<Byte>, challengeB: array<Byte>,
    timeout: int, elapsedA: nat, elapsedB: nat, responseTimeout: int)
    returns (acceptedByA: bool, acceptedByB: bool, keyAtA: RsaParameters, keyAtB: RsaParameters)
    requires Sound(sign, verify)
    requires elapsedA < timeout && elapsedB < timeout && 0 < responseTimeout
    ensures acceptedByA && acceptedByB
    ensures keyAtA == PublicPart(keyB) && keyAtB == PublicPart(keyA)
  {
    var cryptoA := new CryptoRsa(sign, verify);
    var a := new RsaKeySwapper(cryptoA);
    var cryptoB := new CryptoRsa(sign, verify);
    var b := new RsaKeySwapper(cryptoB);
    var endA, endB, theirChallengeAtA, theirChallengeAtB;
    endA, endB, keyAtA, keyAtB, theirChallengeAtA, theirChallengeAtB :=
      ExchangeChallenges(a, b, keyA, keyB, challengeA, challengeB, timeout, elapsedA, elapsedB);
    acceptedByA, acceptedByB := ExchangeBoundResponses(
      a, b, endA, endB, keyA, keyB, challengeA, challengeB, theirChallengeAtA, theirChallengeAtB,
      keyAtA, keyAtB, responseTimeout);
  }

  /** A toy signature scheme: the signature is the modulus followed by the message. */
  function ToySign(m: Bytes, key: RsaParameters): (signature: Bytes)
  {
    key.modulus + m
  }

  function ToyVerify(m: Bytes, signature: Bytes, pub: RsaParameters): (valid: bool)
  {
    signature == pub.modulus + m
  }

  /** The two hypotheses on signatures can hold together. */
  lemma ToyCryptoIsSoundAndBinding()
    ensures Sound(ToySign, ToyVerify) && Binding(ToySign, ToyVerify)
  {
    forall m: Bytes, m': Bytes, key: RsaParameters | ToyVerify(m', ToySign(m, key), PublicPart(key))
      ensures m' == m
    {
      var prefix := key.modulus;
      assert (prefix + m)[|prefix|..] == m;
      assert (prefix + m')[|prefix|..] == m';
    }
  }
}
