/**
 * The networked bucket proxy: every bucket member becomes one named call on a
 * shared protocol connection, with its own pair of converters.
 */
module Networking {
  import opened Common
  import opened Encoding

  /** The unit argument of the zero-argument bucket members. */
  datatype Nothing = Nothing

  /** One request sent over the protocol: the remote method's name and the encoded argument. */
  datatype Call = Call(name: string, payload: Bytes)

  /**
   * A connected protocol. `remote` stands for the far end: the bytes it
   * answers to the n-th call made on this connection. `calls` logs every
   * request in order.
   */
  class Protocol {
    const remote: (nat, Call) -> Bytes
    var calls: seq<Call>

    constructor (remote: (nat, Call) -> Bytes)
      ensures this.remote == remote && calls == []
    {
      this.remote := remote;
      calls := [];
    }

    /** Sends one named call and waits for its response. */
    method SendAndWait(call: Call) returns (response: Bytes)
      modifies this
      ensures calls == old(calls) + [call]
      ensures response == remote(|old(calls)|, call)
    {
      response := remote(|calls|, call);
      calls := calls + [call];
    }
  }

  /** The pre-invocation hook; every bucket member is wired with the empty action. */
  datatype Hook = NoOp

  /** One named remote operation with its argument encoder and result decoder. */
  class ProtocolMethod<TArg, TResult> {
    const protocol: Protocol
    const name: string
    const argumentToBytes: TArg -> Bytes
    const bytesToResult: Bytes -> TResult
    const beforeInvoke: Hook

    constructor Create(protocol: Protocol, name: string, argumentToBytes: TArg -> Bytes, bytesToResult: Bytes -> TResult, beforeInvoke: Hook)
      ensures this.protocol == protocol && this.name == name
      ensures this.argumentToBytes == argumentToBytes && this.bytesToResult == bytesToResult
      ensures this.beforeInvoke == beforeInvoke
    {
      this.protocol := protocol;
      this.name := name;
      this.argumentToBytes := argumentToBytes;
      this.bytesToResult := bytesToResult;
      this.beforeInvoke := beforeInvoke;
    }

    /** Runs the hook, encodes the argument, makes exactly one call and decodes its response. */
    method InvokeAndWait(argument: TArg) returns (result: TResult)
      modifies protocol
      ensures protocol.calls == old(protocol.calls) + [Call(name, argumentToBytes(argument))]
      ensures result == bytesToResult(protocol.remote(|old(protocol.calls)|, Call(name, argumentToBytes(argument))))
    {
      match beforeInvoke {
        case NoOp =>
      }
      var response := protocol.SendAndWait(Call(name, argumentToBytes(argument)));
      result := bytesToResult(response);
    }
  }

  /**
   * Invocation round trip: against a far end that answers every call with
   * the encoding of `expected`, a decoder that inverts that encoding hands
   * `expected` back to the caller, after exactly one call.
   */
  method InvocationRoundTrip<TArg, TResult>(
    name: string, argument: TArg, argumentToBytes: TArg -> Bytes,
    expected: TResult, resultToBytes: TResult -> Bytes, bytesToResult: Bytes -> TResult)
    returns (result: TResult, sent: seq<Call>)
    requires bytesToResult(resultToBytes(expected)) == expected
    ensures result == expected
    ensures sent == [Call(name, argumentToBytes(argument))]
  {
    var protocol := new Protocol((_, _) => resultToBytes(expected));
    var m := new ProtocolMethod.Create(protocol, name, argumentToBytes, bytesToResult, NoOp);
    result := m.InvokeAndWait(argument);
    sent := protocol.calls;
  }

  /** The members of the bucket contract, each of which the proxy routes to the remote side. */
  datatype Member =
    | GetCurrentSize | GetHashes | GetManifests | GetSlices
    | MaxSize | OwnerIdentity | PoolIdentity | SelfIdentity

  /** The remote method name of each member: the member's own name. */
  function RouteName(m: Member): (name: string)
  {
    match m
    case GetCurrentSize => "GetCurrentSize"
    case GetHashes => "GetHashes"
    case GetManifests => "GetManifests"
    case GetSlices => "GetSlices"
    case MaxSize => "MaxSize"
    case OwnerIdentity => "OwnerIdentity"
    case PoolIdentity => "PoolIdentity"
    case SelfIdentity => "SelfIdentity"
  }

  /** No two members share a route. */
  lemma RouteNamesDistinct(a: Member, b: Member)
    ensures RouteName(a) == RouteName(b) <==> a == b
  {
  }

  /** The eight converters a bucket proxy is built from, by role. */
  datatype Converters<TIdentity> = Converters(
    nothingToBytes: Nothing -> Bytes,
    bytesToLong: Bytes -> Int64,
    manifestToBytes: Manifest -> Bytes,
    bytesToHashArray: Bytes -> seq<Hash>,
    bytesToManifestArray: Bytes -> seq<Manifest>,
    manifestAndHashArrayToBytes: ((Manifest, seq<Hash>)) -> Bytes,
    bytesToSliceArray: Bytes -> seq<Slice>,
    bytesToIdentity: Bytes -> TIdentity)

  /** The request a member sends when called with the given argument bytes. */
  function Request(m: Member, payload: Bytes): (call: Call)
  {
    Call(RouteName(m), payload)
  }

  /** The remote side of a networked bucket. */
  class RemoteBucket<TIdentity> {
    const getCurrentSizeMethod: ProtocolMethod<Nothing, Int64>
    const getHashesMethod: ProtocolMethod<Manifest, seq<Hash>>
    const getManifestsMethod: ProtocolMethod<Nothing, seq<Manifest>>
    const getSlicesMethod: ProtocolMethod<(Manifest, seq<Hash>), seq<Slice>>
    const getMaxSizePropertyMethod: ProtocolMethod<Nothing, Int64>
    const getOwnerIdentityPropertyMethod: ProtocolMethod<Nothing, TIdentity>
    const getPoolIdentityPropertyMethod: ProtocolMethod<Nothing, TIdentity>
    const getSelfIdentityPropertyMethod: ProtocolMethod<Nothing, TIdentity>

    /** The connection every member calls through. */
    function Connection(): (protocol: Protocol)
    {
      getCurrentSizeMethod.protocol
    }

    /** The converters, read back from the members that hold them. */
    function Wiring(): (wiring: Converters<TIdentity>)
    {
      Converters(
        getCurrentSizeMethod.argumentToBytes,
        getCurrentSizeMethod.bytesToResult,
        getHashesMethod.argumentToBytes,
        getHashesMethod.bytesToResult,
        getManifestsMethod.bytesToResult,
        getSlicesMethod.argumentToBytes,
        getSlicesMethod.bytesToResult,
        getOwnerIdentityPropertyMethod.bytesToResult)
    }

    /**
     * The wiring the constructor sets up: one connection, each member named
     * after itself, converters in their roles, and the empty hook everywhere.
     */
    ghost predicate Valid()
    {
      var p := Connection();
      var w := Wiring();
      && getHashesMethod.protocol == p && getManifestsMethod.protocol == p
      && getSlicesMethod.protocol == p && getMaxSizePropertyMethod.protocol == p
      && getOwnerIdentityPropertyMethod.protocol == p && getPoolIdentityPropertyMethod.protocol == p
      && getSelfIdentityPropertyMethod.protocol == p
      && getCurrentSizeMethod.name == RouteName(Member.GetCurrentSize)
      && getHashesMethod.name == RouteName(Member.GetHashes)
      && getManifestsMethod.name == RouteName(Member.GetManifests)
      && getSlicesMethod.name == RouteName(Member.GetSlices)
      && getMaxSizePropertyMethod.name == RouteName(Member.MaxSize)
      && getOwnerIdentityPropertyMethod.name == RouteName(Member.OwnerIdentity)
      && getPoolIdentityPropertyMethod.name == RouteName(Member.PoolIdentity)
      && getSelfIdentityPropertyMethod.name == RouteName(Member.SelfIdentity)
      && getManifestsMethod.argumentToBytes == w.nothingToBytes
      && getMaxSizePropertyMethod.argumentToBytes == w.nothingToBytes
      && getMaxSizePropertyMethod.bytesToResult == w.bytesToLong
      && getOwnerIdentityPropertyMethod.argumentToBytes == w.nothingToBytes
      && getPoolIdentityPropertyMethod.argumentToBytes == w.nothingToBytes
      && getPoolIdentityPropertyMethod.bytesToResult == w.bytesToIdentity
      && getSelfIdentityPropertyMethod.argumentToBytes == w.nothingToBytes
      && getSelfIdentityPropertyMethod.bytesToResult == w.bytesToIdentity
      && getCurrentSizeMethod.beforeInvoke == NoOp && getHashesMethod.beforeInvoke == NoOp
      && getManifestsMethod.beforeInvoke == NoOp && getSlicesMethod.beforeInvoke == NoOp
      && getMaxSizePropertyMethod.beforeInvoke == NoOp && getOwnerIdentityPropertyMethod.beforeInvoke == NoOp
      && getPoolIdentityPropertyMethod.beforeInvoke == NoOp && getSelfIdentityPropertyMethod.beforeInvoke == NoOp
    }

    constructor (
      protocol: Protocol,
      nothingToBytesConverter: Nothing -> Bytes,
      bytesToLongConverter: Bytes -> Int64,
      manifestToBytesConverter: Manifest -> Bytes,
      bytesToHashArrayConverter: Bytes -> seq<Hash>,
      bytesToManifestArrayConverter: Bytes -> seq<Manifest>,
      manifestAndHashArrayTupleToBytesConverter: ((Manifest, seq<Hash>)) -> Bytes,
      bytesToSliceArrayConverter: Bytes -> seq<Slice>,
      bytesToTIdentityConverter: Bytes -> TIdentity)
      ensures Valid() && Connection() == protocol
      ensures Wiring() == Converters(
        nothingToBytesConverter, bytesToLongConverter, manifestToBytesConverter, bytesToHashArrayConverter,
        bytesToManifestArrayConverter, manifestAndHashArrayTupleToBytesConverter, bytesToSliceArrayConverter,
        bytesToTIdentityConverter)
    {
      getCurrentSizeMethod := new ProtocolMethod.Create(protocol, RouteName(Member.GetCurrentSize), nothingToBytesConverter, bytesToLongConverter, NoOp);
      getHashesMethod := new ProtocolMethod.Create(protocol, RouteName(Member.GetHashes), manifestToBytesConverter, bytesToHashArrayConverter, NoOp);
      getManifestsMethod := new ProtocolMethod.Create(protocol, RouteName(Member.GetManifests), nothingToBytesConverter, bytesToManifestArrayConverter, NoOp);
      getMaxSizePropertyMethod := new ProtocolMethod.Create(protocol, RouteName(Member.MaxSize), nothingToBytesConverter, bytesToLongConverter, NoOp);
      getOwnerIdentityPropertyMethod := new ProtocolMethod.Create(protocol, RouteName(Member.OwnerIdentity), nothingToBytesConverter, bytesToTIdentityConverter, NoOp);
      getPoolIdentityPropertyMethod := new ProtocolMethod.Create(protocol, RouteName(Member.PoolIdentity), nothingToBytesConverter, bytesToTIdentityConverter, NoOp);
      getSlicesMethod := new ProtocolMethod.Create(protocol, RouteName(Member.GetSlices), manifestAndHashArrayTupleToBytesConverter, bytesToSliceArrayConverter, NoOp);
      getSelfIdentityPropertyMethod := new ProtocolMethod.Create(protocol, RouteName(Member.SelfIdentity), nothingToBytesConverter, bytesToTIdentityConverter, NoOp);
    }

    /** The `MaxSize` property: one call, never cached. */
    method MaxSize() returns (size: Int64)
      requires Valid()
      modifies Connection()
      ensures Connection().calls == old(Connection().calls) + [Request(Member.MaxSize, Wiring().nothingToBytes(Nothing))]
      ensures size == Wiring().bytesToLong(Connection().remote(|old(Connection().calls)|, Request(Member.MaxSize, Wiring().nothingToBytes(Nothing))))
    {
      size := getMaxSizePropertyMethod.InvokeAndWait(Nothing);
    }

    method OwnerIdentity() returns (identity: TIdentity)
      requires Valid()
      modifies Connection()
      ensures Connection().calls == old(Connection().calls) + [Request(Member.OwnerIdentity, Wiring().nothingToBytes(Nothing))]
      ensures identity == Wiring().bytesToIdentity(Connection().remote(|old(Connection().calls)|, Request(Member.OwnerIdentity, Wiring().nothingToBytes(Nothing))))
    {
      identity := getOwnerIdentityPropertyMethod.InvokeAndWait(Nothing);
    }

    method PoolIdentity() returns (identity: TIdentity)
      requires Valid()
      modifies Connection()
      ensures Connection().calls == old(Connection().calls) + [Request(Member.PoolIdentity, Wiring().nothingToBytes(Nothing))]
      ensures identity == Wiring().bytesToIdentity(Connection().remote(|old(Connection().calls)|, Request(Member.PoolIdentity, Wiring().nothingToBytes(Nothing))))
    {
      identity := getPoolIdentityPropertyMethod.InvokeAndWait(Nothing);
    }

    method SelfIdentity() returns (identity: TIdentity)
      requires Valid()
      modifies Connection()
      ensures Connection().calls == old(Connection().calls) + [Request(Member.SelfIdentity, Wiring().nothingToBytes(Nothing))]
      ensures identity == Wiring().bytesToIdentity(Connection().remote(|old(Connection().calls)|, Request(Member.SelfIdentity, Wiring().nothingToBytes(Nothing))))
    {
      identity := getSelfIdentityPropertyMethod.InvokeAndWait(Nothing);
    }

    method GetCurrentSize() returns (size: Int64)
      requires Valid()
      modifies Connection()
      ensures Connection().calls == old(Connection().calls) + [Request(Member.GetCurrentSize, Wiring().nothingToBytes(Nothing))]
      ensures size == Wiring().bytesToLong(Connection().remote(|old(Connection().calls)|, Request(Member.GetCurrentSize, Wiring().nothingToBytes(Nothing))))
    {
      size := getCurrentSizeMethod.InvokeAndWait(Nothing);
    }

    /** Forwards the manifest itself as the argument. */
    method GetHashes(forManifest: Manifest) returns (hashes: seq<Hash>)
      requires Valid()
      modifies Connection()
      ensures Connection().calls == old(Connection().calls) + [Request(Member.GetHashes, Wiring().manifestToBytes(forManifest))]
      ensures hashes == Wiring().bytesToHashArray(Connection().remote(|old(Connection().calls)|, Request(Member.GetHashes, Wiring().manifestToBytes(forManifest))))
    {
      hashes := getHashesMethod.InvokeAndWait(forManifest);
    }

    method GetManifests() returns (manifests: seq<Manifest>)
      requires Valid()
      modifies Connection()
      ensures Connection().calls == old(Connection().calls) + [Request(Member.GetManifests, Wiring().nothingToBytes(Nothing))]
      ensures manifests == Wiring().bytesToManifestArray(Connection().remote(|old(Connection().calls)|, Request(Member.GetManifests, Wiring().nothingToBytes(Nothing))))
    {
      manifests := getManifestsMethod.InvokeAndWait(Nothing);
    }

    /** Sends the pair (manifest, hashes), in that order, with the hashes as given. */
    method GetSlices(forManifest: Manifest, hashes: seq<Hash>) returns (slices: seq<Slice>)
      requires Valid()
      modifies Connection()
      ensures Connection().calls == old(Connection().calls) + [Request(Member.GetSlices, Wiring().manifestAndHashArrayToBytes((forManifest, hashes)))]
      ensures slices == Wiring().bytesToSliceArray(Connection().remote(|old(Connection().calls)|, Request(Member.GetSlices, Wiring().manifestAndHashArrayToBytes((forManifest, hashes)))))
    {
      slices := getSlicesMethod.InvokeAndWait((forManifest, hashes));
    }
  }

  /** Two reads of `MaxSize` make two identical calls: the property is not cached. */
  method ReadMaxSizeTwice<TIdentity>(bucket: RemoteBucket<TIdentity>) returns (first: Int64, second: Int64)
    requires bucket.Valid()
    modifies bucket.Connection()
    ensures var request := Request(Member.MaxSize, bucket.Wiring().nothingToBytes(Nothing));
      bucket.Connection().calls == old(bucket.Connection().calls) + [request, request]
  {
    first := bucket.MaxSize();
    second := bucket.MaxSize();
  }

  /** Builds bucket proxies on different connections from one stored set of converters. */
  class Factory<TIdentity> {
    const nothingToBytesConverter: Nothing -> Bytes
    const bytesToLongConverter: Bytes -> Int64
    const manifestToBytesConverter: Manifest -> Bytes
    const bytesToHashArrayConverter: Bytes -> seq<Hash>
    const bytesToManifestArrayConverter: Bytes -> seq<Manifest>
    const manifestAndHashArrayTupleToBytesConverter: ((Manifest, seq<Hash>)) -> Bytes
    const bytesToSliceArrayConverter: Bytes -> seq<Slice>
    const bytesToTIdentityConverter: Bytes -> TIdentity

    /** The stored converters, by role. */
    function Stored(): (stored: Converters<TIdentity>)
    {
      Converters(
        nothingToBytesConverter, bytesToLongConverter, manifestToBytesConverter, bytesToHashArrayConverter,
        bytesToManifestArrayConverter, manifestAndHashArrayTupleToBytesConverter, bytesToSliceArrayConverter,
        bytesToTIdentityConverter)
    }

    constructor (
      nothingToBytesConverter: Nothing -> Bytes,
      bytesToLongConverter: Bytes -> Int64,
      manifestToBytesConverter: Manifest -> Bytes,
      bytesToHashArrayConverter: Bytes -> seq<Hash>,
      bytesToManifestArrayConverter: Bytes -> seq<Manifest>,
      manifestAndHashArrayTupleToBytesConverter: ((Manifest, seq<Hash>)) -> Bytes,
      bytesToSliceArrayConverter: Bytes -> seq<Slice>,
      bytesToTIdentityConverter: Bytes -> TIdentity)
      ensures Stored() == Converters(
        nothingToBytesConverter, bytesToLongConverter, manifestToBytesConverter, bytesToHashArrayConverter,
        bytesToManifestArrayConverter, manifestAndHashArrayTupleToBytesConverter, bytesToSliceArrayConverter,
        bytesToTIdentityConverter)
    {
      this.nothingToBytesConverter := nothingToBytesConverter;
      this.bytesToLongConverter := bytesToLongConverter;
      this.manifestToBytesConverter := manifestToBytesConverter;
      this.bytesToHashArrayConverter := bytesToHashArrayConverter;
      this.bytesToManifestArrayConverter := bytesToManifestArrayConverter;
      this.manifestAndHashArrayTupleToBytesConverter := manifestAndHashArrayTupleToBytesConverter;
      this.bytesToSliceArrayConverter := bytesToSliceArrayConverter;
      this.bytesToTIdentityConverter := bytesToTIdentityConverter;
    }

    /** A proxy on `protocol` wired with exactly the stored converters. */
    method CreateFrom(protocol: Protocol) returns (bucket: RemoteBucket<TIdentity>)
      ensures fresh(bucket) && bucket.Valid()
      ensures bucket.Connection() == protocol && bucket.Wiring() == Stored()
    {
      bucket := new RemoteBucket(
        protocol,
        nothingToBytesConverter,
        bytesToLongConverter,
        manifestToBytesConverter,
        bytesToHashArrayConverter,
        bytesToManifestArrayConverter,
        manifestAndHashArrayTupleToBytesConverter,
        bytesToSliceArrayConverter,
        bytesToTIdentityConverter);
    }
  }

  /** Two proxies from one factory differ only in their connection. */
  method CreateTwo<TIdentity>(factory: Factory<TIdentity>, p: Protocol, q: Protocol)
    returns (first: RemoteBucket<TIdentity>, second: RemoteBucket<TIdentity>)
    ensures first.Valid() && second.Valid()
    ensures first.Connection() == p && second.Connection() == q
    ensures first.Wiring() == second.Wiring() == factory.Stored()
  {
    first := factory.CreateFrom(p);
    second := factory.CreateFrom(q);
  }
}
