/** The storage data model: content hashes, manifests and erasure-coded slices. */
module Encoding {
  import opened Common

  /** A content digest, compared by its bytes. */
  datatype Hash = Hash(bytes: Bytes)

  /**
   * The storage manifest of one stored object: its identifier, its length in
   * bytes and the hashes of the slices it was encoded into.
   */
  datatype Manifest = Manifest(id: Hash, length: Int64, sliceHashes: seq<Hash>)

  /**
   * One erasure-coded fragment: a boolean coefficient vector (which original
   * blocks were combined) and the combined bytes. Both are settable
   * references that start out null, as auto-properties of array type do.
   */
  class Slice {
    var coefficients: array?<bool>
    var encodingSymbol: array?<Byte>

    constructor ()
      ensures coefficients == null && encodingSymbol == null
    {
      coefficients := null;
      encodingSymbol := null;
    }

    /** The `Coefficients` setter: only the coefficient vector changes. */
    method SetCoefficients(value: array?<bool>)
      modifies this
      ensures coefficients == value
      ensures encodingSymbol == old(encodingSymbol)
    {
      coefficients := value;
    }

    /** The `EncodingSymbol` setter: only the symbol changes. */
    method SetEncodingSymbol(value: array?<Byte>)
      modifies this
      ensures encodingSymbol == value
      ensures coefficients == old(coefficients)
    {
      encodingSymbol := value;
    }
  }

  /**
   * Setting both properties and reading them back yields what was set, in
   * either order: each setter leaves the other property alone.
   */
  method SetThenGet(coefficients: array<bool>, symbol: array<Byte>) returns (s: Slice, t: Slice)
    ensures s.coefficients == coefficients && s.encodingSymbol == symbol
    ensures t.coefficients == coefficients && t.encodingSymbol == symbol
  {
    s := new Slice();
    s.SetCoefficients(coefficients);
    s.SetEncodingSymbol(symbol);
    t := new Slice();
    t.SetEncodingSymbol(symbol);
    t.SetCoefficients(coefficients);
  }

  /** Nothing relates the coefficient count to the symbol length: three coefficients, one symbol byte. */
  method UnrelatedLengths() returns (s: Slice)
    ensures s.coefficients != null && s.encodingSymbol != null
    ensures s.coefficients.Length != s.encodingSymbol.Length
  {
    s := new Slice();
    var c := new bool[3];
    var e := new Byte[1];
    s.SetCoefficients(c);
    s.SetEncodingSymbol(e);
  }
}
