/** The web layer's view of a stored object's manifest. */
module AspNetModels {
  import opened Common
  import Encoding

  /** The manifest as the web layer presents it. */
  datatype Manifest = Manifest(id: string, length: Int64, numSlices: nat, sliceIds: seq<string>)

  /**
   * Projects a storage manifest to the web manifest. The identifier is
   * rendered by the identifier type's own string conversion, passed in as
   * `idToString`; the slice count is the number of slice hashes; the slice
   * identifiers are the caller's, unchecked.
   */
  function ToManifest(manifest: Encoding.Manifest, sliceIds: seq<string>, idToString: Encoding.Hash -> string): (r: Manifest)
    ensures r.id == idToString(manifest.id)
    ensures r.length == manifest.length
    ensures r.numSlices == |manifest.sliceHashes|
    ensures r.sliceIds == sliceIds
  {
    Manifest(
      id := idToString(manifest.id),
      length := manifest.length,
      numSlices := |manifest.sliceHashes|,
      sliceIds := sliceIds)
  }

  /**
   * The web manifest keeps only the identifier, the length and how many
   * slice hashes there are: storage manifests that agree on those three map
   * to the same web manifest, whatever their hashes are.
   */
  lemma ToManifestForgetsHashes(m: Encoding.Manifest, n: Encoding.Manifest, sliceIds: seq<string>, idToString: Encoding.Hash -> string)
    requires m.id == n.id && m.length == n.length && |m.sliceHashes| == |n.sliceHashes|
    ensures ToManifest(m, sliceIds, idToString) == ToManifest(n, sliceIds, idToString)
  {
  }

  /** Nothing checks the slice identifiers against the slice count. */
  lemma SliceIdsNotChecked(idToString: Encoding.Hash -> string)
    ensures exists m: Encoding.Manifest, ids: seq<string> ::
      ToManifest(m, ids, idToString).numSlices != |ToManifest(m, ids, idToString).sliceIds|
  {
    var m := Encoding.Manifest(Encoding.Hash([]), 0, [Encoding.Hash([1])]);
    assert ToManifest(m, [], idToString).numSlices == 1;
  }
}
