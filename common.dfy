/** Small value types shared by every part of the model. */
module Common {

  /** A .NET `byte`. */
  type Byte = bv8

  /** The contents of a `byte[]`. */
  type Bytes = seq<Byte>

  /** A .NET `long`. */
  newtype Int64 = x: int | -0x8000_0000_0000_0000 <= x < 0x8000_0000_0000_0000

  datatype Option<T> = None | Some(value: T)

  /** Byte-wise exclusive or of two buffers of the same length. */
  function Xor(a: Bytes, b: Bytes): (r: Bytes)
    requires |a| == |b|
    ensures |r| == |a|
  {
    seq(|a|, i requires 0 <= i < |a| => a[i] ^ b[i])
  }

  /** Mixing two challenges does not depend on which one comes first. */
  lemma XorCommutes(a: Bytes, b: Bytes)
    requires |a| == |b|
    ensures Xor(a, b) == Xor(b, a)
  {
  }

  /** Mixing the same buffer in twice gives back the original. */
  lemma XorCancels(a: Bytes, b: Bytes)
    requires |a| == |b|
    ensures Xor(Xor(a, b), b) == a
  {
  }

  /** Different challenges mixed with the same buffer give different results. */
  lemma XorInjective(x: Bytes, y: Bytes, b: Bytes)
    requires |x| == |y| == |b|
    ensures Xor(x, b) == Xor(y, b) <==> x == y
  {
    if Xor(x, b) == Xor(y, b) {
      XorCancels(x, b);
      XorCancels(y, b);
    }
  }

  /** A buffer masked with `a` and then mixed with `a` again loses the mask. */
  lemma XorUnmasks(a: Bytes, b: Bytes, c: Bytes)
    requires |a| == |b| == |c|
    ensures Xor(a, Xor(Xor(a, b), c)) == Xor(b, c)
  {
  }

  /** No element occurs twice. */
  ghost predicate Distinct<T>(s: seq<T>)
  {
    forall i, j :: 0 <= i < j < |s| ==> s[i] != s[j]
  }

  /** `s` lists every element of `elements` exactly once, in some order. */
  ghost predicate IsEnumeration<T>(s: seq<T>, elements: set<T>)
  {
    && Distinct(s)
    && (forall i :: 0 <= i < |s| ==> s[i] in elements)
    && (forall x | x in elements :: x in s)
  }

  /** An enumeration of a set is exactly as long as the set is large. */
  lemma {:induction false} EnumerationSize<T>(s: seq<T>, elements: set<T>)
    requires IsEnumeration(s, elements)
    ensures |s| == |elements|
  {
    if s != [] {
      var last := s[|s| - 1];
      var init := s[..|s| - 1];
      assert forall x :: x in init ==> x in s;
      assert last !in init by {
        forall i | 0 <= i < |init| ensures init[i] != last {
          assert s[i] != s[|s| - 1];
        }
      }
      assert IsEnumeration(init, elements - {last}) by {
        forall x | x in elements - {last} ensures x in init {
          var i :| 0 <= i < |s| && s[i] == x;
          assert i < |s| - 1;
          assert init[i] == x;
        }
      }
      EnumerationSize(init, elements - {last});
    }
  }
}
