/**
 * Shapes3D's Picked: the immutable (shape, part, partFlag) record a pick
 * returns, with Java's `equals`, `hashCode` and `compareTo`.
 *
 * A shape is known by its identity together with its `hashCode`, the
 * value Object's hash gives that identity; two references are the same
 * shape exactly when these are equal. Java `int` arithmetic in `hashCode`
 * wraps modulo 2^32; `compareTo` compares the shape hashes as `long`s,
 * which cannot overflow.
 */
module Picking {

  const TwoTo31: int := 0x8000_0000
  const TwoTo32: int := 0x1_0000_0000

  predicate IsInt32(v: int)
  {
    -TwoTo31 <= v < TwoTo31
  }

  /** Java's wrap-around of an int expression to 32 bits. */
  function Wrap32(v: int): (r: int)
    ensures IsInt32(r) && (r - v) % TwoTo32 == 0
    ensures IsInt32(v) ==> r == v
  {
    (v + TwoTo31) % TwoTo32 - TwoTo31
  }

  /** A value of Java's 32-bit `int`. */
  type Int32 = v: int | IsInt32(v)

  /** `hashCode()` of a shape is a Java `int`. */
  datatype ShapeRef = ShapeRef(id: nat, hash: Int32)

  /** The part flag is kept as the 32 bits of its Java int. */
  datatype Picked = Picked(shape: ShapeRef, part: int, partFlag: bv32)

  /** `equals`: the same shape and part; `partFlag` is not compared. */
  predicate Equals(a: Picked, b: Picked)
  {
    a.shape == b.shape && a.part == b.part
  }

  /** `hashCode`: 31·(31·17 + part) + shape hash, in 32-bit arithmetic. */
  function HashCode(p: Picked): (h: int)
    ensures IsInt32(h)
  {
    var result := 17;
    var result' := Wrap32(31 * result + p.part);
    Wrap32(31 * result' + p.shape.hash)
  }

  /** `compareTo`: by shape hash, then by part. */
  function CompareTo(a: Picked, b: Picked): (c: int)
    ensures c == -1 || c == 0 || c == 1
    ensures c == 0 <==> a.shape.hash == b.shape.hash && a.part == b.part
    ensures c < 0 <==> a.shape.hash < b.shape.hash || (a.shape.hash == b.shape.hash && a.part < b.part)
  {
    var shc := a.shape.hash;
    var oshc := b.shape.hash;
    if shc != oshc then
      (if shc < oshc then -1 else 1)
    else if a.part == b.part then
      0
    else
      (if a.part < b.part then -1 else 1)
  }

  /** `equals` is an equivalence relation. */
  lemma EqualsEquivalence(a: Picked, b: Picked, c: Picked)
    ensures Equals(a, a)
    ensures Equals(a, b) ==> Equals(b, a)
    ensures Equals(a, b) && Equals(b, c) ==> Equals(a, c)
  {
  }

  /** Equal records have equal hash codes, whatever their part flags. */
  lemma {:induction false} HashConsistent(a: Picked, b: Picked)
    requires Equals(a, b)
    ensures HashCode(a) == HashCode(b)
  {
    assert a.part == b.part && a.shape.hash == b.shape.hash;
  }

  /** Equal records compare as 0. */
  lemma CompareConsistent(a: Picked, b: Picked)
    requires Equals(a, b)
    ensures CompareTo(a, b) == 0
  {
  }

  /** `compareTo` is antisymmetric. */
  lemma CompareAntisymmetric(a: Picked, b: Picked)
    ensures CompareTo(a, b) == -CompareTo(b, a)
  {
  }

  /** `compareTo` is transitive. */
  lemma CompareTransitive(a: Picked, b: Picked, c: Picked)
    requires CompareTo(a, b) < 0 && CompareTo(b, c) < 0
    ensures CompareTo(a, c) < 0
  {
  }

  /** The ordering groups by shape and then by part, but two different
    * shapes whose hashes collide compare as 0 on the same part without
    * being equal: the natural order is not consistent with `equals`. */
  lemma CompareZeroWithoutEquals()
    ensures var a := Picked(ShapeRef(1, 7), 0, 1);
            var b := Picked(ShapeRef(2, 7), 0, 1);
            CompareTo(a, b) == 0 && !Equals(a, b)
  {
  }
}
