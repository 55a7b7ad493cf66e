/**
 * Null suppression: the fixed-size byte-aligned decoder.
 *
 * A FixedSizeByteAlignedVector stores every value in the same unsigned
 * integer type (8, 16 or 32 bits).  Its decoder gives random access and a
 * forward iterator, and widens every element to a 32-bit unsigned integer.
 * The decoder only borrows the vector, so nothing here changes it.
 */
module NullSuppression {

  /** The 32-bit unsigned result type of `get` and `dereference`. */
  newtype uint32 = x: int | 0 <= x < 0x1_0000_0000

  /** The template argument UnsignedIntType of the vector and its decoder. */
  datatype UnsignedIntType = UInt8 | UInt16 | UInt32

  /** One more than the largest value the element type can hold. */
  function Limit(t: UnsignedIntType): (n: nat)
    ensures n <= 0x1_0000_0000
  {
    match t
    case UInt8 => 0x100
    case UInt16 => 0x1_0000
    case UInt32 => 0x1_0000_0000
  }

  /**
   * FixedSizeByteAlignedVector<UnsignedIntType>: an immutable sequence of
   * unsigned integers of one fixed width.  It is an object, so two
   * iterators can tell whether they walk the same vector.
   */
  class FixedSizeByteAlignedVector {
    const elementType: UnsignedIntType
    const data: seq<nat>

    /** Every stored element fits its element type. */
    predicate Valid() {
      forall k :: 0 <= k < |data| ==> data[k] < Limit(elementType)
    }

    constructor (elementType: UnsignedIntType, data: seq<nat>)
      requires forall k :: 0 <= k < |data| ==> data[k] < Limit(elementType)
      ensures this.elementType == elementType && this.data == data
      ensures Valid()
    {
      this.elementType := elementType;
      this.data := data;
    }
  }

  /** `_on_size`: the number of stored elements. */
  function Size(v: FixedSizeByteAlignedVector): (n: nat)
    ensures n == |v.data|
  {
    |v.data|
  }

  /**
   * `_on_get`: the element at position `i`, widened to 32 bits.  The access
   * is unchecked, so `i` must be a position of the vector.
   */
  function Get(v: FixedSizeByteAlignedVector, i: nat): (r: uint32)
    requires v.Valid() && i < Size(v)
    ensures r as int == v.data[i]
    ensures r as int < Limit(v.elementType)
  {
    v.data[i] as uint32
  }

  /**
   * The decoder's `Iterator`: it holds a position in one vector, which
   * stands for the C++ const_iterator into the vector's storage.
   */
  class Iterator {
    const vector: FixedSizeByteAlignedVector
    var pos: nat

    ghost predicate Valid()
      reads this
    {
      vector.Valid() && pos <= Size(vector)
    }

    constructor (vector: FixedSizeByteAlignedVector, pos: nat)
      requires vector.Valid() && pos <= Size(vector)
      ensures this.vector == vector && this.pos == pos
      ensures Valid()
    {
      this.vector := vector;
      this.pos := pos;
    }

    /** `increment`: step to the next position (stepping past the end is undefined). */
    method Increment()
      requires Valid() && pos < Size(vector)
      modifies this`pos
      ensures Valid()
      ensures pos == old(pos) + 1
    {
      pos := pos + 1;
    }

    /**
     * `equal`: two iterators are equal when they stand at the same place of
     * the same vector, so an iterator equal to a valid one is valid too and
     * dereferences to the same element.
     */
    predicate Equal(other: Iterator): (eq: bool)
      reads this, other
      ensures eq && Valid() ==> other.Valid()
      ensures eq && Valid() && pos < Size(vector) ==> other.pos < Size(other.vector) && other.Dereference() == Dereference()
    {
      vector == other.vector && pos == other.pos
    }

    /** `dereference`: the element at the current position, widened to 32 bits. */
    function Dereference(): (r: uint32)
      reads this
      requires Valid() && pos < Size(vector)
      ensures r == Get(vector, pos)
    {
      vector.data[pos] as uint32
    }
  }

  /** `_on_cbegin`: an iterator at the first element. */
  method CBegin(v: FixedSizeByteAlignedVector) returns (it: Iterator)
    requires v.Valid()
    ensures fresh(it) && it.Valid()
    ensures it.vector == v && it.pos == 0
  {
    it := new Iterator(v, 0);
  }

  /** `_on_cend`: an iterator one past the last element. */
  method CEnd(v: FixedSizeByteAlignedVector) returns (it: Iterator)
    requires v.Valid()
    ensures fresh(it) && it.Valid()
    ensures it.vector == v && it.pos == Size(v)
  {
    it := new Iterator(v, Size(v));
  }

  /** `equal` is an equivalence relation on iterators. */
  lemma EqualIsEquivalence(a: Iterator, b: Iterator, c: Iterator)
    ensures a.Equal(a)
    ensures a.Equal(b) <==> b.Equal(a)
    ensures a.Equal(b) && b.Equal(c) ==> a.Equal(c)
  {
  }

  /**
   * An iterator equals `cend` of its vector exactly when it has no element
   * left to dereference: this is the exit test of a walk over the vector.
   */
  lemma EqualsEndIffExhausted(it: Iterator, end: Iterator)
    requires it.Valid() && end.vector == it.vector && end.pos == Size(it.vector)
    ensures it.Equal(end) <==> it.pos == Size(it.vector)
    ensures !it.Equal(end) <==> it.pos < Size(it.vector)
  {
  }

  /**
   * The sequential path: walk from `cbegin` to `cend` with `increment`,
   * `equal` and `dereference`, collecting every element.  The walk yields
   * exactly `get(0) .. get(size - 1)` and leaves the vector as it was.
   */
  method DecodeAll(v: FixedSizeByteAlignedVector) returns (values: seq<uint32>)
    requires v.Valid()
    ensures |values| == Size(v)
    ensures forall i :: 0 <= i < |values| ==> values[i] == Get(v, i)
  {
    var it := CBegin(v);
    var end := CEnd(v);
    values := [];
    while !it.Equal(end)
      invariant it.Valid() && it.vector == v && end.vector == v && end.pos == Size(v)
      invariant it.pos == |values|
      invariant forall i :: 0 <= i < |values| ==> values[i] == Get(v, i)
      decreases Size(v) - it.pos
    {
      values := values + [it.Dereference()];
      it.Increment();
    }
  }
}
