/**
 `TVector<int>`: a vector that owns its element buffer.

 `Model()` is the abstract value of a vector.
 - Construction, element access, equality and the arithmetic operators are
   proved against the function of `VectorModel` that gives their meaning.
 - Copy and assignment are proved to take over the source vector's `Model()`.
 - The accessors return the fields, within their bounds. Failures that
 the C++ `TVector` signals by throwing come back as `Err` values, with nothing changed.
 */
module Utmatrix {
  import opened VectorModel

  class TVector {
    var size: int
    var startIndex: int
    var pVector: array<int>

    /** The object invariant: the buffer holds exactly `size` elements and the shape is valid. */
    ghost predicate Valid()
      reads this
    {
      pVector.Length == size && ValidShape(size, startIndex)
    }

    /** The abstract value of this vector. */
    ghost function Model(): (v: Vec)
      reads this, pVector
    {
      Vec(startIndex, pVector[..])
    }

    /** Builds a vector of zeros; `NewVector` is the checked entry point. */
    constructor (size: int, startIndex: int)
      requires ValidShape(size, startIndex)
      ensures Valid() && fresh(pVector)
      ensures Make(size, startIndex) == Ok(Model())
    {
      this.size := size;
      this.startIndex := startIndex;
      pVector := new int[size](_ => 0);
      new;
      assert Model().elems == seq(size, _ => 0);
    }

    /** The copy constructor: same shape and elements, in a buffer of its own. */
    constructor Copy(v: TVector)
      requires v.Valid()
      ensures Valid() && fresh(pVector)
      ensures Model() == v.Model()
    {
      var buffer := new int[v.size];
      var k := 0;
      while k < v.size
        invariant 0 <= k <= v.size
        invariant forall j :: 0 <= j < k ==> buffer[j] == v.pVector[j]
      {
        buffer[k] := v.pVector[k];
        k := k + 1;
      }
      size := v.size;
      startIndex := v.startIndex;
      pVector := buffer;
      new;
      assert pVector[..] == v.pVector[..];
    }

    /** The number of elements; it lies within the bounds the constructor enforces. */
    function GetSize(): (n: int)
      reads this
      requires Valid()
      ensures n == pVector.Length && 0 < n <= MAX_VECTOR_SIZE
    {
      size
    }

    /** The first logical index; it is never negative. */
    function GetStartIndex(): (s: int)
      reads this
      requires Valid()
      ensures s == startIndex && 0 <= s
    {
      startIndex
    }

    /** Reads `v[i]`, failing outside the logical index range. */
    method Get(i: int) returns (r: Result<int>)
      requires Valid()
      ensures r == At(Model(), i)
    {
      if i < startIndex || startIndex + size <= i {
        r := Err(IndexOutOfRange);
      } else {
        r := Ok(pVector[i - startIndex]);
      }
    }

    /** Writes `v[i] = x` in place, failing outside the logical index range. */
    method Set(i: int, x: int) returns (r: Result<()>)
      requires Valid()
      modifies pVector
      ensures Valid()
      ensures var u := Update(old(Model()), i, x);
        if u.Ok? then r.Ok? && Model() == u.value
        else r == Err(u.error) && Model() == old(Model())
    {
      if i < startIndex || startIndex + size <= i {
        r := Err(IndexOutOfRange);
      } else {
        pVector[i - startIndex] := x;
        r := Ok(());
      }
    }

    /** `this == other`: equal sizes and equal elements. */
    method Equals(other: TVector) returns (b: bool)
      requires Valid() && other.Valid()
      ensures b == Equal(Model(), other.Model())
    {
      if size != other.size {
        return false;
      }
      var k := 0;
      while k < size
        invariant 0 <= k <= size
        invariant forall j :: 0 <= j < k ==> pVector[j] == other.pVector[j]
      {
        if pVector[k] != other.pVector[k] {
          return false;
        }
        k := k + 1;
      }
      return true;
    }

    /** `this = other`: takes over the size, start index and elements of `other`; never fails. */
    method Assign(other: TVector)
      requires Valid() && other.Valid()
      modifies this, pVector
      ensures Valid()
      ensures Model() == old(other.Model())
      ensures other.Model() == old(other.Model())
      ensures pVector == old(pVector) || fresh(pVector)
    {
      if this == other {
        return;
      }
      ghost var source := other.pVector[..];
      if size != other.size {
        pVector := new int[other.size];
      }
      size := other.size;
      startIndex := other.startIndex;
      var k := 0;
      while k < size
        invariant size == other.size == pVector.Length == |source|
        invariant startIndex == other.startIndex
        invariant 0 <= k <= size
        invariant forall j :: 0 <= j < k ==> pVector[j] == source[j]
        invariant forall j :: 0 <= j < size ==> other.pVector[j] == source[j]
        invariant pVector == old(pVector) || fresh(pVector)
      {
        pVector[k] := other.pVector[k];
        k := k + 1;
      }
      assert pVector[..] == source;
      assert other.pVector[..] == source;
    }

    /** The shared loop of `v + s`, `v - s` and `v * s`. */
    method ScalarOp(op: ArithOp, s: int) returns (r: TVector)
      requires Valid()
      ensures r.Valid() && fresh(r) && fresh(r.pVector)
      ensures r.Model() == Scalar(op, Model(), s)
    {
      r := new TVector(size, startIndex);
      var k := 0;
      while k < size
        invariant r.Valid() && fresh(r) && fresh(r.pVector) && r.size == size && r.startIndex == startIndex
        invariant 0 <= k <= size
        invariant forall j :: 0 <= j < k ==> r.pVector[j] == Apply(op, pVector[j], s)
      {
        r.pVector[k] := Apply(op, pVector[k], s);
        k := k + 1;
      }
      assert r.pVector[..] == MapScalar(op, pVector[..], s);
    }

    /** `v + s`: every element increased by `s`; `v` itself is unchanged. */
    method AddScalar(s: int) returns (r: TVector)
      requires Valid()
      ensures r.Valid() && fresh(r) && fresh(r.pVector)
      ensures r.Model() == Scalar(Plus, Model(), s)
    {
      r := ScalarOp(Plus, s);
    }

    /** `v - s`: every element decreased by `s`; `v` itself is unchanged. */
    method SubScalar(s: int) returns (r: TVector)
      requires Valid()
      ensures r.Valid() && fresh(r) && fresh(r.pVector)
      ensures r.Model() == Scalar(Minus, Model(), s)
    {
      r := ScalarOp(Minus, s);
    }

    /** `v * s`: every element multiplied by `s`; `v` itself is unchanged. */
    method MulScalar(s: int) returns (r: TVector)
      requires Valid()
      ensures r.Valid() && fresh(r) && fresh(r.pVector)
      ensures r.Model() == Scalar(Times, Model(), s)
    {
      r := ScalarOp(Times, s);
    }

    /** The shared loop of `a + b` and `a - b`. */
    method VectorOp(op: ArithOp, other: TVector) returns (r: Result<TVector>)
      requires Valid() && other.Valid()
      ensures r.Ok? <==> size == other.size
      ensures r.Err? ==> r.error == DimensionMismatch
      ensures r.Ok? ==> r.value.Valid() && fresh(r.value) && fresh(r.value.pVector)
      ensures r.Ok? ==> Combine(op, Model(), other.Model()) == Ok(r.value.Model())
    {
      if size != other.size {
        return Err(DimensionMismatch);
      }
      var t := new TVector(size, startIndex);
      var k := 0;
      while k < size
        invariant t.Valid() && fresh(t) && fresh(t.pVector) && t.size == size && t.startIndex == startIndex
        invariant 0 <= k <= size
        invariant forall j :: 0 <= j < k ==> t.pVector[j] == Apply(op, pVector[j], other.pVector[j])
      {
        t.pVector[k] := Apply(op, pVector[k], other.pVector[k]);
        k := k + 1;
      }
      assert t.pVector[..] == ZipWith(op, pVector[..], other.pVector[..]);
      r := Ok(t);
    }

    /** `a + b`: element-wise sum on equal sizes, otherwise a dimension mismatch. */
    method AddVector(other: TVector) returns (r: Result<TVector>)
      requires Valid() && other.Valid()
      ensures r.Ok? <==> size == other.size
      ensures r.Err? ==> r.error == DimensionMismatch
      ensures r.Ok? ==> r.value.Valid() && fresh(r.value) && fresh(r.value.pVector)
      ensures r.Ok? ==> Combine(Plus, Model(), other.Model()) == Ok(r.value.Model())
    {
      r := VectorOp(Plus, other);
    }

    /** `a - b`: element-wise difference on equal sizes, otherwise a dimension mismatch. */
    method SubVector(other: TVector) returns (r: Result<TVector>)
      requires Valid() && other.Valid()
      ensures r.Ok? <==> size == other.size
      ensures r.Err? ==> r.error == DimensionMismatch
      ensures r.Ok? ==> r.value.Valid() && fresh(r.value) && fresh(r.value.pVector)
      ensures r.Ok? ==> Combine(Minus, Model(), other.Model()) == Ok(r.value.Model())
    {
      r := VectorOp(Minus, other);
    }

    /** `a * b`: the inner product on equal sizes, otherwise a dimension mismatch. */
    method MulVector(other: TVector) returns (r: Result<int>)
      requires Valid() && other.Valid()
      ensures r == InnerProduct(Model(), other.Model())
    {
      if size != other.size {
        return Err(DimensionMismatch);
      }
      var sum := 0;
      var k := 0;
      while k < size
        invariant 0 <= k <= size
        invariant sum == Dot(pVector[..k], other.pVector[..k])
      {
        assert pVector[..k + 1][..k] == pVector[..k];
        assert other.pVector[..k + 1][..k] == other.pVector[..k];
        sum := sum + pVector[k] * other.pVector[k];
        k := k + 1;
      }
      assert pVector[..] == pVector[..size];
      assert other.pVector[..] == other.pVector[..size];
      r := Ok(sum);
    }
  }

  /** `TVector<int> v(size, startIndex)`: throws on an invalid size or start index. */
  method NewVector(size: int, startIndex: int) returns (r: Result<TVector>)
    ensures r.Ok? <==> ValidShape(size, startIndex)
    ensures r.Err? ==> Make(size, startIndex) == Err(r.error)
    ensures r.Ok? ==> r.value.Valid() && fresh(r.value) && fresh(r.value.pVector)
    ensures r.Ok? ==> Make(size, startIndex) == Ok(r.value.Model())
  {
    if size <= 0 || MAX_VECTOR_SIZE < size {
      return Err(InvalidSize);
    }
    if startIndex < 0 {
      return Err(InvalidStartIndex);
    }
    var v := new TVector(size, startIndex);
    r := Ok(v);
  }
}
