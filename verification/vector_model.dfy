/**
 The abstract value of a `TVector<int>` and the meaning of every operation on it.

 A vector is a start index together with its elements; its size is the number of
 elements. The class `Utmatrix.TVector` keeps this value in a size, a start index
 and an owned array, and each of its methods is proved against a function below.
 */
module VectorModel {

  /** The test suite expects construction of size 10 to succeed, so the bound is at least 10. */
  type MaxVectorSize = n: int | 10 <= n witness 10

  /** Process-wide upper bound on the size of a vector; its exact value is a parameter of the model. */
  const MAX_VECTOR_SIZE: MaxVectorSize

  /** The kinds of failure the vector signals (the C++ `TVector` throws them). */
  datatype VectorError = InvalidSize | InvalidStartIndex | IndexOutOfRange | DimensionMismatch

  datatype Result<T> = Ok(value: T) | Err(error: VectorError)

  /** The three element operations of the arithmetic operators. */
  datatype ArithOp = Plus | Minus | Times

  function Apply(op: ArithOp, x: int, y: int): int
  {
    match op
    case Plus => x + y
    case Minus => x - y
    case Times => x * y
  }

  /** A vector: its first logical index and its elements. */
  datatype Vec = Vec(startIndex: int, elems: seq<int>)
  {
    function Size(): nat { |elems| }
  }

  /** The arguments the constructor accepts. */
  predicate ValidShape(size: int, startIndex: int)
  {
    0 < size <= MAX_VECTOR_SIZE && 0 <= startIndex
  }

  /** Every vector that can exist satisfies this. */
  predicate WellFormed(v: Vec)
  {
    ValidShape(|v.elems|, v.startIndex)
  }

  /** `TVector(size, startIndex)`: a vector of zeros, or the reason it cannot be built. */
  function Make(size: int, startIndex: int): (r: Result<Vec>)
    ensures r.Ok? <==> ValidShape(size, startIndex)
    ensures r == Err(InvalidSize) <==> size <= 0 || MAX_VECTOR_SIZE < size
    ensures r == Err(InvalidStartIndex) <==> 0 < size <= MAX_VECTOR_SIZE && startIndex < 0
    ensures r.Ok? ==> WellFormed(r.value) && r.value.Size() == size && r.value.startIndex == startIndex
    ensures r.Ok? ==> forall k :: 0 <= k < size ==> r.value.elems[k] == 0
  {
    if size <= 0 || MAX_VECTOR_SIZE < size then Err(InvalidSize)
    else if startIndex < 0 then Err(InvalidStartIndex)
    else Ok(Vec(startIndex, seq(size, _ => 0)))
  }

  /** The logical indices that address an element of `v`. */
  predicate InRange(v: Vec, i: int)
  {
    v.startIndex <= i < v.startIndex + |v.elems|
  }

  /** Reading `v[i]`: logical index `i` addresses the element at offset `i - startIndex`. */
  function At(v: Vec, i: int): (r: Result<int>)
    ensures r.Ok? <==> InRange(v, i)
    ensures r.Err? ==> r.error == IndexOutOfRange
    ensures r.Ok? ==> r.value in v.elems
    ensures v.startIndex == 0 && 0 <= i < |v.elems| ==> r == Ok(v.elems[i])
  {
    if InRange(v, i) then Ok(v.elems[i - v.startIndex]) else Err(IndexOutOfRange)
  }

  /** Writing `v[i] = x`: the element at `i` becomes `x`; nothing else changes. */
  function Update(v: Vec, i: int, x: int): (r: Result<Vec>)
    ensures r.Ok? <==> InRange(v, i)
    ensures r.Err? ==> r.error == IndexOutOfRange
    ensures r.Ok? ==> r.value.startIndex == v.startIndex && r.value.Size() == v.Size()
    ensures r.Ok? ==> At(r.value, i) == Ok(x)
    ensures r.Ok? ==> forall j :: j != i ==> At(r.value, j) == At(v, j)
  {
    if InRange(v, i) then Ok(v.(elems := v.elems[i - v.startIndex := x])) else Err(IndexOutOfRange)
  }

  /** `a == b`: equal sizes and equal elements at equal offsets; start indices are not compared. */
  predicate Equal(a: Vec, b: Vec)
    ensures Equal(a, b) ==> a.Size() == b.Size()
  {
    |a.elems| == |b.elems| && forall k :: 0 <= k < |a.elems| ==> a.elems[k] == b.elems[k]
  }

  /** Applies `op` with the scalar `s` to every element. */
  function MapScalar(op: ArithOp, xs: seq<int>, s: int): (r: seq<int>)
    ensures |r| == |xs|
    ensures forall k :: 0 <= k < |xs| ==> r[k] == Apply(op, xs[k], s)
  {
    if xs == [] then [] else [Apply(op, xs[0], s)] + MapScalar(op, xs[1..], s)
  }

  /** Applies `op` to the elements at equal offsets of two sequences of one length. */
  function ZipWith(op: ArithOp, xs: seq<int>, ys: seq<int>): (r: seq<int>)
    requires |xs| == |ys|
    ensures |r| == |xs|
    ensures forall k :: 0 <= k < |xs| ==> r[k] == Apply(op, xs[k], ys[k])
  {
    if xs == [] then [] else [Apply(op, xs[0], ys[0])] + ZipWith(op, xs[1..], ys[1..])
  }

  /** The sum of the products of the elements at equal offsets, accumulated from the front;
      it is zero when either operand is all zeros. */
  function Dot(xs: seq<int>, ys: seq<int>): (r: int)
    requires |xs| == |ys|
    ensures (forall k :: 0 <= k < |xs| ==> xs[k] == 0) ==> r == 0
    ensures (forall k :: 0 <= k < |ys| ==> ys[k] == 0) ==> r == 0
  {
    if xs == [] then 0
    else Dot(xs[..|xs| - 1], ys[..|ys| - 1]) + xs[|xs| - 1] * ys[|ys| - 1]
  }

  /** `v + s`, `v - s`, `v * s`: a new vector of the same shape. */
  function Scalar(op: ArithOp, v: Vec, s: int): (r: Vec)
    ensures r.startIndex == v.startIndex && r.Size() == v.Size()
    ensures WellFormed(v) ==> WellFormed(r)
    ensures forall i :: InRange(v, i) ==> At(r, i) == Ok(Apply(op, At(v, i).value, s))
  {
    Vec(v.startIndex, MapScalar(op, v.elems, s))
  }

  /** `a + b`, `a - b`: element-wise on equal sizes, otherwise a dimension mismatch. */
  function Combine(op: ArithOp, a: Vec, b: Vec): (r: Result<Vec>)
    ensures r.Ok? <==> a.Size() == b.Size()
    ensures r.Err? ==> r.error == DimensionMismatch
    ensures r.Ok? ==> r.value.startIndex == a.startIndex && r.value.Size() == a.Size()
    ensures r.Ok? ==> forall k :: 0 <= k < a.Size() ==> r.value.elems[k] == Apply(op, a.elems[k], b.elems[k])
  {
    if |a.elems| == |b.elems| then Ok(Vec(a.startIndex, ZipWith(op, a.elems, b.elems)))
    else Err(DimensionMismatch)
  }

  /** `a * b`: the inner product on equal sizes, otherwise a dimension mismatch. */
  function InnerProduct(a: Vec, b: Vec): (r: Result<int>)
    ensures r.Ok? <==> a.Size() == b.Size()
    ensures r.Err? ==> r.error == DimensionMismatch
  {
    if |a.elems| == |b.elems| then Ok(Dot(a.elems, b.elems)) else Err(DimensionMismatch)
  }

  // ---------------------------------------------------------------------------
  // Properties of the operations

  /** Writing an element and reading it back gives the written value; other reads are unchanged. */
  lemma SetThenGet(v: Vec, i: int, x: int, j: int)
    requires InRange(v, i)
    ensures Update(v, i, x).Ok?
    ensures At(Update(v, i, x).value, j) == if j == i then Ok(x) else At(v, j)
  {
  }

  /** Equality is an equivalence relation. */
  lemma EqualIsEquivalence(a: Vec, b: Vec, c: Vec)
    ensures Equal(a, a)
    ensures Equal(a, b) ==> Equal(b, a)
    ensures Equal(a, b) && Equal(b, c) ==> Equal(a, c)
  {
  }

  /** Equality is exactly equality of the element sequences; in particular it implies equal sizes. */
  lemma EqualIffSameElements(a: Vec, b: Vec)
    ensures Equal(a, b) <==> a.elems == b.elems
  {
  }

  /** Vectors whose sizes differ are never equal. */
  lemma DifferentSizesNotEqual(a: Vec, b: Vec)
    requires a.Size() != b.Size()
    ensures !Equal(a, b)
  {
  }

  /** A well-formed vector reads through its logical indices exactly its elements. */
  lemma ElementsReadBack(v: Vec)
    ensures forall k :: 0 <= k < v.Size() ==> At(v, v.startIndex + k) == Ok(v.elems[k])
  {
  }

  /** `(v + s) - s` equals `v`, and so does `(v - s) + s`. */
  lemma ScalarAddSubRoundTrip(v: Vec, s: int)
    ensures Scalar(Minus, Scalar(Plus, v, s), s) == v
    ensures Scalar(Plus, Scalar(Minus, v, s), s) == v
  {
  }

  /** `(a + b) - b` equals `a` for vectors of equal size. */
  lemma CombineAddSubRoundTrip(a: Vec, b: Vec)
    requires a.Size() == b.Size()
    ensures Combine(Plus, a, b).Ok?
    ensures Combine(Minus, Combine(Plus, a, b).value, b) == Ok(a)
  {
    var sum := Combine(Plus, a, b).value;
    assert Combine(Minus, sum, b).value.elems == a.elems;
  }

  /** Vector addition has the elements of `b + a`, whichever operand's start index it keeps. */
  lemma CombineAddCommutes(a: Vec, b: Vec)
    requires a.Size() == b.Size()
    ensures Equal(Combine(Plus, a, b).value, Combine(Plus, b, a).value)
  {
  }

  /** The inner product is symmetric. */
  lemma {:induction false} DotSymmetric(xs: seq<int>, ys: seq<int>)
    requires |xs| == |ys|
    ensures Dot(xs, ys) == Dot(ys, xs)
    decreases |xs|
  {
    if xs != [] {
      DotSymmetric(xs[..|xs| - 1], ys[..|ys| - 1]);
    }
  }

  /** The inner product is symmetric at the level of vectors. */
  lemma InnerProductSymmetric(a: Vec, b: Vec)
    requires a.Size() == b.Size()
    ensures InnerProduct(a, b) == InnerProduct(b, a)
  {
    DotSymmetric(a.elems, b.elems);
  }
}
