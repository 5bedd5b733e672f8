/**
 The test suite of `TVector`, case by case.

 Each method builds the vectors its test builds and performs the same operations.
 `TVector(n)` is modelled as `TVector(n, 0)`, start index 0 being the default.
 Each method returns a verdict:
 - `ok` for a call that must not throw;
 - `threw` for a call that must throw;
 - `equal` for an equality the test expects.

 Three tests assert only that an operation that cannot fail does not throw:
 copy, `==` and `=`. Their methods check that operation's result instead:
 `CanCreateCopiedVector`, `CanAssignVectorToItself` and
 `CanAssignVectorsOfDifferentSize`.

 The test named after a negative index has two methods: one for its body and
 one for its name.

 Each postcondition says that the verdict holds, for every value of
 `MAX_VECTOR_SIZE` the model allows.
 */
module TestTVector {
  import opened VectorModel
  import opened Utmatrix

  /** Sets every element of `v` to `x`, as the tests' `for` loops over `v[i] = x` do. */
  method Fill(v: TVector, x: int)
    requires v.Valid() && v.startIndex == 0
    modifies v.pVector
    ensures v.Valid() && v.size == old(v.size) && v.startIndex == 0
    ensures forall k :: 0 <= k < v.size ==> v.pVector[k] == x
  {
    for i := 0 to v.size
      invariant v.Valid() && v.startIndex == 0
      invariant forall k :: 0 <= k < i ==> v.pVector[k] == x
    {
      var _ := v.Set(i, x);
    }
  }

  method CanCreateVectorWithPositiveLength() returns (ok: bool)
    ensures ok
  {
    var v := NewVector(5, 0);
    ok := v.Ok?;
  }

  method CantCreateTooLargeVector() returns (threw: bool)
    ensures threw
  {
    var v := NewVector(MAX_VECTOR_SIZE + 1, 0);
    threw := v.Err?;
  }

  method ThrowsWhenCreateVectorWithNegativeLength() returns (threw: bool)
    ensures threw
  {
    var v := NewVector(-5, 0);
    threw := v.Err?;
  }

  method ThrowsWhenCreateVectorWithNegativeStartIndex() returns (threw: bool)
    ensures threw
  {
    var v := NewVector(5, -2);
    threw := v.Err?;
  }

  method CanCreateCopiedVector() returns (ok: bool)
    ensures ok
  {
    var v := new TVector(10, 0);
    var v1 := new TVector.Copy(v);
    ok := v1.GetSize() == 10;
  }

  method CopiedVectorIsEqualToSourceOne() returns (equal: bool)
    ensures equal
  {
    var v1 := new TVector(10, 2);
    var v2 := new TVector.Copy(v1);
    equal := v1.Equals(v2);
  }

  /** The copy has a buffer of its own: writing to it leaves the source as it was. */
  method CopiedVectorHasItsOwnMemory() returns (distinct: bool)
    ensures distinct
  {
    var v1 := new TVector(10, 2);
    var v2 := new TVector.Copy(v1);
    var _ := v2.Set(2, 7);
    var a := v1.Get(2);
    var b := v2.Get(2);
    distinct := v1.pVector != v2.pVector && a == Ok(0) && b == Ok(7);
  }

  method CanGetSize() returns (equal: bool)
    ensures equal
  {
    var v := new TVector(4, 0);
    equal := v.GetSize() == 4;
  }

  method CanGetStartIndex() returns (equal: bool)
    ensures equal
  {
    var v := new TVector(4, 2);
    equal := v.GetStartIndex() == 2;
  }

  method CanSetAndGetElement() returns (equal: bool)
    ensures equal
  {
    var v := new TVector(4, 0);
    var _ := v.Set(0, 4);
    var x := v.Get(0);
    equal := x == Ok(4);
  }

  method ThrowsWhenSetElementWithNegativeIndex() returns (threw: bool)
    ensures threw
  {
    var v := NewVector(-5, 0);
    threw := v.Err?;
  }

  /** What the name at line 70 describes: writing at a negative index is refused and nothing changes. */
  method SetElementBelowStartIndexThrows() returns (threw: bool)
    ensures threw
  {
    var v := new TVector(4, 0);
    var r := v.Set(-1, 4);
    var x := v.Get(-1);
    var first := v.Get(0);
    threw := r.Err? && x.Err? && first == Ok(0);
  }

  /** What the name at line 75 describes: on a vector of size 4, index 3 is writable and index 4 is refused. */
  method SetElementPastEndThrows() returns (threw: bool)
    ensures threw
  {
    var v := new TVector(4, 0);
    var last := v.Set(3, 1);
    var past := v.Set(4, 1);
    threw := last.Ok? && past.Err?;
  }

  /** Named after self-assignment, the test compares the vector with itself. */
  method CanAssignVectorToItself() returns (equal: bool)
    ensures equal
  {
    var v := new TVector(5, 0);
    equal := v.Equals(v);
  }

  method CanAssignVectorsOfEqualSize() returns (equal: bool)
    ensures equal
  {
    var v1 := new TVector(4, 0);
    var v2 := new TVector(4, 0);
    var _ := v1.Set(2, 4);
    v1.Assign(v2);
    equal := v1.Equals(v2);
  }

  method AssignOperatorChangeVectorSize() returns (equal: bool)
    ensures equal
  {
    var v1 := new TVector(4, 0);
    var v2 := new TVector(5, 0);
    v1.Assign(v2);
    equal := v1.GetSize() == 5;
  }

  method CanAssignVectorsOfDifferentSize() returns (equal: bool)
    ensures equal
  {
    var v1 := new TVector(4, 0);
    var v2 := new TVector(5, 0);
    v1.Assign(v2);
    equal := v1.Equals(v2);
  }

  method CompareEqualVectorsReturnTrue() returns (equal: bool)
    ensures equal
  {
    var v1 := new TVector(4, 0);
    var v2 := new TVector(4, 0);
    var _ := v1.Set(2, 4);
    var _ := v2.Set(2, 4);
    equal := v1.Equals(v2);
  }

  method CompareVectorWithItselfReturnTrue() returns (equal: bool)
    ensures equal
  {
    var v := new TVector(4, 0);
    var _ := v.Set(2, 4);
    equal := v.Equals(v);
  }

  method VectorsWithDifferentSizeAreNotEqual() returns (equal: bool)
    ensures !equal
  {
    var v1 := new TVector(4, 0);
    var v2 := new TVector(5, 0);
    equal := v1.Equals(v2);
  }

  method CanAddScalarToVector() returns (equal: bool)
    ensures equal
  {
    var v1 := new TVector(4, 0);
    var v2 := new TVector(4, 0);
    Fill(v1, 1);
    var sum := v2.AddScalar(1);
    equal := v1.Equals(sum);
  }

  method CanSubtractScalarFromVector() returns (equal: bool)
    ensures equal
  {
    var v1 := new TVector(4, 0);
    var v2 := new TVector(4, 0);
    Fill(v1, 4);
    Fill(v2, 5);
    var difference := v2.SubScalar(1);
    equal := v1.Equals(difference);
  }

  method CanMultiplyScalarByVector() returns (equal: bool)
    ensures equal
  {
    var v1 := new TVector(4, 0);
    var v2 := new TVector(4, 0);
    Fill(v1, 16);
    Fill(v2, 4);
    var product := v2.MulScalar(4);
    equal := v1.Equals(product);
  }

  method CanAddVectorsWithEqualSize() returns (ok: bool)
    ensures ok
  {
    var v1 := new TVector(4, 0);
    var v2 := new TVector(4, 0);
    var r := v1.AddVector(v2);
    ok := r.Ok?;
  }

  method CantAddVectorsWithNotEqualSize() returns (threw: bool)
    ensures threw
  {
    var v1 := new TVector(4, 0);
    var v2 := new TVector(5, 0);
    var r := v1.AddVector(v2);
    threw := r.Err?;
  }

  method CanSubtractVectorsWithEqualSize() returns (ok: bool)
    ensures ok
  {
    var v1 := new TVector(4, 0);
    var v2 := new TVector(4, 0);
    var r := v1.SubVector(v2);
    ok := r.Ok?;
  }

  method CantSubtractVectorsWithNotEqualSize() returns (threw: bool)
    ensures threw
  {
    var v1 := new TVector(4, 0);
    var v2 := new TVector(5, 0);
    var r := v1.SubVector(v2);
    threw := r.Err?;
  }

  method CanMultiplyVectorsWithEqualSize() returns (ok: bool)
    ensures ok
  {
    var v1 := new TVector(4, 0);
    var v2 := new TVector(4, 0);
    var r := v1.MulVector(v2);
    ok := r.Ok?;
  }

  method CantMultiplyVectorsWithNotEqualSize() returns (threw: bool)
    ensures threw
  {
    var v1 := new TVector(4, 0);
    var v2 := new TVector(5, 0);
    var r := v1.MulVector(v2);
    threw := r.Err?;
  }
}
