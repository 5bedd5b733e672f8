# TVector: a bounded vector with owned storage

This project models `TVector<int>`, the vector type of the `mp2-lab2-matrix`
library. A `TVector` has a size, a start index and an element buffer that it
owns. The constructor refuses a size outside `1..MAX_VECTOR_SIZE` and a negative
start index. A vector supports:

- reading and writing elements by index (`v[i]`);
- copy construction and assignment, each of which copies the elements;
- element-wise equality;
- scalar `+`, `-` and `*`;
- vector `+`, `-` and `*`, which need equal sizes.

The header that implements the type (`utmatrix.h`) is not part of this model.
Its contract is taken from the library's test suite, `test/test_tvector.cpp`.
Every test case has a counterpart in the model, but not every one is modelled
exactly as written:

- Two are modelled in a different form, and "## Left out" names both: the test
  at lines 75-78 and the address comparison at line 44.
- Three tests assert only that an operation does not throw, and in the model
  that operation cannot fail: copy (line 29), `==` (line 83) and `=` (line 104).
  Their members check the operation's result instead:
  - `CanCreateCopiedVector` checks that the copy has size 10.
  - `CanAssignVectorToItself` returns the value of `v == v`.
  - `CanAssignVectorsOfDifferentSize` adds an `Equals` call after the
    assignment.
- The test at lines 70-73 has two members. `ThrowsWhenSetElementWithNegativeIndex`
  models its body, a construction with size -5. `SetElementBelowStartIndexThrows`
  models its name, a write at index -1.

Every case the tests leave open is decided explicitly below.

The project has three modules:

- `VectorModel` (`vector_model.dfy`) holds the pure value of a vector and the
  meaning of each operation on that value:
  - `Vec` is a start index plus a sequence of elements.
  - `Make`, `At`, `Update`, `Equal`, `Scalar`, `Combine` and `InnerProduct`
    give the meaning of construction, reading, writing, equality and the
    arithmetic operators.
  - Lemmas relate these functions: write then read, equality as an
    equivalence, the scalar and vector add/subtract round trips, and symmetry
    of the inner product.
- `Utmatrix` (`utmatrix.dfy`) holds `class TVector`, with the fields `size`,
  `startIndex` and `pVector: array<int>`:
  - `Valid()` is the object invariant. It says the buffer length equals
    `size` and the shape is valid.
  - `Model()` is the abstract value.
  - Construction, `Get`, `Set`, `Equals` and the arithmetic operators are
    proved against the matching `VectorModel` function.
  - `Copy` and `Assign` are proved to give the receiver the source vector's
    value, `Model()`. `Assign` also leaves the source unchanged.
  - The accessors `GetSize` and `GetStartIndex` are tied to the fields and
    their bounds: the buffer length and `1..MAX_VECTOR_SIZE` for the size, a
    non-negative value for the start index.
  - The element-wise operators and the copy, compare and assign operations
    are loops over the buffer.
  - A throwing call is modelled as an `Err` result, and nothing changes when
    it fails.
- `TestTVector` (`test_tvector.dfy`) has one method per test case, plus a
  second method for the test at lines 70-73. Each method returns a verdict:
  no throw, a throw, or an equality. The exceptions are the three result
  checks listed above. Its postcondition proves that verdict for every value
  of `MAX_VECTOR_SIZE` the model allows.

Decisions where the tests do not fix the behaviour:

- `MAX_VECTOR_SIZE` is a constant whose value is left open. The model only
  knows that it is at least 10. The tests expect construction of size 10 to
  succeed: lines 27 and 34 build one outside any assertion.
- A size of 0 is refused, the same as a negative size. The tests only ever
  build vectors of positive length (test/test_tvector.cpp:5), and no test
  builds a vector of size 0.
- `TVector(n)` is taken to have start index 0, the default argument.
  test/test_tvector.cpp:64-67 indexes `v(4)` at 0.
- When both the size and the start index are invalid, the error reported is
  `InvalidSize`.
- Index `i` is a logical index. The range `startIndex .. startIndex+size-1` is
  valid, and `i` addresses buffer slot `i - startIndex`. Every indexing test
  uses start index 0, where this is plain zero-based indexing.
- Equality compares sizes and the elements at equal offsets. It does not
  compare start indices.
- The results of `v ± s`, `v * s`, `a + b` and `a - b` keep the start index of
  the left operand.
- `a * b` for two vectors is taken to be the inner product. The tests only
  check whether it throws.

## Model

| member | source | states |
|---|---|---|
| VectorModel.Make | test/test_tvector.cpp:5-23 | construction succeeds exactly when 0 < size <= MAX_VECTOR_SIZE and startIndex >= 0; a bad size gives InvalidSize, a bad start index InvalidStartIndex; success has the requested size and start index and all-zero elements |
| VectorModel.At | test/test_tvector.cpp:62-68 | a read succeeds exactly inside the logical index range, otherwise IndexOutOfRange; with start index 0, index i reads element i |
| VectorModel.Update | test/test_tvector.cpp:62-68 | a write succeeds exactly inside the index range; afterwards the index reads the written value, every other index reads as before, shape unchanged |
| VectorModel.MapScalar | test/test_tvector.cpp:128-156 | same length as the input; element k is the k-th input element combined with the scalar |
| VectorModel.ZipWith | test/test_tvector.cpp:158-180 | same length as the inputs; element k combines the k-th elements of both inputs |
| VectorModel.Scalar | test/test_tvector.cpp:128-156 | scalar + - * keep size and start index, keep the vector well formed, and transform the element at every valid index |
| VectorModel.Combine | test/test_tvector.cpp:158-180 | vector + and - succeed exactly on equal sizes (otherwise DimensionMismatch) and combine elements at equal offsets |
| VectorModel.InnerProduct | test/test_tvector.cpp:182-192 | vector * succeeds exactly on equal sizes, otherwise DimensionMismatch |
| VectorModel.Equal | test/test_tvector.cpp:107-126 | what a == b means: equal sizes and equal elements at equal offsets, start indices not compared; equal vectors always have equal sizes |
| VectorModel.Dot | test/test_tvector.cpp:182-186 | the assumed value of vector *: the inner product, zero when either operand is all zeros (an assumption; the tests only check whether * throws) |
| VectorModel.SetThenGet | test/test_tvector.cpp:62-68 | after v[i] = x, v[i] reads x and v[j] for j != i reads what it read before |
| VectorModel.EqualIsEquivalence | test/test_tvector.cpp:115-120 | equality is reflexive, symmetric and transitive |
| VectorModel.EqualIffSameElements | test/test_tvector.cpp:107-113 | two vectors are equal exactly when their element sequences are identical |
| VectorModel.DifferentSizesNotEqual | test/test_tvector.cpp:122-126 | vectors of different sizes are never equal |
| VectorModel.ElementsReadBack | test/test_tvector.cpp:62-68 | logical index startIndex + k reads the k-th element |
| VectorModel.ScalarAddSubRoundTrip | test/test_tvector.cpp:128-145 | (v + s) - s == v and (v - s) + s == v |
| VectorModel.CombineAddSubRoundTrip | test/test_tvector.cpp:158-180 | on equal sizes (a + b) - b succeeds and equals a |
| VectorModel.CombineAddCommutes | test/test_tvector.cpp:158-162 | a + b and b + a are equal vectors |
| VectorModel.DotSymmetric | test/test_tvector.cpp:182-186 | the inner product of two sequences does not depend on their order |
| VectorModel.InnerProductSymmetric | test/test_tvector.cpp:182-186 | a * b == b * a on equal sizes |
| Utmatrix.NewVector | test/test_tvector.cpp:5-23 | TVector(size, startIndex) returns a fresh valid vector exactly when the arguments are valid, with the value Make gives; otherwise the error Make gives |
| Utmatrix.TVector.constructor | test/test_tvector.cpp:48-60 | on valid arguments builds a valid vector of zeros with that size and start index in a freshly allocated buffer |
| Utmatrix.TVector.Copy | test/test_tvector.cpp:25-46 | the copy is valid, has the source's size, start index and elements, and owns a freshly allocated buffer |
| Utmatrix.TVector.GetSize | test/test_tvector.cpp:48-53 | the size is the buffer length and lies in 1..MAX_VECTOR_SIZE |
| Utmatrix.TVector.GetStartIndex | test/test_tvector.cpp:55-60 | the start index the vector was built or assigned with, never negative |
| Utmatrix.TVector.Get | test/test_tvector.cpp:62-68 | reading v[i] returns At of the vector's value: the element, or IndexOutOfRange |
| Utmatrix.TVector.Set | test/test_tvector.cpp:62-68 | v[i] = x updates the buffer in place to Update's value, or fails with IndexOutOfRange and changes nothing |
| Utmatrix.TVector.Equals | test/test_tvector.cpp:107-126 | returns true exactly when the two vectors are Equal |
| Utmatrix.TVector.Assign | test/test_tvector.cpp:86-105 | after a = b, a is valid and has b's old value (size, start index, elements), b is unchanged, a's buffer is its old one or fresh; never fails, also for a = a |
| Utmatrix.TVector.ScalarOp | test/test_tvector.cpp:128-156 | returns a fresh vector whose value is Scalar of the receiver's value |
| Utmatrix.TVector.AddScalar | test/test_tvector.cpp:128-134 | v + s is a fresh vector with every element increased by s; v is not modified |
| Utmatrix.TVector.SubScalar | test/test_tvector.cpp:136-145 | v - s is a fresh vector with every element decreased by s; v is not modified |
| Utmatrix.TVector.MulScalar | test/test_tvector.cpp:147-156 | v * s is a fresh vector with every element multiplied by s; v is not modified |
| Utmatrix.TVector.VectorOp | test/test_tvector.cpp:158-180 | succeeds exactly on equal sizes with a fresh vector valued Combine, otherwise DimensionMismatch |
| Utmatrix.TVector.AddVector | test/test_tvector.cpp:158-168 | a + b succeeds exactly on equal sizes with the element-wise sum, otherwise DimensionMismatch |
| Utmatrix.TVector.SubVector | test/test_tvector.cpp:170-180 | a - b succeeds exactly on equal sizes with the element-wise difference, otherwise DimensionMismatch |
| Utmatrix.TVector.MulVector | test/test_tvector.cpp:182-192 | a * b returns InnerProduct of the two values: the inner product on equal sizes, otherwise DimensionMismatch |
| TestTVector.Fill | test/test_tvector.cpp:131-132 | writing x at every index 0..size-1 leaves every element equal to x and the shape unchanged |
| TestTVector.CanCreateVectorWithPositiveLength | test/test_tvector.cpp:5-8 | TVector(5) does not throw |
| TestTVector.CantCreateTooLargeVector | test/test_tvector.cpp:10-13 | TVector(MAX_VECTOR_SIZE + 1) throws |
| TestTVector.ThrowsWhenCreateVectorWithNegativeLength | test/test_tvector.cpp:15-18 | TVector(-5) throws |
| TestTVector.ThrowsWhenCreateVectorWithNegativeStartIndex | test/test_tvector.cpp:20-23 | TVector(5, -2) throws |
| TestTVector.CanCreateCopiedVector | test/test_tvector.cpp:25-30 | copying a vector of size 10 succeeds |
| TestTVector.CopiedVectorIsEqualToSourceOne | test/test_tvector.cpp:32-38 | a copy compares equal to its source |
| TestTVector.CopiedVectorHasItsOwnMemory | test/test_tvector.cpp:40-46 | a copy has a different buffer; writing to the copy leaves the source unchanged |
| TestTVector.CanGetSize | test/test_tvector.cpp:48-53 | GetSize of TVector(4) is 4 |
| TestTVector.CanGetStartIndex | test/test_tvector.cpp:55-60 | GetStartIndex of TVector(4, 2) is 2 |
| TestTVector.CanSetAndGetElement | test/test_tvector.cpp:62-68 | after v[0] = 4, v[0] is 4 |
| TestTVector.ThrowsWhenSetElementWithNegativeIndex | test/test_tvector.cpp:70-73 | TVector(-5) throws (the test constructs, it does not index) |
| TestTVector.SetElementBelowStartIndexThrows | test/test_tvector.cpp:70 | models the test's name, not its body: writing or reading index -1 of a vector starting at 0 fails and leaves element 0 as it was |
| TestTVector.SetElementPastEndThrows | test/test_tvector.cpp:75 | models the test's name, not its body: on TVector(4), index 3 is writable and index 4 fails |
| TestTVector.CanAssignVectorToItself | test/test_tvector.cpp:80-84 | v == v is true |
| TestTVector.CanAssignVectorsOfEqualSize | test/test_tvector.cpp:86-92 | after v1[2] = 4 and v1 = v2, v1 == v2 |
| TestTVector.AssignOperatorChangeVectorSize | test/test_tvector.cpp:94-99 | after v1 = v2 with sizes 4 and 5, v1 has size 5 |
| TestTVector.CanAssignVectorsOfDifferentSize | test/test_tvector.cpp:101-105 | assigning a size-5 vector to a size-4 one succeeds and makes them equal |
| TestTVector.CompareEqualVectorsReturnTrue | test/test_tvector.cpp:107-113 | two size-4 vectors with element 2 set to 4 are equal |
| TestTVector.CompareVectorWithItselfReturnTrue | test/test_tvector.cpp:115-120 | a vector is equal to itself after a write |
| TestTVector.VectorsWithDifferentSizeAreNotEqual | test/test_tvector.cpp:122-126 | vectors of sizes 4 and 5 are not equal |
| TestTVector.CanAddScalarToVector | test/test_tvector.cpp:128-134 | {1,1,1,1} == {0,0,0,0} + 1 |
| TestTVector.CanSubtractScalarFromVector | test/test_tvector.cpp:136-145 | {4,4,4,4} == {5,5,5,5} - 1 |
| TestTVector.CanMultiplyScalarByVector | test/test_tvector.cpp:147-156 | {16,16,16,16} == {4,4,4,4} * 4 |
| TestTVector.CanAddVectorsWithEqualSize | test/test_tvector.cpp:158-162 | adding two size-4 vectors does not throw |
| TestTVector.CantAddVectorsWithNotEqualSize | test/test_tvector.cpp:164-168 | adding vectors of sizes 4 and 5 throws |
| TestTVector.CanSubtractVectorsWithEqualSize | test/test_tvector.cpp:170-174 | subtracting two size-4 vectors does not throw |
| TestTVector.CantSubtractVectorsWithNotEqualSize | test/test_tvector.cpp:176-180 | subtracting vectors of sizes 4 and 5 throws |
| TestTVector.CanMultiplyVectorsWithEqualSize | test/test_tvector.cpp:182-186 | multiplying two size-4 vectors does not throw |
| TestTVector.CantMultiplyVectorsWithNotEqualSize | test/test_tvector.cpp:188-192 | multiplying vectors of sizes 4 and 5 throws |

## Left out

- The implementation header `utmatrix.h` is not part of this model. This
  includes the matrix type `TMatrix`, stream input and output, and `operator!=`,
  which no test uses.
- The exact value of `MAX_VECTOR_SIZE` is not modelled. It is only bounded
  below by 10.
- The test at test/test_tvector.cpp:75-78 is not modelled as written. It passes
  10000000000000 to an `int` parameter, so its outcome depends on C++ integer
  truncation and on the exact bound. `SetElementPastEndThrows` checks an
  out-of-range index instead.
- Machine-integer overflow is not modelled. Elements, sizes and indices are
  unbounded integers, so arithmetic never wraps around.
- The address comparison at test/test_tvector.cpp:44 is not modelled as
  written. It is replaced by distinct buffers plus independence under writes.
- Memory release on destruction is not modelled.
- The element type is fixed to `int`. Other instantiations of the template are
  not modelled.
- Utmatrix.TVector.MulVector: the result value, the inner product, is an
  assumption. The tests only fix whether vector-by-vector multiplication
  throws.
- VectorModel.At: offset indexing (slot `i - startIndex`) for a non-zero start
  index is an assumption. The tests index only vectors with start index 0.
