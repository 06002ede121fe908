# Matrix4x4: a verified model of the row-major 4x4 matrix

This project models the `Matrix4x4` value type of a small WebGPU demo
(`src/Matrix4x4.cpp`). A matrix holds 16 numbers in one fixed block.
Row n, column m sits at offset `n * 4 + m`. The type offers:

- two constructors: zero-filled, and from 16 numbers in reading order;
- the `Identity` and `Transpose` factories;
- reads of one element, one row (`Line`), one column, a copy of all 16 entries (`Elements`) and the raw storage (`Data`);
- entry-wise `+`, unary and binary `-`, and the row-by-column product `*`.

The model has two layers:

- `Layout` (layout.dfy) is the value a matrix stands for. It is a sequence of
  16 exact numbers (`real`) with the row-major addressing rule `Entry`. Every
  operation is a function on these sequences, and each function's contract
  gives its result entry by entry.
- `Matrix` (matrix.dfy) is the class. `Matrix4x4` owns a 16-slot `array<real>`
  that its constructors and operators fill in place. `Plus` and `Negated` keep
  the source's 16-step loops and carry loop invariants. `Times` fills the 16
  product slots in order. Each method's contract ties the new matrix's value to
  the `Layout` function of its operands' values.

The laws the operations obey are proved over `Layout` in `Algebra`
(algebra.dfy). They include transpose involution, the identity laws,
transpose of a product, associativity and a witness of non-commutativity.
`Vectors` (vectors.dfy) holds the four-component `Vec4` that rows and columns
are read into.

## Model

| member | source | states |
|---|---|---|
| `Layout.Addressing` | src/Matrix4x4.cpp:45-47 | the addressing rule n * 4 + m is one-to-one between the 16 in-range (row, column) pairs and the offsets 0 to 15: offset k is row k / 4, column k % 4, and an in-range pair's offset gives back its row and column |
| `Layout.Zero` | src/Matrix4x4.cpp:3-5 | every one of the 16 entries of the default matrix is 0 |
| `Layout.RowMajor` | src/Matrix4x4.cpp:7-17 | argument e_nm becomes entry (n, m): arguments are stored in row-major reading order |
| `Layout.Identity` | src/Matrix4x4.cpp:19-29 | entry (n, m) is 1 when n == m and 0 otherwise |
| `Layout.Transpose` | src/Matrix4x4.cpp:31-43 | entry (n, m) of the result is entry (m, n) of the argument, for all 16 positions |
| `Layout.Line` | src/Matrix4x4.cpp:53-55 | component m of row n is entry (n, m), for rows 0 to 3 |
| `Layout.Column` | src/Matrix4x4.cpp:57-59 | component n of column m is entry (n, m), for columns 0 to 3 |
| `Layout.Add` | src/Matrix4x4.cpp:65-71 | every entry of the sum is the sum of the operands' entries |
| `Layout.Negate` | src/Matrix4x4.cpp:73-79 | every entry is negated |
| `Layout.Subtract` | src/Matrix4x4.cpp:81-83 | defined as a + (-b); each stored entry is a[i] - b[i] |
| `Layout.Multiply` | src/Matrix4x4.cpp:85-109 | entry (i, j) of the product, for every i and j in 0 to 3, is the sum over k < 4 of a(i, k) * b(k, j); `ProductEntry` gives it written out term by term |
| `Layout.ProductEntry` | src/Matrix4x4.cpp:88-106 | entry (i, j) of a * b is a(i,0) b(0,j) + a(i,1) b(1,j) + a(i,2) b(2,j) + a(i,3) b(3,j) |
| `Layout.ProductIsRowDotColumn` | src/Matrix4x4.cpp:85-109 | entry (i, j) of a * b is the dot product of row i of a with column j of b |
| `Matrix.Matrix4x4.constructor` | src/Matrix4x4.cpp:3-5 | a fresh 16-slot store whose value is the zero matrix |
| `Matrix.Matrix4x4.FromRows` | src/Matrix4x4.cpp:7-17 | a fresh store whose value is the 16 arguments in row-major order |
| `Matrix.Matrix4x4.Identity` | src/Matrix4x4.cpp:19-29 | a fresh matrix whose value is the identity |
| `Matrix.Matrix4x4.Transpose` | src/Matrix4x4.cpp:31-43 | a fresh matrix whose value is the transpose of the argument's value |
| `Matrix.Matrix4x4.Element` | src/Matrix4x4.cpp:45-47 | reads entry (n, m) at offset n * 4 + m, for n and m in 0 to 3 |
| `Matrix.Matrix4x4.Elements` | src/Matrix4x4.cpp:49-51 | a 16-entry copy whose offset k holds Element(k / 4, k % 4) |
| `Matrix.Matrix4x4.Line` | src/Matrix4x4.cpp:53-55 | row n read from four contiguous offsets: component m is Element(n, m) |
| `Matrix.Matrix4x4.Column` | src/Matrix4x4.cpp:57-59 | column m read at stride 4: component n is Element(n, m) |
| `Matrix.Matrix4x4.Data` | src/Matrix4x4.cpp:61-63 | the storage itself (no copy), 16 long, offset k holding Element(k / 4, k % 4) |
| `Matrix.Matrix4x4.Plus` | src/Matrix4x4.cpp:65-71 | a fresh matrix holding the entry-wise sum; the operands are not written |
| `Matrix.Matrix4x4.Negated` | src/Matrix4x4.cpp:73-79 | a fresh matrix holding the entry-wise negation |
| `Matrix.Matrix4x4.Minus` | src/Matrix4x4.cpp:81-83 | computed as this + (-other); its value is the entry-wise difference |
| `Matrix.Matrix4x4.RowTimesColumn` | src/Matrix4x4.cpp:88-106 | the right-hand side of one slot assignment equals that entry of the product |
| `Matrix.Matrix4x4.Times` | src/Matrix4x4.cpp:85-109 | a fresh matrix whose value is the row-by-column product of the operands |
| `Algebra.EqualByEntries` | src/Matrix4x4.cpp:45-47 | two matrices are equal exactly when all 16 addressed entries agree (both directions) |
| `Algebra.RowMajorRoundTrip` | src/Matrix4x4.cpp:7-17 | building a matrix from its own 16 entries in reading order gives it back |
| `Algebra.TransposeInvolution` | src/Matrix4x4.cpp:31-43 | transposing twice gives back the original matrix |
| `Algebra.TransposeOfIdentity` | src/Matrix4x4.cpp:19-43 | the identity is its own transpose |
| `Algebra.TransposeSwapsLinesAndColumns` | src/Matrix4x4.cpp:31-59 | row n of the transpose is column n of the original, and column n of the transpose is row n |
| `Algebra.TransposeReadsColumnMajor` | src/Matrix4x4.cpp:31-43 | the contract of `Layout.Transpose` read at raw offsets: offset m * 4 + n of a transposed matrix's 16 stored entries holds entry (n, m) of the original |
| `Algebra.AddCommutes` | src/Matrix4x4.cpp:65-71 | a + b == b + a |
| `Algebra.AddZero` | src/Matrix4x4.cpp:3-5 | adding the default (zero) matrix changes nothing |
| `Algebra.NegateInvolution` | src/Matrix4x4.cpp:73-79 | negating twice gives back the original |
| `Algebra.SubtractUndoesAdd` | src/Matrix4x4.cpp:65-83 | (a + b) - b == a |
| `Algebra.SubtractSelf` | src/Matrix4x4.cpp:81-83 | a - a is the zero matrix |
| `Algebra.MultiplyIdentityRight` | src/Matrix4x4.cpp:85-109 | a * Identity() == a |
| `Algebra.MultiplyIdentityLeft` | src/Matrix4x4.cpp:85-109 | Identity() * a == a |
| `Algebra.TransposedRowByColumn` | src/Matrix4x4.cpp:85-109 | for any tb holding column i of b as its row i and ta holding row j of a as its column j, the first n terms of row j of a against column i of b equal the first n terms of row i of tb against column j of ta (by induction on n) |
| `Algebra.TransposeOfProduct` | src/Matrix4x4.cpp:31-109 | Transpose(a * b) == Transpose(b) * Transpose(a) |
| `Algebra.RowOfProduct` | src/Matrix4x4.cpp:85-109 | row i of a * b is row i of a times b: component l sums a(i, k) * b(k, l) over k |
| `Algebra.ColumnOfProduct` | src/Matrix4x4.cpp:85-109 | column j of b * c is b times column j of c: component k is row k of b dotted with column j of c |
| `Algebra.GroupedLeft` | src/Matrix4x4.cpp:85-109 | a row times b, then times a column, multiplies out to the sixteen triple products u_k * (b_kl * v_l) |
| `Algebra.GroupedRight` | src/Matrix4x4.cpp:85-109 | a row times (b times a column) multiplies out to the same sixteen triple products |
| `Algebra.MultiplyAssociativeEntry` | src/Matrix4x4.cpp:85-109 | entry (i, j) of (a * b) * c equals entry (i, j) of a * (b * c) |
| `Algebra.MultiplyAssociative` | src/Matrix4x4.cpp:85-109 | (a * b) * c == a * (b * c) |
| `Algebra.MultiplyNotCommutative` | src/Matrix4x4.cpp:85-109 | two concrete matrices whose products in the two orders differ |

## Left out

- Floating point: the source stores `float`. The model uses exact `real`, so rounding, overflow to infinity and NaN are not modelled. The algebraic laws (identity, associativity, transpose of a product) are proved for exact arithmetic only and are not claimed for IEEE-754 floats.
- Out-of-range indices: the source does no bounds check. `Line` or `Column` with an index outside 0..3 always reads outside the 16-entry array (undefined behaviour). `Element(n, m)` reads offset n * 4 + m, so a call such as `Element(0, 5)` stays inside the array and returns entry (1, 1), while other out-of-range pairs leave it. The model requires n and m in 0..3 for all three. This also excludes those defined reads that fall off the addressed row, since they are outside the documented meaning of row n, column m.
- `Matrix.Matrix4x4.Data`: the source returns a pointer to const. Dafny arrays have no read-only view, so the model returns the array itself and write protection is not captured.
- `Matrix.Matrix4x4.Times`: the source writes the 16 product slots as 16 unrolled statements. The model writes the same slots in the same order, from a loop over k = i * 4 + j. Each right-hand side is computed by `RowTimesColumn` exactly as written in the source.
- `Matrix.Matrix4x4.Identity`, `Matrix.Matrix4x4.Transpose`: the source zero-fills a fresh matrix and then assigns all 16 slots from an initializer list. The model builds the matrix from the same 16 values with the 16-argument constructor. The resulting value is the same.
- The stream `operator<<` (src/Matrix4x4.cpp:111-129) is output only. It also writes its line break to `std::cout` rather than to the stream it was given (line 125).
- `Scale`, `LookAt` and `Perspective` are only called (src/main.cpp:308-315 and 386). Their definitions are not part of this model, and they need trigonometry and floating division.
- The rest of src/main.cpp: GPU device, buffer and pipeline setup, the SDL event loop, the camera update and uniform uploads are I/O and foreign API calls. The `MyUniforms` alignment `static_assert` depends on C++ struct layout.
- `Vector2` and `Vector3` (inc/Vector2.hpp, inc/Vector3.hpp) are declarations without bodies. The header declaring `Vec4` is not part of this model. `Vectors.Vec4` is a plain four-field value, and `Vectors.Dot` is a reference definition used only to state the product law.
