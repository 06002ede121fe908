/**
 * Laws of the matrix operations over exact arithmetic. They are stated
 * for the values the operations compute, so they hold for every matrix
 * the class produces.
 */
module Algebra {
  import opened Vectors
  import opened Layout

  /** Two matrices are equal exactly when all 16 addressed entries agree. */
  lemma EqualByEntries(a: Entries, b: Entries)
    ensures a == b <==> forall n, m | InRange(n, m) :: Entry(a, n, m) == Entry(b, n, m)
  {
    if forall n, m | InRange(n, m) :: Entry(a, n, m) == Entry(b, n, m) {
      forall k | 0 <= k < 16
        ensures a[k] == b[k]
      {
        assert Entry(a, k / 4, k % 4) == a[k];
      }
    }
  }

  /** Reading the 16 entries back and constructing from them gives the same matrix. */
  lemma RowMajorRoundTrip(e: Entries)
    ensures RowMajor(Entry(e, 0, 0), Entry(e, 0, 1), Entry(e, 0, 2), Entry(e, 0, 3),
                     Entry(e, 1, 0), Entry(e, 1, 1), Entry(e, 1, 2), Entry(e, 1, 3),
                     Entry(e, 2, 0), Entry(e, 2, 1), Entry(e, 2, 2), Entry(e, 2, 3),
                     Entry(e, 3, 0), Entry(e, 3, 1), Entry(e, 3, 2), Entry(e, 3, 3)) == e
  {
    var r := RowMajor(Entry(e, 0, 0), Entry(e, 0, 1), Entry(e, 0, 2), Entry(e, 0, 3),
                      Entry(e, 1, 0), Entry(e, 1, 1), Entry(e, 1, 2), Entry(e, 1, 3),
                      Entry(e, 2, 0), Entry(e, 2, 1), Entry(e, 2, 2), Entry(e, 2, 3),
                      Entry(e, 3, 0), Entry(e, 3, 1), Entry(e, 3, 2), Entry(e, 3, 3));
    EqualByEntries(r, e);
  }

  lemma TransposeInvolution(e: Entries)
    ensures Transpose(Transpose(e)) == e
  {
    EqualByEntries(Transpose(Transpose(e)), e);
  }

  lemma TransposeOfIdentity()
    ensures Transpose(Identity()) == Identity()
  {
    EqualByEntries(Transpose(Identity()), Identity());
  }

  /** Row n of the transpose is column n of the original, and the other way round. */
  lemma TransposeSwapsLinesAndColumns(e: Entries, n: int)
    requires 0 <= n < 4
    ensures Line(Transpose(e), n) == Column(e, n)
    ensures Column(Transpose(e), n) == Line(e, n)
  {
    var t := Transpose(e);
    assert Entry(t, n, 0) == Entry(e, 0, n) && Entry(t, n, 1) == Entry(e, 1, n);
    assert Entry(t, n, 2) == Entry(e, 2, n) && Entry(t, n, 3) == Entry(e, 3, n);
    assert Entry(t, 0, n) == Entry(e, n, 0) && Entry(t, 1, n) == Entry(e, n, 1);
    assert Entry(t, 2, n) == Entry(e, n, 2) && Entry(t, 3, n) == Entry(e, n, 3);
  }

  /**
   * The stored sequence of a transposed matrix, read column by column
   * (row n, column m at offset m * 4 + n), gives back the original matrix.
   */
  lemma TransposeReadsColumnMajor(e: Entries)
    ensures forall n, m | InRange(n, m) :: Transpose(e)[m * 4 + n] == Entry(e, n, m)
  {
    forall n, m | InRange(n, m)
      ensures Transpose(e)[m * 4 + n] == Entry(e, n, m)
    {
      assert Transpose(e)[m * 4 + n] == Entry(Transpose(e), m, n);
    }
  }

  lemma AddCommutes(a: Entries, b: Entries)
    ensures Add(a, b) == Add(b, a)
  {
    EqualByEntries(Add(a, b), Add(b, a));
  }

  lemma AddZero(a: Entries)
    ensures Add(a, Zero()) == a
  {
    EqualByEntries(Add(a, Zero()), a);
  }

  lemma NegateInvolution(a: Entries)
    ensures Negate(Negate(a)) == a
  {
    EqualByEntries(Negate(Negate(a)), a);
  }

  /** Subtracting what was added gives back the original: a + b - b == a. */
  lemma SubtractUndoesAdd(a: Entries, b: Entries)
    ensures Subtract(Add(a, b), b) == a
  {
    var r := Subtract(Add(a, b), b);
    forall k | 0 <= k < 16
      ensures r[k] == a[k]
    {
      assert Add(a, b)[k] == a[k] + b[k];
    }
  }

  lemma SubtractSelf(a: Entries)
    ensures Subtract(a, a) == Zero()
  {
    EqualByEntries(Subtract(a, a), Zero());
  }

  lemma MultiplyIdentityRight(a: Entries)
    ensures Multiply(a, Identity()) == a
  {
    forall i, j | InRange(i, j)
      ensures Entry(Multiply(a, Identity()), i, j) == Entry(a, i, j)
    {
      ProductEntry(a, Identity(), i, j, Entry(a, i, 0), Entry(a, i, 1), Entry(a, i, 2), Entry(a, i, 3),
                   Entry(Identity(), 0, j), Entry(Identity(), 1, j), Entry(Identity(), 2, j), Entry(Identity(), 3, j));
    }
    EqualByEntries(Multiply(a, Identity()), a);
  }

  lemma MultiplyIdentityLeft(a: Entries)
    ensures Multiply(Identity(), a) == a
  {
    forall i, j | InRange(i, j)
      ensures Entry(Multiply(Identity(), a), i, j) == Entry(a, i, j)
    {
      ProductEntry(Identity(), a, i, j, Entry(Identity(), i, 0), Entry(Identity(), i, 1), Entry(Identity(), i, 2), Entry(Identity(), i, 3),
                   Entry(a, 0, j), Entry(a, 1, j), Entry(a, 2, j), Entry(a, 3, j));
    }
    EqualByEntries(Multiply(Identity(), a), a);
  }

  /**
   * With tb holding b's column i as its row i, and ta holding a's row j as its
   * column j, the first n terms of row j of a against column i of b equal the
   * first n terms of row i of tb against column j of ta.
   */
  lemma {:induction false} TransposedRowByColumn(a: Entries, b: Entries, ta: Entries, tb: Entries,
                                                 i: int, j: int, n: nat)
    requires InRange(i, j) && n <= 4
    requires forall k | 0 <= k < 4 :: Entry(tb, i, k) == Entry(b, k, i) && Entry(ta, k, j) == Entry(a, j, k)
    ensures RowByColumn(a, b, j, i, n) == RowByColumn(tb, ta, i, j, n)
  {
    if n > 0 {
      TransposedRowByColumn(a, b, ta, tb, i, j, n - 1);
      var x, y := Entry(a, j, n - 1), Entry(b, n - 1, i);
      assert Entry(tb, i, n - 1) == y && Entry(ta, n - 1, j) == x;
      assert x * y == y * x;
    }
  }

  /** Transposing a product reverses the order of its factors. */
  lemma TransposeOfProduct(a: Entries, b: Entries)
    ensures Transpose(Multiply(a, b)) == Multiply(Transpose(b), Transpose(a))
  {
    forall i, j | InRange(i, j)
      ensures Entry(Transpose(Multiply(a, b)), i, j) == Entry(Multiply(Transpose(b), Transpose(a)), i, j)
    {
      assert Entry(Transpose(Multiply(a, b)), i, j) == Entry(Multiply(a, b), j, i);
      TransposedRowByColumn(a, b, Transpose(a), Transpose(b), i, j, 4);
    }
    EqualByEntries(Transpose(Multiply(a, b)), Multiply(Transpose(b), Transpose(a)));
  }

  /** A four-term row-by-column sum times c, spread over the terms: ab * c == sum of a_k * (b_k * c). */
  lemma DistributeRight(a0: real, a1: real, a2: real, a3: real,
                        b0: real, b1: real, b2: real, b3: real, c: real, ab: real)
    requires ab == a0 * b0 + a1 * b1 + a2 * b2 + a3 * b3
    ensures ab * c == a0 * (b0 * c) + a1 * (b1 * c) + a2 * (b2 * c) + a3 * (b3 * c)
  {
  }

  /** a times a four-term sum, multiplied out. */
  lemma DistributeLeft(a: real, y0: real, y1: real, y2: real, y3: real, y: real)
    requires y == y0 + y1 + y2 + y3
    ensures a * y == a * y0 + a * y1 + a * y2 + a * y3
  {
  }

  /** Row u times the matrix whose rows are r0 to r3: component l sums u_k * r_k[l]. */
  function RowTimes(u: Vec4, r0: Vec4, r1: Vec4, r2: Vec4, r3: Vec4): Vec4 {
    Vec4(u.x * r0.x + u.y * r1.x + u.z * r2.x + u.w * r3.x,
           u.x * r0.y + u.y * r1.y + u.z * r2.y + u.w * r3.y,
           u.x * r0.z + u.y * r1.z + u.z * r2.z + u.w * r3.z,
           u.x * r0.w + u.y * r1.w + u.z * r2.w + u.w * r3.w)
  }

  /** The matrix whose rows are r0 to r3 times column v: component k is r_k dotted with v. */
  function TimesColumn(r0: Vec4, r1: Vec4, r2: Vec4, r3: Vec4, v: Vec4): Vec4 {
    Vec4(Dot(r0, v), Dot(r1, v), Dot(r2, v), Dot(r3, v))
  }

  /** The sixteen triple products u_k * (r_k[l] * v_l) of a row, a middle matrix given by rows, and a column. */
  function TripleSum(u: Vec4, r0: Vec4, r1: Vec4, r2: Vec4, r3: Vec4, v: Vec4): real {
    u.x * (r0.x * v.x) + u.x * (r0.y * v.y) + u.x * (r0.z * v.z) + u.x * (r0.w * v.w) +
      u.y * (r1.x * v.x) + u.y * (r1.y * v.y) + u.y * (r1.z * v.z) + u.y * (r1.w * v.w) +
      u.z * (r2.x * v.x) + u.z * (r2.y * v.y) + u.z * (r2.z * v.z) + u.z * (r2.w * v.w) +
      u.w * (r3.x * v.x) + u.w * (r3.y * v.y) + u.w * (r3.z * v.z) + u.w * (r3.w * v.w)
  }

  /** Row i of a * b is row i of a times b, whose rows are r0 to r3. */
  lemma RowOfProduct(a: Entries, b: Entries, i: int)
    requires 0 <= i < 4
    ensures Line(Multiply(a, b), i) == RowTimes(Line(a, i), Line(b, 0), Line(b, 1), Line(b, 2), Line(b, 3))
  {
    var u, r0, r1, r2, r3 := Line(a, i), Line(b, 0), Line(b, 1), Line(b, 2), Line(b, 3);
    var p := Line(Multiply(a, b), i);
    ProductEntry(a, b, i, 0, u.x, u.y, u.z, u.w, r0.x, r1.x, r2.x, r3.x);
    ProductEntry(a, b, i, 1, u.x, u.y, u.z, u.w, r0.y, r1.y, r2.y, r3.y);
    ProductEntry(a, b, i, 2, u.x, u.y, u.z, u.w, r0.z, r1.z, r2.z, r3.z);
    ProductEntry(a, b, i, 3, u.x, u.y, u.z, u.w, r0.w, r1.w, r2.w, r3.w);
    var t := RowTimes(u, r0, r1, r2, r3);
    assert p.x == t.x && p.y == t.y && p.z == t.z && p.w == t.w;
  }

  /** Column j of b * c is b, whose rows are r0 to r3, times column j of c. */
  lemma ColumnOfProduct(b: Entries, c: Entries, j: int)
    requires 0 <= j < 4
    ensures Column(Multiply(b, c), j) == TimesColumn(Line(b, 0), Line(b, 1), Line(b, 2), Line(b, 3), Column(c, j))
  {
    ProductIsRowDotColumn(b, c, 0, j);
    ProductIsRowDotColumn(b, c, 1, j);
    ProductIsRowDotColumn(b, c, 2, j);
    ProductIsRowDotColumn(b, c, 3, j);
  }

  /** A row times b, then times a column, multiplied out into the sixteen triple products. */
  lemma GroupedLeft(u: Vec4, r0: Vec4, r1: Vec4, r2: Vec4, r3: Vec4, v: Vec4)
    ensures Dot(RowTimes(u, r0, r1, r2, r3), v) == TripleSum(u, r0, r1, r2, r3, v)
  {
    var p := RowTimes(u, r0, r1, r2, r3);
    DistributeRight(u.x, u.y, u.z, u.w, r0.x, r1.x, r2.x, r3.x, v.x, p.x);
    DistributeRight(u.x, u.y, u.z, u.w, r0.y, r1.y, r2.y, r3.y, v.y, p.y);
    DistributeRight(u.x, u.y, u.z, u.w, r0.z, r1.z, r2.z, r3.z, v.z, p.z);
    DistributeRight(u.x, u.y, u.z, u.w, r0.w, r1.w, r2.w, r3.w, v.w, p.w);
  }

  /** A row times (b times a column), multiplied out into the same sixteen triple products. */
  lemma GroupedRight(u: Vec4, r0: Vec4, r1: Vec4, r2: Vec4, r3: Vec4, v: Vec4)
    ensures Dot(u, TimesColumn(r0, r1, r2, r3, v)) == TripleSum(u, r0, r1, r2, r3, v)
  {
    var q := TimesColumn(r0, r1, r2, r3, v);
    DistributeLeft(u.x, r0.x * v.x, r0.y * v.y, r0.z * v.z, r0.w * v.w, q.x);
    DistributeLeft(u.y, r1.x * v.x, r1.y * v.y, r1.z * v.z, r1.w * v.w, q.y);
    DistributeLeft(u.z, r2.x * v.x, r2.y * v.y, r2.z * v.z, r2.w * v.w, q.z);
    DistributeLeft(u.w, r3.x * v.x, r3.y * v.y, r3.z * v.z, r3.w * v.w, q.w);
  }

  /** Entry (i, j) agrees between (a * b) * c and a * (b * c). */
  lemma MultiplyAssociativeEntry(a: Entries, b: Entries, c: Entries, i: int, j: int)
    requires InRange(i, j)
    ensures Entry(Multiply(Multiply(a, b), c), i, j) == Entry(Multiply(a, Multiply(b, c)), i, j)
  {
    var u, v := Line(a, i), Column(c, j);
    var r0, r1, r2, r3 := Line(b, 0), Line(b, 1), Line(b, 2), Line(b, 3);
    RowOfProduct(a, b, i);
    ColumnOfProduct(b, c, j);
    ProductIsRowDotColumn(Multiply(a, b), c, i, j);
    ProductIsRowDotColumn(a, Multiply(b, c), i, j);
    GroupedLeft(u, r0, r1, r2, r3, v);
    GroupedRight(u, r0, r1, r2, r3, v);
  }

  lemma MultiplyAssociative(a: Entries, b: Entries, c: Entries)
    ensures Multiply(Multiply(a, b), c) == Multiply(a, Multiply(b, c))
  {
    forall i, j | InRange(i, j)
      ensures Entry(Multiply(Multiply(a, b), c), i, j) == Entry(Multiply(a, Multiply(b, c)), i, j)
    {
      MultiplyAssociativeEntry(a, b, c, i, j);
    }
    EqualByEntries(Multiply(Multiply(a, b), c), Multiply(a, Multiply(b, c)));
  }

  /** Multiplication is not commutative: a pair of matrices whose products differ by order. */
  lemma MultiplyNotCommutative()
    ensures var a := RowMajor(1.0, 1.0, 0.0, 0.0, 0.0, 1.0, 0.0, 0.0, 0.0, 0.0, 1.0, 0.0, 0.0, 0.0, 0.0, 1.0);
            var b := RowMajor(2.0, 0.0, 0.0, 0.0, 0.0, 1.0, 0.0, 0.0, 0.0, 0.0, 1.0, 0.0, 0.0, 0.0, 0.0, 1.0);
            Multiply(a, b) != Multiply(b, a)
  {
    var a := RowMajor(1.0, 1.0, 0.0, 0.0, 0.0, 1.0, 0.0, 0.0, 0.0, 0.0, 1.0, 0.0, 0.0, 0.0, 0.0, 1.0);
    var b := RowMajor(2.0, 0.0, 0.0, 0.0, 0.0, 1.0, 0.0, 0.0, 0.0, 0.0, 1.0, 0.0, 0.0, 0.0, 0.0, 1.0);
    ProductEntry(a, b, 0, 1, Entry(a, 0, 0), Entry(a, 0, 1), Entry(a, 0, 2), Entry(a, 0, 3), Entry(b, 0, 1), Entry(b, 1, 1), Entry(b, 2, 1), Entry(b, 3, 1));
    ProductEntry(b, a, 0, 1, Entry(b, 0, 0), Entry(b, 0, 1), Entry(b, 0, 2), Entry(b, 0, 3), Entry(a, 0, 1), Entry(a, 1, 1), Entry(a, 2, 1), Entry(a, 3, 1));
    assert Entry(Multiply(a, b), 0, 1) == 1.0;
    assert Entry(Multiply(b, a), 0, 1) == 2.0;
  }
}
