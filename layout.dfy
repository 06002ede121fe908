/**
 * The value a 4x4 matrix stands for: its 16 numbers in row-major order,
 * so that row n, column m sits at offset n * 4 + m. Every operation of the
 * matrix type is specified here as a function of these sequences.
 */
module Layout {
  import opened Vectors

  /** The 16 stored numbers, row 0 first. */
  type Entries = s: seq<real> | |s| == 16
    witness [0.0, 0.0, 0.0, 0.0, 0.0, 0.0, 0.0, 0.0, 0.0, 0.0, 0.0, 0.0, 0.0, 0.0, 0.0, 0.0]

  /** Row and column indices that address a stored entry. */
  predicate InRange(n: int, m: int) {
    0 <= n < 4 && 0 <= m < 4
  }

  /** The addressing rule: row n, column m lives at offset n * 4 + m. */
  function Entry(e: Entries, n: int, m: int): real
    requires InRange(n, m)
  {
    e[n * 4 + m]
  }

  /**
   * The addressing rule is a one-to-one correspondence between the 16 in-range
   * (row, column) pairs and the 16 offsets: every offset k is addressed by row
   * k / 4, column k % 4, and every in-range pair lands on an offset from which
   * its row and column are recovered.
   */
  lemma Addressing()
    ensures forall k | 0 <= k < 16 :: InRange(k / 4, k % 4) && (k / 4) * 4 + k % 4 == k
    ensures forall n, m | InRange(n, m) :: 0 <= n * 4 + m < 16 && (n * 4 + m) / 4 == n && (n * 4 + m) % 4 == m
  {
  }

  /** The default-constructed matrix. */
  function Zero(): (r: Entries)
    ensures forall n, m | InRange(n, m) :: Entry(r, n, m) == 0.0
  {
    seq(16, _ => 0.0)
  }

  /** The 16-argument constructor: arguments taken in row-major reading order. */
  function RowMajor(e00: real, e01: real, e02: real, e03: real,
                    e10: real, e11: real, e12: real, e13: real,
                    e20: real, e21: real, e22: real, e23: real,
                    e30: real, e31: real, e32: real, e33: real): (r: Entries)
    ensures Entry(r, 0, 0) == e00 && Entry(r, 0, 1) == e01 && Entry(r, 0, 2) == e02 && Entry(r, 0, 3) == e03
    ensures Entry(r, 1, 0) == e10 && Entry(r, 1, 1) == e11 && Entry(r, 1, 2) == e12 && Entry(r, 1, 3) == e13
    ensures Entry(r, 2, 0) == e20 && Entry(r, 2, 1) == e21 && Entry(r, 2, 2) == e22 && Entry(r, 2, 3) == e23
    ensures Entry(r, 3, 0) == e30 && Entry(r, 3, 1) == e31 && Entry(r, 3, 2) == e32 && Entry(r, 3, 3) == e33
  {
    [e00, e01, e02, e03,
     e10, e11, e12, e13,
     e20, e21, e22, e23,
     e30, e31, e32, e33]
  }

  /** One on the main diagonal, zero elsewhere. */
  function Identity(): (r: Entries)
    ensures forall n, m | InRange(n, m) :: Entry(r, n, m) == if n == m then 1.0 else 0.0
  {
    RowMajor(1.0, 0.0, 0.0, 0.0,
             0.0, 1.0, 0.0, 0.0,
             0.0, 0.0, 1.0, 0.0,
             0.0, 0.0, 0.0, 1.0)
  }

  /** Rows become columns: the stored offsets are permuted, nothing is computed. */
  function Transpose(e: Entries): (r: Entries)
    ensures forall n, m | InRange(n, m) :: Entry(r, n, m) == Entry(e, m, n)
  {
    RowMajor(e[0], e[4], e[8], e[12],
             e[1], e[5], e[9], e[13],
             e[2], e[6], e[10], e[14],
             e[3], e[7], e[11], e[15])
  }

  /** Row n, read from four contiguous offsets. */
  function Line(e: Entries, n: int): (v: Vec4)
    requires 0 <= n < 4
    ensures forall m | 0 <= m < 4 :: v.Get(m) == Entry(e, n, m)
  {
    Vec4(e[n * 4 + 0], e[n * 4 + 1], e[n * 4 + 2], e[n * 4 + 3])
  }

  /** Column m, read from four offsets a stride of 4 apart. */
  function Column(e: Entries, m: int): (v: Vec4)
    requires 0 <= m < 4
    ensures forall n | 0 <= n < 4 :: v.Get(n) == Entry(e, n, m)
  {
    Vec4(e[0 * 4 + m], e[1 * 4 + m], e[2 * 4 + m], e[3 * 4 + m])
  }

  /** Entry-by-entry sum. */
  function Add(a: Entries, b: Entries): (r: Entries)
    ensures forall n, m | InRange(n, m) :: Entry(r, n, m) == Entry(a, n, m) + Entry(b, n, m)
  {
    seq(16, i requires 0 <= i < 16 => a[i] + b[i])
  }

  /** Entry-by-entry negation. */
  function Negate(a: Entries): (r: Entries)
    ensures forall n, m | InRange(n, m) :: Entry(r, n, m) == -Entry(a, n, m)
  {
    seq(16, i requires 0 <= i < 16 => -a[i])
  }

  /** Binary minus, defined as in the source by adding the negated operand. */
  function Subtract(a: Entries, b: Entries): (r: Entries)
    ensures forall i | 0 <= i < 16 :: r[i] == a[i] - b[i]
  {
    Add(a, Negate(b))
  }

  /** The first n terms of row i of `a` times column j of `b`: the sum over k < n of a(i, k) * b(k, j). */
  function RowByColumn(a: Entries, b: Entries, i: int, j: int, n: nat): real
    requires InRange(i, j) && n <= 4
  {
    if n == 0 then 0.0
    else RowByColumn(a, b, i, j, n - 1) + Entry(a, i, n - 1) * Entry(b, n - 1, j)
  }

  /** The product: slot k = i * 4 + j holds row i of `a` times column j of `b`. */
  function Multiply(a: Entries, b: Entries): (r: Entries)
    ensures forall i, j {:trigger Entry(r, i, j)} | InRange(i, j) :: Entry(r, i, j) == RowByColumn(a, b, i, j, 4)
  {
    seq(16, k requires 0 <= k < 16 => RowByColumn(a, b, k / 4, k % 4, 4))
  }

  /**
   * Entry (i, j) of a product, given the row and column entries it reads,
   * is their written-out row-by-column sum.
   */
  lemma ProductEntry(a: Entries, b: Entries, i: int, j: int,
                     a0: real, a1: real, a2: real, a3: real,
                     b0: real, b1: real, b2: real, b3: real)
    requires InRange(i, j)
    requires a0 == Entry(a, i, 0) && a1 == Entry(a, i, 1) && a2 == Entry(a, i, 2) && a3 == Entry(a, i, 3)
    requires b0 == Entry(b, 0, j) && b1 == Entry(b, 1, j) && b2 == Entry(b, 2, j) && b3 == Entry(b, 3, j)
    ensures Entry(Multiply(a, b), i, j) == a0 * b0 + a1 * b1 + a2 * b2 + a3 * b3
  {
    assert RowByColumn(a, b, i, j, 1) == a0 * b0;
    assert RowByColumn(a, b, i, j, 2) == a0 * b0 + a1 * b1;
    assert RowByColumn(a, b, i, j, 3) == a0 * b0 + a1 * b1 + a2 * b2;
  }

  /** Entry (i, j) of a product is row i of the left factor dotted with column j of the right. */
  lemma ProductIsRowDotColumn(a: Entries, b: Entries, i: int, j: int)
    requires InRange(i, j)
    ensures Entry(Multiply(a, b), i, j) == Dot(Line(a, i), Column(b, j))
  {
    var u, v := Line(a, i), Column(b, j);
    ProductEntry(a, b, i, j, u.x, u.y, u.z, u.w, v.x, v.y, v.z, v.w);
  }
}
