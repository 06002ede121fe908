/**
 * The matrix type itself: a fixed block of 16 numbers that its
 * constructors and operators fill in place. Every operator returns a new
 * matrix and leaves its operands as they were.
 */
module Matrix {
  import opened Vectors
  import opened Layout

  class Matrix4x4 {
    /** The inline storage, row-major; it is never replaced, only written. */
    const elements: array<real>

    ghost predicate Valid() {
      elements.Length == 16
    }

    /** The value this matrix stands for. */
    ghost function Value(): Entries
      reads elements
      requires Valid()
    {
      elements[..]
    }

    /** Default construction: all 16 entries zero. */
    constructor ()
      ensures Valid() && fresh(elements)
      ensures Value() == Zero()
    {
      elements := new real[16](_ => 0.0);
    }

    /** Construction from 16 numbers given row by row. */
    constructor FromRows(e00: real, e01: real, e02: real, e03: real,
                         e10: real, e11: real, e12: real, e13: real,
                         e20: real, e21: real, e22: real, e23: real,
                         e30: real, e31: real, e32: real, e33: real)
      ensures Valid() && fresh(elements)
      ensures Value() == RowMajor(e00, e01, e02, e03, e10, e11, e12, e13,
                                  e20, e21, e22, e23, e30, e31, e32, e33)
    {
      elements := new real[16] [
        e00, e01, e02, e03,
        e10, e11, e12, e13,
        e20, e21, e22, e23,
        e30, e31, e32, e33];
    }

    static method Identity() returns (r: Matrix4x4)
      ensures r.Valid() && fresh(r.elements)
      ensures r.Value() == Layout.Identity()
    {
      r := new Matrix4x4.FromRows(
        1.0, 0.0, 0.0, 0.0,
        0.0, 1.0, 0.0, 0.0,
        0.0, 0.0, 1.0, 0.0,
        0.0, 0.0, 0.0, 1.0);
    }

    static method Transpose(mat: Matrix4x4) returns (r: Matrix4x4)
      requires mat.Valid()
      ensures r.Valid() && fresh(r.elements)
      ensures r.Value() == Layout.Transpose(mat.Value())
    {
      var e := mat.elements;
      r := new Matrix4x4.FromRows(
        e[0], e[4], e[8], e[12],
        e[1], e[5], e[9], e[13],
        e[2], e[6], e[10], e[14],
        e[3], e[7], e[11], e[15]);
    }

    /** Unchecked in the source: only rows and columns 0 to 3 are meaningful. */
    function Element(n: int, m: int): (r: real)
      reads elements
      requires Valid() && InRange(n, m)
      ensures r == Entry(Value(), n, m)
    {
      elements[n * 4 + m]
    }

    /** A copy of the 16 stored numbers; offset k holds row k / 4, column k % 4. */
    function Elements(): (s: seq<real>)
      reads elements
      requires Valid()
      ensures |s| == 16
      ensures forall k | 0 <= k < 16 :: s[k] == Element(k / 4, k % 4)
    {
      elements[..]
    }

    function Line(n: int): (v: Vec4)
      reads elements
      requires Valid() && 0 <= n < 4
      ensures v == Layout.Line(Value(), n)
      ensures forall m | 0 <= m < 4 :: v.Get(m) == Element(n, m)
    {
      Vec4(elements[n * 4 + 0], elements[n * 4 + 1], elements[n * 4 + 2], elements[n * 4 + 3])
    }

    function Column(m: int): (v: Vec4)
      reads elements
      requires Valid() && 0 <= m < 4
      ensures v == Layout.Column(Value(), m)
      ensures forall n | 0 <= n < 4 :: v.Get(n) == Element(n, m)
    {
      Vec4(elements[0 * 4 + m], elements[1 * 4 + m], elements[2 * 4 + m], elements[3 * 4 + m])
    }

    /**
     * The backing storage itself, without a copy, for byte-for-byte upload.
     * Callers treat it as read-only.
     */
    function Data(): (d: array<real>)
      reads elements
      requires Valid()
      ensures d == elements
      ensures d.Length == 16 && forall k | 0 <= k < 16 :: d[k] == Element(k / 4, k % 4)
    {
      elements
    }

    method Plus(other: Matrix4x4) returns (r: Matrix4x4)
      requires Valid() && other.Valid()
      ensures r.Valid() && fresh(r.elements)
      ensures r.Value() == Add(Value(), other.Value())
    {
      r := new Matrix4x4();
      for i := 0 to 16
        invariant forall k | 0 <= k < i :: r.elements[k] == elements[k] + other.elements[k]
      {
        r.elements[i] := elements[i] + other.elements[i];
      }
    }

    method Negated() returns (r: Matrix4x4)
      requires Valid()
      ensures r.Valid() && fresh(r.elements)
      ensures r.Value() == Negate(Value())
    {
      r := new Matrix4x4();
      for i := 0 to 16
        invariant forall k | 0 <= k < i :: r.elements[k] == -elements[k]
      {
        r.elements[i] := -elements[i];
      }
    }

    method Minus(other: Matrix4x4) returns (r: Matrix4x4)
      requires Valid() && other.Valid()
      ensures r.Valid() && fresh(r.elements)
      ensures r.Value() == Subtract(Value(), other.Value())
    {
      var negated := other.Negated();
      r := Plus(negated);
    }

    /** Row i of this matrix times column j of `other`: one slot of their product. */
    method RowTimesColumn(other: Matrix4x4, i: int, j: int) returns (x: real)
      requires Valid() && other.Valid() && InRange(i, j)
      ensures x == Entry(Multiply(Value(), other.Value()), i, j)
    {
      x := Element(i, 0) * other.Element(0, j) + Element(i, 1) * other.Element(1, j) +
           Element(i, 2) * other.Element(2, j) + Element(i, 3) * other.Element(3, j);
      ProductEntry(Value(), other.Value(), i, j, Element(i, 0), Element(i, 1), Element(i, 2), Element(i, 3),
                   other.Element(0, j), other.Element(1, j), other.Element(2, j), other.Element(3, j));
    }

    /** Fills the 16 result slots in order, slot i * 4 + j from row i and column j. */
    method Times(other: Matrix4x4) returns (r: Matrix4x4)
      requires Valid() && other.Valid()
      ensures r.Valid() && fresh(r.elements)
      ensures r.Value() == Multiply(Value(), other.Value())
    {
      r := new Matrix4x4();
      for k := 0 to 16
        invariant forall s | 0 <= s < k :: r.elements[s] == Multiply(Value(), other.Value())[s]
      {
        r.elements[k] := RowTimesColumn(other, k / 4, k % 4);
      }
    }
  }
}
