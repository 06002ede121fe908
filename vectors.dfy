/** The four-component value a matrix row or column is read into. */
module Vectors {

  /** Components x, y, z, w, in that order. */
  datatype Vec4 = Vec4(x: real, y: real, z: real, w: real) {

    /** Component `i`, counting x as 0 and w as 3. */
    function Get(i: int): real
      requires 0 <= i < 4
    {
      if i == 0 then x else if i == 1 then y else if i == 2 then z else w
    }
  }

  /** The dot product: the sum of the four componentwise products. */
  function Dot(a: Vec4, b: Vec4): real {
    a.x * b.x + a.y * b.y + a.z * b.z + a.w * b.w
  }
}
