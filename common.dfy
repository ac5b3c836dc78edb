/** Small value types shared by the shape classifier, the tracker and the
    state machine. */
module Common {

  datatype Option<T> = None | Some(value: T)

  /** An integer pixel position. */
  datatype Point = Point(x: int, y: int)

  /** The result of `cv2.boundingRect`: top-left corner, width and height. */
  datatype Box = Box(x: int, y: int, w: int, h: int)

  function Max(a: int, b: int): (r: int)
    ensures r >= a && r >= b && (r == a || r == b)
  {
    if a >= b then a else b
  }

  /** Python's `int()` applied to the quotient `a / b`: the quotient rounded
      toward zero. Dafny's own `/` is Euclidean, so negative dividends are
      handled separately. */
  function TruncDiv(a: int, b: int): (r: int)
    requires b > 0
    ensures a >= 0 ==> 0 <= r && r * b <= a < r * b + b
    ensures a < 0 ==> r <= 0 && r * b - b < a <= r * b
  {
    if a >= 0 then DivBounds(a, b); a / b
    else DivBounds(-a, b); -((-a) / b)
  }

  /** Euclidean division of a non-negative dividend brackets it between two
      consecutive multiples of the divisor. */
  lemma DivBounds(n: int, b: int)
    requires n >= 0 && b > 0
    ensures 0 <= n / b && (n / b) * b <= n < (n / b) * b + b
  {
    assert n == (n / b) * b + n % b;
  }
}
