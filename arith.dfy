/** Facts about integer division by a positive divisor, shared by the
    scroll-wheel index arithmetic and the elapsed-time decomposition. */
module Arith {
  /** A non-zero multiple of b is at least b away from zero. */
  lemma MultipleBound(k: int, b: int)
    requires b > 0
    ensures k >= 1 ==> k * b >= b
    ensures k <= -1 ==> k * b <= -b
  {
    assert k * b == (k - 1) * b + b == (k + 1) * b - b;
    assert k >= 1 ==> (k - 1) * b >= 0;
    assert k <= -1 ==> (k + 1) * b <= 0;
  }

  /** Integer division has one answer: the q with q*b <= a < (q+1)*b. */
  lemma DivIsUnique(a: int, b: int, q: int)
    requires b > 0 && q * b <= a < q * b + b
    ensures a / b == q
  {
    var q', r := a / b, a % b;
    assert a == q' * b + r && 0 <= r < b;
    assert (q' - q) * b == q' * b - q * b;
    MultipleBound(q' - q, b);
  }

  /** 0 <= i <= j scales to 0 <= i*h <= j*h. */
  lemma ScaleWithin(i: int, j: int, h: int)
    requires 0 <= i <= j && h > 0
    ensures 0 <= i * h <= j * h
  {
    assert j * h == i * h + (j - i) * h;
  }
}
