/** Go's 64-bit integers. */
module GoInts {
  const TWO_63: int := 0x8000_0000_0000_0000
  const TWO_64: int := 0x1_0000_0000_0000_0000

  /** Two's-complement wrap-around of Go's int64: the number in range that
      differs by a multiple of 2^64. */
  function Wrap(n: int): (r: int)
    ensures -TWO_63 <= r < TWO_63
    decreases if n < 0 then -2 * n - 1 else 2 * n
  {
    if n < -TWO_63 then Wrap(n + TWO_64)
    else if n >= TWO_63 then Wrap(n - TWO_64)
    else n
  }

  lemma {:induction false} WrapShift(n: int)
    ensures Wrap(n + TWO_64) == Wrap(n)
  {
  }

  /** Wrapping early does not change a sum that is wrapped in the end. */
  lemma {:induction false} WrapSum(a: int, b: int)
    ensures Wrap(Wrap(a) + b) == Wrap(a + b)
    decreases if a < 0 then -2 * a - 1 else 2 * a
  {
    if a < -TWO_63 {
      WrapSum(a + TWO_64, b);
      WrapShift(a + b);
    } else if a >= TWO_63 {
      WrapSum(a - TWO_64, b);
      WrapShift(a - TWO_64 + b);
    }
  }

  lemma {:induction false} WrapTurns(n: int) returns (k: int)
    ensures Wrap(n) == n + k * TWO_64
    decreases if n < 0 then -2 * n - 1 else 2 * n
  {
    if n < -TWO_63 {
      k := WrapTurns(n + TWO_64);
      k := k + 1;
    } else if n >= TWO_63 {
      k := WrapTurns(n - TWO_64);
      k := k - 1;
    } else {
      k := 0;
    }
  }

  lemma {:induction false} SameWrap(a: int, b: int) returns (k: int)
    requires Wrap(a) == Wrap(b)
    ensures a == b + k * TWO_64
  {
    var i := WrapTurns(a);
    var j := WrapTurns(b);
    k := j - i;
  }

  /** Adding c goes unnoticed exactly if it is a multiple of 2^64. */
  lemma {:induction false} WrapDiffers(a: int, c: int)
    ensures Wrap(a + c) == Wrap(a) <==> c % TWO_64 == 0
  {
    var i := WrapTurns(a + c);
    var j := WrapTurns(a);
    var turns := i - j;
    assert Wrap(a + c) - Wrap(a) == c + turns * TWO_64;
    if c % TWO_64 == 0 {
      var q := c / TWO_64;
      assert Wrap(a + c) - Wrap(a) == (q + turns) * TWO_64;
    }
  }
}
