/** Python's integer operators, as the driver uses them on unbounded ints.
    `<<` multiplies by a power of two, `>>` divides rounding toward negative
    infinity, `//` is floor division for either sign of divisor, and `|` is
    bitwise or on the infinite two's-complement representation. */
module PyInt {

  function Abs(x: int): (r: nat)
    ensures r == x || r == -x
  {
    if x < 0 then -x else x
  }

  function Pow2(k: nat): (r: nat)
    ensures r >= 1
  {
    if k == 0 then 1 else 2 * Pow2(k - 1)
  }

  lemma {:induction false} Pow2Add(a: nat, b: nat)
    ensures Pow2(a + b) == Pow2(a) * Pow2(b)
  {
    if a > 0 {
      Pow2Add(a - 1, b);
      assert Pow2(a + b) == 2 * Pow2(a - 1 + b);
    }
  }

  /** The byte and word sizes the driver shifts by. */
  lemma Pow2Bytes()
    ensures Pow2(8) == 0x100 && Pow2(16) == 0x10000 && Pow2(24) == 0x1000000
  {
    assert Pow2(8) == 0x100;
    Pow2Add(8, 8);
    Pow2Add(16, 8);
  }

  /** Python `x << k`: no bits are lost, so shifting back gives x. */
  function Shl(x: int, k: nat): (r: int)
    ensures Shr(r, k) == x
  {
    DivideExactly(x * Pow2(k), Pow2(k), x, 0);
    x * Pow2(k)
  }

  /** Python `x >> k`: the floor of x / 2^k, also for negative x. */
  function Shr(x: int, k: nat): (r: int)
    ensures r * Pow2(k) <= x < r * Pow2(k) + Pow2(k)
  {
    x / Pow2(k)
  }

  lemma MulMonotone(a: int, b: int, c: nat)
    requires a >= b
    ensures a * c >= b * c
  {
  }

  lemma ShrMonotone(x: int, y: int, k: nat)
    requires x <= y
    ensures Shr(x, k) <= Shr(y, k)
  {
    var qx, qy, unit := Shr(x, k), Shr(y, k), Pow2(k);
    if qx > qy {
      MulMonotone(qx, qy + 1, unit);
      assert false;
    }
  }

  /** Euclidean division is determined by quotient and remainder. */
  lemma DivideExactly(x: int, d: int, q: int, r: int)
    requires d > 0 && x == d * q + r && 0 <= r < d
    ensures x / d == q
  {
    var q', r' := x / d, x % d;
    if q' < q {
      MulMonotone(q, q' + 1, d);
      assert false;
    }
    if q' > q {
      MulMonotone(q', q + 1, d);
      assert false;
    }
  }

  /** A value below 2^(k+m), shifted right by k, is below 2^m. */
  lemma ShrBelow(x: int, k: nat, m: nat)
    requires 0 <= x < Pow2(k + m)
    ensures 0 <= Shr(x, k) < Pow2(m)
  {
    var q, unit, limit := Shr(x, k), Pow2(k), Pow2(m);
    assert q * unit <= x;
    Pow2Add(k, m);
    assert x < limit * unit;
    if q >= limit {
      MulMonotone(q, limit, unit);
      assert false;
    }
    if q < 0 {
      MulMonotone(-1, q, unit);
      assert false;
    }
  }

  /** Python `a // b`: the floor of a / b. Dafny's `/` agrees with it only
      for a positive divisor, so a negative one is reflected first. */
  function FloorDiv(a: int, b: int): (q: int)
    requires b != 0
    ensures b > 0 ==> q * b <= a < q * b + b
    ensures b < 0 ==> q * b + b < a <= q * b
  {
    if b > 0 then a / b else (-a) / (-b)
  }

  /** Python `a | b`, bit by bit from the least significant end; 0 and -1
      are the two integers whose bits are all equal. */
  function Or(a: int, b: int): (r: int)
    ensures a >= 0 && b >= 0 ==> a <= r <= a + b && b <= r
    ensures a < 0 || b < 0 ==> r < 0
    decreases Abs(a) + Abs(b)
  {
    if (a == 0 || a == -1) && (b == 0 || b == -1) then
      (if a == -1 || b == -1 then -1 else 0)
    else
      2 * Or(a / 2, b / 2) + (if a % 2 == 1 || b % 2 == 1 then 1 else 0)
  }

  lemma {:induction false} OrCommutative(a: int, b: int)
    ensures Or(a, b) == Or(b, a)
    decreases Abs(a) + Abs(b)
  {
    if !((a == 0 || a == -1) && (b == 0 || b == -1)) {
      OrCommutative(a / 2, b / 2);
    }
  }

  lemma {:induction false} OrZero(x: int)
    ensures Or(x, 0) == x
    decreases Abs(x)
  {
    if x != 0 && x != -1 {
      OrZero(x / 2);
    }
  }

  /** Shifting both operands left shifts their or. */
  lemma {:induction false} OrShifted(a: int, b: int, k: nat)
    ensures Or(a * Pow2(k), b * Pow2(k)) == Or(a, b) * Pow2(k)
  {
    if k > 0 {
      var x, y, o := a * Pow2(k - 1), b * Pow2(k - 1), Or(a, b);
      MulPow2Step(a, k);
      MulPow2Step(b, k);
      MulPow2Step(o, k);
      OrDouble(x, y);
      OrShifted(a, b, k - 1);
    }
  }

  lemma MulPow2Step(a: int, k: nat)
    requires k > 0
    ensures a * Pow2(k) == 2 * (a * Pow2(k - 1))
  {
  }

  lemma OrDouble(x: int, y: int)
    ensures Or(2 * x, 2 * y) == 2 * Or(x, y)
  {
    if !(2 * x == 0 && 2 * y == 0) {
      assert (2 * x) / 2 == x && (2 * x) % 2 == 0;
      assert (2 * y) / 2 == y && (2 * y) % 2 == 0;
    }
  }

  /** Or-ing a value into low bits that are known to be zero is addition. */
  lemma {:induction false} OrDisjoint(h: int, k: nat, l: int)
    requires 0 <= l < Pow2(k)
    ensures Or(h * Pow2(k), l) == h * Pow2(k) + l
  {
    if k == 0 {
      OrZero(h);
    } else {
      var x := h * Pow2(k);
      assert x == 2 * (h * Pow2(k - 1));
      assert x / 2 == h * Pow2(k - 1) && x % 2 == 0;
      if (x == 0 || x == -1) && (l == 0 || l == -1) {
        assert x == 0 && l == 0;
      } else {
        OrDisjoint(h, k - 1, l / 2);
        assert Or(x, l) == 2 * Or(x / 2, l / 2) + (if l % 2 == 1 then 1 else 0);
      }
    }
  }
}
