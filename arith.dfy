// Integer facts shared by the index arithmetic of the tracers and the
// dimension controls: monotonicity of multiplication, the uniqueness of a
// floored quotient, the ceiling quotient a `k < a / h` loop counts to, and
// JavaScript's `%`, `Math.ceil(a / b)` and `Math.round(a / b)` on integers.

module Arith {

  lemma MulLeq(a: int, b: int, c: nat)
    requires a <= b
    ensures a * c <= b * c
  {
  }

  lemma MulLt(a: int, b: int, c: nat)
    requires a < b && c > 0
    ensures a * c < b * c
  {
  }

  /** A strict product bound with a positive factor bounds the other factor. */
  lemma MulLtCancel(a: int, b: int, c: int)
    requires c > 0 && a * c < b * c
    ensures a < b
  {
  }

  /** The floored quotient is the one q with q·d <= a < (q+1)·d. */
  lemma DivUnique(a: nat, d: nat, q: nat)
    requires d > 0 && q * d <= a < (q + 1) * d
    ensures a / d == q
  {
    var r := a / d;
    assert r * d <= a < (r + 1) * d;
    if r < q {
      MulLeq(r + 1, q, d);
    } else if r > q {
      MulLeq(q + 1, r, d);
    }
  }

  /**
   * ⌈a / h⌉: the number of naturals k with k < a / h (in exact arithmetic),
   * which is how often `for (k = 0; k < a / h; k++)` runs.
   */
  function CeilDiv(a: nat, h: nat): (c: nat)
    requires h > 0
    ensures c * h >= a
    ensures c == 0 || (c - 1) * h < a
  {
    var q := (a + h - 1) / h;
    assert q * h + (a + h - 1) % h == a + h - 1;
    assert (q - 1) * h == q * h - h;
    q
  }

  /** k < ⌈a / h⌉ exactly when k·h < a, i.e. when k < a / h. */
  lemma CeilDivCounts(a: nat, h: nat, k: nat)
    requires h > 0
    ensures k < CeilDiv(a, h) <==> k * h < a
  {
    var c := CeilDiv(a, h);
    if k < c {
      MulLeq(k, c - 1, h);
    } else {
      MulLeq(c, k, h);
    }
  }

  /** With h dividing a, the loop count is the exact quotient. */
  lemma CeilDivExact(a: nat, h: nat)
    requires h > 0 && a % h == 0
    ensures CeilDiv(a, h) == a / h
  {
    var q := a / h;
    assert q * h == a;
    var c := CeilDiv(a, h);
    if c < q {
      MulLeq(c, q - 1, h);
    } else if c > q {
      MulLeq(q, c - 1, h);
    }
  }

  function Abs(a: int): (r: int)
    ensures r >= 0 && (r == a || r == -a)
  {
    if a < 0 then -a else a
  }

  /** JavaScript's `a % b` for b != 0: truncated toward zero, so it takes the sign of a. */
  function JsRem(a: int, b: int): (r: int)
    requires b != 0
    ensures Abs(r) < Abs(b)
    ensures a >= 0 ==> r >= 0
    ensures a <= 0 ==> r <= 0
  {
    if a >= 0 then a % Abs(b) else -((-a) % Abs(b))
  }

  /** A dividend smaller in size than the divisor is its own JavaScript remainder. */
  lemma JsRemSmall(a: int, b: int)
    requires b != 0 && Abs(a) < Abs(b)
    ensures JsRem(a, b) == a
  {
    var x := Abs(a);
    var m := Abs(b);
    var q := x / m;
    assert q * m + x % m == x;
    if q >= 1 {
      MulLeq(1, q, m);
    } else if q < 0 {
      MulLeq(q, -1, m);
    }
    assert x % m == x;
  }

  lemma MultipleMod(q: int, m: int)
    requires m != 0
    ensures (q * m) % m == 0
  {
    var r := (q * m) % m;
    var d := (q * m) / m;
    assert d * m + r == q * m;
    assert (q - d) * m == r;
    if q - d > 0 {
      MulLeq(1, q - d, Abs(m));
    } else if q - d < 0 {
      MulLeq(1, d - q, Abs(m));
    }
  }

  lemma ModZeroNeg(a: int, m: int)
    requires m != 0
    ensures (a % m == 0) == ((-a) % m == 0)
  {
    if a % m == 0 {
      var q := a / m;
      assert a == q * m;
      assert -a == (-q) * m;
      MultipleMod(-q, m);
    }
    if (-a) % m == 0 {
      var q := (-a) / m;
      assert -a == q * m;
      assert a == (-q) * m;
      MultipleMod(-q, m);
    }
  }

  lemma ModZeroAbs(a: int, b: int)
    requires b != 0
    ensures (a % b == 0) == (a % Abs(b) == 0)
  {
    if b < 0 {
      if a % b == 0 {
        var q := a / b;
        assert a == q * b;
        assert a == (-q) * (-b);
        MultipleMod(-q, -b);
      }
      if a % (-b) == 0 {
        var q := a / (-b);
        assert a == q * (-b);
        assert a == (-q) * b;
        MultipleMod(-q, b);
      }
    }
  }

  /** JavaScript's remainder is zero exactly when b divides a. */
  lemma JsRemZero(a: int, b: int)
    requires b != 0
    ensures JsRem(a, b) == 0 <==> a % b == 0
  {
    if a >= 0 {
      ModZeroAbs(a, b);
    } else {
      ModZeroAbs(-a, b);
      ModZeroNeg(a, b);
    }
  }

  /** `Math.ceil(a / b)`: the least integer at or above the exact quotient a / b. */
  function CeilQuot(a: int, b: int): (c: int)
    requires b != 0
    ensures b > 0 ==> c * b >= a && (c - 1) * b < a
    ensures b < 0 ==> c * b <= a && (c - 1) * b > a
  {
    if b > 0 then
      var q := (-a) / b;
      assert q * b + (-a) % b == -a;
      -q
    else
      var q := a / (-b);
      assert q * (-b) + a % (-b) == a;
      -q
  }

  /** With a >= 0 and b > 0, `Math.ceil(a / b)` is the loop count CeilDiv(a, b). */
  lemma CeilQuotOfNat(a: nat, b: nat)
    requires b > 0
    ensures CeilQuot(a, b) == CeilDiv(a, b)
  {
    var c := CeilQuot(a, b);
    var e := CeilDiv(a, b);
    if c < e {
      MulLeq(c, e - 1, b);
    } else if c > e {
      MulLeq(e, c - 1, b);
    }
  }

  /** `Math.round(a / b)`: the integer r with r - 1/2 <= a / b < r + 1/2 (halves round up). */
  function RoundQuot(a: int, b: int): (r: int)
    requires b != 0
    ensures b > 0 ==> 2 * r * b - b <= 2 * a < 2 * r * b + b
    ensures b < 0 ==> 2 * r * b - b >= 2 * a > 2 * r * b + b
  {
    if b > 0 then
      var q := (2 * a + b) / (2 * b);
      assert q * (2 * b) + (2 * a + b) % (2 * b) == 2 * a + b;
      q
    else
      var q := (-2 * a - b) / (-2 * b);
      assert q * (-2 * b) + (-2 * a - b) % (-2 * b) == -2 * a - b;
      q
  }
}
