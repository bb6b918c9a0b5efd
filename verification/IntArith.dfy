/** Integer exponentiation and floor division on 64-bit integers: the interpreter's checked forms
    and the runtime kernel's wrapping form, each against exact integer arithmetic. */
module IntArith {
  import opened Options

  const TWO63: int := 0x8000_0000_0000_0000
  const TWO64: int := 0x1_0000_0000_0000_0000

  /** The values of a signed 64-bit integer. */
  predicate Fits(x: int) {
    -TWO63 <= x < TWO63
  }

  /** A signed 64-bit integer. */
  type I64 = x: int | Fits(x)

  /** An unsigned 64-bit integer. */
  type U64 = x: int | 0 <= x < TWO64

  /** The exact power. */
  function Power(b: int, e: nat): int {
    if e == 0 then 1 else b * Power(b, e - 1)
  }

  /** The two's complement reading of the low 64 bits of `x`. */
  function Wrap(x: int): (r: I64)
    ensures (x - r) % TWO64 == 0
  {
    var m := x % TWO64;
    assert (x - m) % TWO64 == 0 && (x - m + TWO64) % TWO64 == 0 by {
      assert x == x / TWO64 * TWO64 + m;
    }
    if m < TWO63 then m else m - TWO64
  }

  function CheckedMul(a: I64, b: I64): Option<int> {
    if Fits(a * b) then Some(a * b) else None
  }

  // ----- Exact powers -----

  lemma {:induction false} PowerSquare(b: int, n: nat)
    ensures Power(b * b, n) == Power(b, 2 * n)
  {
    if n > 0 {
      PowerSquare(b, n - 1);
      var p := Power(b, 2 * (n - 1));
      assert Power(b, 2 * n) == b * (b * p);
      assert b * (b * p) == b * b * p;
    }
  }

  /** One squaring step: the exponent's low bit decides whether the base is multiplied in. */
  lemma {:induction false} PowerHalve(b: int, e: nat)
    ensures Power(b, e) == (if e % 2 == 1 then b else 1) * Power(b * b, e / 2)
  {
    PowerSquare(b, e / 2);
    if e % 2 == 1 {
      assert e == 2 * (e / 2) + 1;
    } else {
      assert e == 2 * (e / 2);
    }
  }

  lemma {:induction false} PowerOfPositive(b: int, n: nat)
    requires b >= 1
    ensures Power(b, n) >= 1
    ensures n >= 1 ==> Power(b, n) >= b
  {
    if n > 0 {
      PowerOfPositive(b, n - 1);
      assert b * Power(b, n - 1) >= b * 1 by { MulGrows(b, 1, Power(b, n - 1)); }
    }
  }

  lemma MulGrows(a: int, b: int, c: int)
    requires a >= 0 && b <= c
    ensures a * b <= a * c
  {
    assert a * (c - b) >= 0;
    assert a * (c - b) == a * c - a * b;
  }

  /** 2^63 is not a perfect square, so a square that leaves the range leaves it strictly. */
  lemma SquareSkipsBound(b: int)
    requires b * b >= TWO63
    ensures b * b > TWO63
  {
    var m := if b < 0 then -b else b;
    assert m * m == b * b;
    if m <= 3037000499 {
      MulGrows(m, m, 3037000499);
      MulGrows(3037000499, m, 3037000499);
      assert false;
    } else {
      MulGrows(m, 3037000500, m);
      MulGrows(3037000500, 3037000500, m);
    }
  }

  /** A positive factor cannot bring a product back into range. */
  lemma PositiveFactorKeepsOverflow(x: int, k: int)
    requires !Fits(x) && k >= 1
    ensures !Fits(x * k)
  {
    if x >= TWO63 {
      MulGrows(x, 1, k);
    } else {
      MulGrows(-x, 1, k);
      assert (-x) * k == -(x * k);
    }
  }

  /** A square that overflows is no larger than the result, which then overflows too: the only
      magnitude a negative result could still fit at is 2^63, which no square equals. */
  lemma SquareOverflowIsFinal(acc: int, base: int, n: nat)
    requires acc != 0 && n >= 1
    requires !Fits(base * base)
    ensures !Fits(acc * Power(base * base, n))
  {
    assert base * base >= 0 by { if base < 0 { assert base * base == (-base) * (-base); } }
    SquareSkipsBound(base);
    var p := Power(base * base, n);
    PowerOfPositive(base * base, n);
    if acc > 0 {
      MulGrows(p, 1, acc);
    } else {
      MulGrows(p, 1, -acc);
      assert p * -acc == -(acc * p);
    }
  }

  // ----- The interpreter's checked power -----

  /** What `base ** exponent` is: the exact power, where it exists and fits. */
  function PowerSpec(base: int, exponent: int): (r: Option<int>) {
    if exponent >= 0 && Fits(Power(base, exponent)) then Some(Power(base, exponent)) else None
  }

  /** The squaring loop stops at the first product or square that overflows, and still answers
      exactly where the true power fits. */
  method IntPow(base: I64, exponent: I64) returns (r: Option<int>)
    ensures r == PowerSpec(base, exponent)
  {
    if exponent < 0 {
      return None;
    }
    var b, e: nat, acc := base, exponent, 1;
    while e > 0
      invariant Fits(b) && Fits(acc)
      invariant acc * Power(b, e) == Power(base, exponent)
      invariant acc == 0 ==> b == 0
      decreases e
    {
      PowerHalve(b, e);
      ghost var p := Power(b * b, e / 2);
      if e % 2 == 1 {
        assert acc * (b * p) == acc * b * p;
        match CheckedMul(acc, b) {
          case None =>
            assert b != 0;
            assert b * b >= 1 by { if b < 0 { assert b * b == (-b) * (-b); } }
            PowerOfPositive(b * b, e / 2);
            PositiveFactorKeepsOverflow(acc * b, p);
            return None;
          case Some(product) =>
            assert product == 0 ==> b == 0;
            acc := product;
        }
      }
      e := e / 2;
      if e > 0 {
        match CheckedMul(b, b) {
          case None =>
            SquareOverflowIsFinal(acc, b, e);
            return None;
          case Some(square) =>
            b := square;
        }
      } else {
        assert acc * Power(b * b, 0) == acc * Power(b, 0);
      }
    }
    return Some(acc);
  }

  // ----- The runtime kernel's wrapping power -----

  ghost predicate Congruent(x: int, y: int) {
    (x - y) % TWO64 == 0
  }

  lemma CongruentMul(a: int, b: int, c: int, d: int)
    requires Congruent(a, b) && Congruent(c, d)
    ensures Congruent(a * c, b * d)
  {
    var j, k := (a - b) / TWO64, (c - d) / TWO64;
    assert a == b + j * TWO64 && c == d + k * TWO64;
    var q := j * d + b * k + j * k * TWO64;
    calc {
      a * c - b * d;
      (b + j * TWO64) * (d + k * TWO64) - b * d;
      { MulOut(b, j * TWO64, d, k * TWO64); }
      b * (k * TWO64) + (j * TWO64) * d + (j * TWO64) * (k * TWO64);
      { assert b * (k * TWO64) == b * k * TWO64; assert (j * TWO64) * d == j * d * TWO64;
        assert (j * TWO64) * (k * TWO64) == j * k * TWO64 * TWO64; }
      q * TWO64;
    }
  }

  lemma MulOut(a: int, b: int, c: int, d: int)
    ensures (a + b) * (c + d) - a * c == a * d + b * c + b * d
  {
  }

  lemma {:induction false} CongruentPower(a: int, b: int, n: nat)
    requires Congruent(a, b)
    ensures Congruent(Power(a, n), Power(b, n))
  {
    if n > 0 {
      CongruentPower(a, b, n - 1);
      CongruentMul(a, b, Power(a, n - 1), Power(b, n - 1));
    }
  }

  lemma CongruentTrans(a: int, b: int, c: int)
    requires Congruent(a, b) && Congruent(b, c)
    ensures Congruent(a, c)
  {
    var j, k := (a - b) / TWO64, (b - c) / TWO64;
    assert a - c == (j + k) * TWO64;
  }

  /** Two 64-bit integers with the same residue are the same integer. */
  lemma CongruentFits(a: int, b: int)
    requires Fits(a) && Fits(b) && Congruent(a, b)
    ensures a == b
  {
    var j := (a - b) / TWO64;
    assert a - b == j * TWO64;
    assert -TWO64 < a - b < TWO64;
  }

  /** The runtime's squaring loop, which wraps every product: the exact power modulo 2^64, and so,
      by `CongruentFits`, the one signed 64-bit integer that is. */
  method Raised(base: I64, exponent: U64) returns (r: I64)
    ensures Congruent(r, Power(base, exponent))
  {
    var b: I64, e: nat, acc: I64 := base, exponent, 1;
    while e > 0
      invariant Congruent(acc * Power(b, e), Power(base, exponent))
      decreases e
    {
      PowerHalve(b, e);
      ghost var p := Power(b * b, e / 2);
      ghost var before := acc * Power(b, e);
      if e % 2 == 1 {
        assert before == acc * b * p by { assert acc * (b * p) == acc * b * p; }
        CongruentMul(Wrap(acc * b), acc * b, p, p) by { assert Congruent(acc * b, Wrap(acc * b)); Flip(acc * b,
            Wrap(acc * b)); }
        acc := Wrap(acc * b);
      }
      assert Congruent(acc * p, before);
      CongruentTrans(acc * p, before, Power(base, exponent));
      e := e / 2;
      if e > 0 {
        Flip(b * b, Wrap(b * b));
        CongruentPower(Wrap(b * b), b * b, e);
        CongruentMul(acc, acc, Power(Wrap(b * b), e), p);
        CongruentTrans(acc * Power(Wrap(b * b), e), acc * p, Power(base, exponent));
        b := Wrap(b * b);
      } else {
        assert acc * Power(b, 0) == acc * p;
      }
    }
    assert acc * Power(b, 0) == acc;
    return acc;
  }

  lemma Flip(a: int, b: int)
    requires Congruent(a, b)
    ensures Congruent(b, a)
  {
    var j := (a - b) / TWO64;
    assert b - a == -j * TWO64;
  }

  /** Wherever the interpreter's power is defined, the runtime's is the same number. */
  lemma PowersAgree(base: I64, exponent: I64, r: I64)
    requires PowerSpec(base, exponent).Some? && Congruent(r, Power(base, exponent))
    ensures PowerSpec(base, exponent) == Some(r)
  {
    CongruentFits(r, Power(base, exponent));
  }

  // ----- Floor division -----

  /** Division truncating toward zero, the machine's. */
  function TruncDiv(a: int, b: int): int
    requires b != 0
  {
    if a >= 0 then a / b else -((-a) / b)
  }

  function TruncMod(a: int, b: int): int
    requires b != 0
  {
    a - b * TruncDiv(a, b)
  }

  /** The greatest integer at or below the exact quotient. */
  ghost predicate IsFloor(a: int, b: int, q: int)
    requires b != 0
  {
    if b > 0 then b * q <= a < b * (q + 1) else b * q >= a > b * (q + 1)
  }

  lemma FloorUnique(a: int, b: int, p: int, q: int)
    requires b != 0 && IsFloor(a, b, p) && IsFloor(a, b, q)
    ensures p == q
  {
    if p < q {
      FloorBelow(a, b, p, q);
    } else if q < p {
      FloorBelow(a, b, q, p);
    }
  }

  lemma FloorBelow(a: int, b: int, p: int, q: int)
    requires b != 0 && p < q && IsFloor(a, b, p)
    ensures !IsFloor(a, b, q)
  {
    if b > 0 {
      MulGrows(b, p + 1, q);
    } else {
      assert (-b) * q == -(b * q) && (-b) * (p + 1) == -(b * (p + 1));
      MulGrows(-b, p + 1, q);
    }
  }

  /** The kernel's quotient: truncated, less one where a remainder was cut off below zero. */
  function FloorQuotient(a: int, b: int): (q: int)
    requires b != 0
    ensures IsFloor(a, b, q)
  {
    var t := TruncDiv(a, b);
    TruncDivBounds(a, b);
    if TruncMod(a, b) != 0 && (a < 0) != (b < 0) then t - 1 else t
  }

  /** A truncated quotient's remainder has the dividend's sign and is smaller than the divisor. */
  lemma TruncDivBounds(a: int, b: int)
    requires b != 0
    ensures var r := TruncMod(a, b);
            && (if b > 0 then -b < r < b else b < r < -b)
            && (a >= 0 ==> r >= 0) && (a <= 0 ==> r <= 0)
  {
    var n := if a >= 0 then a else -a;
    var q := n / b;
    assert n == b * q + n % b;
    assert b * -q == -(b * q);
  }

  /** The interpreter's `//`: undefined for a zero divisor and for the one quotient that does not
      fit, the floor everywhere else. */
  function FloorDiv(a: int, b: int): (r: Option<int>)
    requires Fits(a) && Fits(b)
    ensures r.Some? ==> b != 0 && IsFloor(a, b, r.value) && Fits(r.value)
    ensures r.None? ==> b == 0 || forall q | Fits(q) :: !IsFloor(a, b, q)
  {
    if b == 0 then None
    else if a == -TWO63 && b == -1 then
      assert forall q | Fits(q) :: !IsFloor(a, b, q) by {
        forall q | Fits(q) ensures !IsFloor(a, b, q) {
          if IsFloor(a, b, q) { FloorUnique(a, b, q, TWO63); }
        }
      }
      None
    else
      FloorFits(a, b, FloorQuotient(a, b));
      Some(FloorQuotient(a, b))
  }

  /** Only `MIN // -1` leaves the range. */
  lemma FloorFits(a: int, b: int, q: int)
    requires Fits(a) && Fits(b) && b != 0 && IsFloor(a, b, q)
    requires !(a == -TWO63 && b == -1)
    ensures Fits(q)
  {
    if b > 0 {
      if q >= TWO63 { MulGrows(q, 1, b); }
      if q < -TWO63 { MulGrows(-(q + 1), 1, b); }
    } else if b == -1 {
      assert q == -a;
    } else {
      if q >= TWO63 { MulGrows(q, 2, -b); }
      if q < -TWO63 { MulGrows(-(q + 1), 2, -b); }
    }
  }
}
