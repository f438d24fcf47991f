/** Python numeric conversions that differ from Dafny's built-in operators. */
module PyNum {

  /** `int(x)` on a float: truncation toward zero. */
  function Trunc(x: real): (r: int)
    ensures x >= 0.0 ==> r as real <= x < r as real + 1.0
    ensures x < 0.0 ==> r as real - 1.0 < x <= r as real
  {
    if x >= 0.0 then x.Floor else -((-x).Floor)
  }

  /** `divmod(a, b)` on floats: the floored quotient and the remainder, which
      has the sign of `b`. */
  function DivMod(a: real, b: real): (qr: (int, real))
    requires b != 0.0
    ensures a == (qr.0 as real) * b + qr.1
    ensures b > 0.0 ==> 0.0 <= qr.1 < b
    ensures b < 0.0 ==> b < qr.1 <= 0.0
  {
    var q := (a / b).Floor;
    var m := a - (q as real) * b;
    FloorBound(a, b, q);
    (q, m)
  }

  lemma FloorBound(a: real, b: real, q: int)
    requires b != 0.0 && q == (a / b).Floor
    ensures b > 0.0 ==> 0.0 <= a - (q as real) * b < b
    ensures b < 0.0 ==> b < a - (q as real) * b <= 0.0
  {
    var f := a / b - q as real;
    assert 0.0 <= f < 1.0;
    Remainder(a, b, q as real, f);
  }

  lemma Remainder(a: real, b: real, q: real, f: real)
    requires b != 0.0 && f == a / b - q && 0.0 <= f < 1.0
    ensures b > 0.0 ==> 0.0 <= a - q * b < b
    ensures b < 0.0 ==> b < a - q * b <= 0.0
  {
    assert a - q * b == f * b;
  }

  /** `x % m` for non-negative `x` and positive `m`, where Python's floored
      remainder is the plain remainder: subtract `m` until below it. */
  function Mod(x: nat, m: nat): (r: nat)
    requires m > 0
    ensures r < m
    ensures x < m ==> r == x
    decreases x
  {
    if x < m then x else Mod(x - m, m)
  }

  /** Reducing a summand first does not change the remainder of a sum. */
  lemma {:induction false} ModOfSum(a: nat, i: nat, m: nat)
    requires m > 0
    ensures Mod(Mod(a, m) + i, m) == Mod(a + i, m)
    decreases a
  {
    if a >= m {
      ModOfSum(a - m, i, m);
      assert Mod(a + i, m) == Mod(a - m + i, m);
    }
  }

  function Min(a: int, b: int): int { if a <= b then a else b }
  function Max(a: int, b: int): int { if a >= b then a else b }
  function MinR(a: real, b: real): real { if a <= b then a else b }
  function MaxR(a: real, b: real): real { if a >= b then a else b }
}
