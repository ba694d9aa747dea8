/**
 Small arithmetic and wrapper definitions shared by the licence estimator:
 an `Option` type, `Max`, and integer ceiling division, which is how the
 estimator's `Math.ceil` over exact rational sums is modelled.
 */
module Common {

  /** An optional value: the explanation that may or may not precede the result, or the add-on that may or may not be sold. */
  datatype Option<+T> = None | Some(value: T)

  /** The larger of two naturals: the least value that is at least both. */
  function Max(a: nat, b: nat): (r: nat)
    ensures r >= a && r >= b
    ensures r == a || r == b
  {
    if a >= b then a else b
  }

  /** `a - b` clamped at zero, as `Math.max(0, a - b)` computes it. */
  function MinusClamped(a: int, b: int): (r: nat)
    ensures r >= a - b
    ensures r == 0 || r == a - b
  {
    if a - b > 0 then a - b else 0
  }

  /** `x / d` rounded up: the least natural whose multiple by `d` covers `x`. */
  function CeilDiv(x: nat, d: nat): (r: nat)
    requires d > 0
    ensures d * r >= x
    ensures r == 0 || d * (r - 1) < x
  {
    var q := (x + d - 1) / d;
    assert d * q + (x + d - 1) % d == x + d - 1;
    assert d * (q - 1) == d * q - d;
    q
  }

  /** Ceiling division is monotone in its dividend. */
  lemma CeilDivMonotone(x: nat, y: nat, d: nat)
    requires d > 0
    requires x <= y
    ensures CeilDiv(x, d) <= CeilDiv(y, d)
  {
    var a, b := CeilDiv(x, d), CeilDiv(y, d);
    if a > b {
      // a - 1 >= b, so d * (a - 1) >= d * b >= y >= x, contradicting the contract of CeilDiv(x, d)
      MulMonotone(b, a - 1, d);
    }
  }

  /** Multiplying by a natural preserves order. */
  lemma {:induction false} MulMonotone(a: nat, b: nat, m: nat)
    requires a <= b
    ensures a * m <= b * m
  {
    if m > 0 {
      MulMonotone(a, b, m - 1);
      assert a * m == a * (m - 1) + a;
      assert b * m == b * (m - 1) + b;
    }
  }
}
