/** The few facts about products and floors that the throttling proofs need. */
module Arithmetic {
  /** floor(rate * t / h), as do_div computes it. */
  function Scale(rate: nat, t: nat, h: nat): nat
    requires h > 0
  {
    Quotient(rate * t, h)
  }

  function Quotient(b: nat, h: nat): (q: nat)
    requires h > 0
  {
    b / h
  }

  lemma MulMono(a: nat, b: nat, c: nat)
    requires a <= b
    ensures a * c <= b * c
  {
    assert b * c == a * c + (b - a) * c;
  }

  lemma MulCancel(a: nat, b: nat, c: nat)
    requires a * c < b * c
    ensures a < b
  {
    if b <= a { MulMono(b, a, c); }
  }

  /** x <= floor(b / h) exactly when x * h <= b. */
  lemma FloorIff(x: nat, b: nat, h: nat)
    requires h > 0
    ensures x <= Quotient(b, h) <==> x * h <= b
  {
    assert b == b / h * h + b % h;
    if x <= b / h {
      MulMono(x, b / h, h);
    } else {
      MulMono(b / h + 1, x, h);
      assert (b / h + 1) * h == b / h * h + h;
    }
  }
}
