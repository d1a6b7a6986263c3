/** Java's integer division, which truncates toward zero. */
module JavaInt {

  function Abs(x: int): nat {
    if x < 0 then -x else x
  }

  /** `a / b` on Java `int`s: the quotient rounded toward zero.
      (Dafny's own `/` is Euclidean and rounds a negative `a` downwards.) */
  function Div(a: int, b: int): (q: int)
    requires b != 0
    ensures Abs(q) * Abs(b) <= Abs(a) < (Abs(q) + 1) * Abs(b)
    ensures q > 0 ==> (a < 0 <==> b < 0)
    ensures q < 0 ==> (a < 0 <==> b > 0)
  {
    var m := Abs(a) / Abs(b);
    NatDivBounds(Abs(a), Abs(b));
    if (a < 0) == (b < 0) then m else -m
  }

  lemma NatDivBounds(n: nat, d: nat)
    requires d > 0
    ensures (n / d) * d <= n < (n / d + 1) * d
  {
  }

  /** For a positive divisor the quotient is 0 exactly when `a` lies strictly between `-b` and `b`. */
  lemma DivZero(a: int, b: int)
    requires b > 0
    ensures Div(a, b) == 0 <==> -b < a < b
  {
  }
}
