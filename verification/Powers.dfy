/** Powers of a base and the little monotonicity their users need. */
module Powers {
  function Pow(base: nat, e: nat): nat {
    if e == 0 then 1 else base * Pow(base, e - 1)
  }

  lemma MulMonotone(c: nat, a: int, b: int)
    requires a <= b
    ensures c * a <= c * b && a * c <= b * c
  {
  }

  lemma MulCancelLess(c: nat, a: int, b: int)
    requires c * a < c * b
    ensures a < b
  {
  }

  lemma PowAdd(base: nat, a: nat, b: nat)
    ensures Pow(base, a + b) == Pow(base, a) * Pow(base, b)
    decreases a
  {
    if a != 0 {
      PowAdd(base, a - 1, b);
      assert Pow(base, a + b) == base * Pow(base, a - 1 + b);
      assert base * (Pow(base, a - 1) * Pow(base, b)) == (base * Pow(base, a - 1)) * Pow(base, b);
    }
  }

  lemma PowMonotone(base: nat, a: nat, b: nat)
    requires 1 <= base && a <= b
    ensures Pow(base, a) <= Pow(base, b)
    decreases b
  {
  }
}
