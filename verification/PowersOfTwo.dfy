/** Powers of two and their logarithms, as whole numbers. */
module PowersOfTwo {
  function Power(k: nat): (p: nat)
    ensures p >= 1
  {
    if k == 0 then 1 else 2 * Power(k - 1)
  }

  lemma {:induction false} PowerGrows(k: nat, l: nat)
    requires k <= l
    ensures Power(k) <= Power(l) && (k < l ==> 2 * Power(k) <= Power(l))
  {
    if k < l {
      PowerGrows(k, l - 1);
    }
  }

  /** The logarithm to base two, without its fraction. */
  function FloorLog(n: nat): (k: nat)
    requires n > 0
    ensures Power(k) <= n < 2 * Power(k)
  {
    if n == 1 then 0 else 1 + FloorLog(n / 2)
  }

  /** The logarithm to base two, rounded up. */
  function CeilLog(n: nat): (k: nat)
    requires n > 0
    ensures n <= Power(k) && (k > 0 ==> Power(k - 1) < n)
  {
    if n == 1 then 0 else 1 + CeilLog((n + 1) / 2)
  }

  lemma {:induction false} PowersMultiply(k: nat, l: nat)
    ensures Power(k + l) == Power(k) * Power(l)
  {
    if k > 0 {
      PowersMultiply(k - 1, l);
    }
  }
}
