/**
 * Python's `random.choice` / `random.choices` and the token-key generator,
 * modelled as nondeterministic choice: the model knows only how many
 * characters are drawn and from which pool.
 */
module Random {

  /** `"".join(random.choices(pool, k=k))`: k characters, each from the pool. */
  method Choices(pool: string, k: nat) returns (r: string)
    requires |pool| > 0
    ensures |r| == k
    ensures forall i :: 0 <= i < |r| ==> r[i] in pool
  {
    r := "";
    while |r| < k
      invariant |r| <= k
      invariant forall i :: 0 <= i < |r| ==> r[i] in pool
    {
      var i :| 0 <= i < |pool|;
      var c := pool[i];
      r := r + [c];
    }
  }
}
