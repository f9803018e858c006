/** Counting round robin: how often a rotating index stands at one of `C` positions. */
module Shares {
  import opened Words

  /** How many of the first `n` numbers from `a` on fall on channel `c` of `C`. */
  function Share(a: nat, n: nat, C: nat, c: nat): nat
    requires C > 0
  {
    if n == 0 then 0 else Share(a, n - 1, C, c) + if (a + n - 1) % C == c then 1 else 0
  }

  /** How often `n` steps of a round of `C` pass position `k`. */
  function Passes(n: nat, C: nat, k: nat): nat
    requires C > 0
  {
    n / C + if k < n % C then 1 else 0
  }

  lemma {:induction false} ShareIs(a: nat, n: nat, C: nat, c: nat)
    requires 0 <= c < C
    ensures Share(a, n, C, c) == Passes(n, C, Ahead(a, C, c))
  {
    hide Passes, Ahead;
    if n == 0 {
      NoPass(C, Ahead(a, C, c));
    } else {
      ShareIs(a, n - 1, C, c);
      HitsWhen(a, n - 1, C, c);
      RoundsGrow(n - 1, C, Ahead(a, C, c));
    }
  }

  /** Position `k` is passed once more by every number that leaves remainder `k`. */
  lemma RoundsGrow(n: nat, C: nat, k: nat)
    requires k < C
    ensures Passes(n + 1, C, k) == Passes(n, C, k) + if n % C == k then 1 else 0
  {
    OneMore(n, C);
    var q, r := n / C, n % C;
    var q', r' := (n + 1) / C, (n + 1) % C;
    assert 0 <= r < C && if r == C - 1 then q' == q + 1 && r' == 0 else q' == q && r' == r + 1;
  }

  lemma NoPass(C: nat, k: nat)
    requires C > 0
    ensures Passes(0, C, k) == 0
  {}

  /** How far channel `c` lies ahead of `a`. */
  function Ahead(a: nat, C: nat, c: nat): (r: nat)
    requires 0 <= c < C
    ensures r < C
  {
    var r := a % C;
    if r <= c then c - r else c + C - r
  }

  /** Counting on by one. */
  lemma OneMore(n: nat, C: nat)
    requires C > 0
    ensures if n % C == C - 1 then (n + 1) / C == n / C + 1 && (n + 1) % C == 0
            else (n + 1) / C == n / C && (n + 1) % C == n % C + 1
  {
    Recompose(n, C);
    if n % C == C - 1 {
      assert n + 1 == (n / C + 1) * C + 0;
      Divided(n + 1, C, n / C + 1, 0);
    } else {
      Divided(n + 1, C, n / C, n % C + 1);
    }
  }

  lemma HitsWhen(a: nat, k: nat, C: nat, c: nat)
    requires 0 <= c < C
    ensures (a + k) % C == c <==> k % C == Ahead(a, C, c)
  {
    Recompose(a, C);
    Recompose(k, C);
    var q, r := a / C + k / C, a % C + k % C;
    assert a + k == q * C + r;
    if r < C {
      Divided(a + k, C, q, r);
    } else {
      assert a + k == (q + 1) * C + (r - C);
      Divided(a + k, C, q + 1, r - C);
    }
  }

  /** Any two channels receive shares that differ by at most one. */
  lemma SharesEven(a: nat, n: nat, C: nat, c: nat, d: nat)
    requires c < C && d < C
    ensures -1 <= Share(a, n, C, c) - Share(a, n, C, d) <= 1
  {
    ShareIs(a, n, C, c);
    ShareIs(a, n, C, d);
  }
}
