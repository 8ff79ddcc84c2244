/** Identifiers and the few generic helpers that several modules share. */
module Common {

  /** Player ids are opaque: the program only compares them (and sorts them once, in a tournament). */
  type PlayerId = nat

  datatype Option<+T> = None | Some(value: T) {
    function GetOr(default: T): T {
      if Some? then value else default
    }
  }

  /** No value occurs twice. */
  ghost predicate Distinct<T>(s: seq<T>) {
    forall i, j :: 0 <= i < j < |s| ==> s[i] != s[j]
  }

  function Min(a: int, b: int): int {
    if a <= b then a else b
  }

  function Max(a: int, b: int): int {
    if a >= b then a else b
  }

  /** max(x, 0), the excess of a committed amount over a level already paid. */
  function Excess(x: int, level: int): nat {
    if x > level then x - level else 0
  }

  lemma MulMono(a: nat, b: nat, p: nat)
    requires a <= b
    ensures a * p <= b * p
  {
  }

  /** The quotient of a division, from its bounds. */
  lemma QuotientIs(v: nat, p: nat, q: nat)
    requires p > 0 && q * p <= v < (q + 1) * p
    ensures v / p == q
  {
    var r := v / p;
    assert r * p <= v < (r + 1) * p;
    if r < q {
      MulMono(r + 1, q, p);
    } else if r > q {
      MulMono(q + 1, r, p);
    }
  }

  lemma QuotientRemainder(q: nat, n: nat, k: nat)
    requires k < n
    ensures (q * n + k) / n == q && (q * n + k) % n == k
  {
    QuotientIs(q * n + k, n, q);
    assert (q * n + k) == n * ((q * n + k) / n) + (q * n + k) % n;
  }

  lemma SubsetSize<T>(a: set<T>, b: set<T>)
    requires a <= b
    ensures |a| <= |b|
  {
    var rest := b - a;
    assert b == a + rest;
  }
}
