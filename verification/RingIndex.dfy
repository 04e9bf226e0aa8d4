/** Tickets that count up without bound, and the ring slots they select. */
module RingIndex {
  type Ticket = nat

  function Index(n: nat, k: Ticket): nat
    requires n > 0
  {
    k % n
  }

  lemma IndexBound(n: nat, k: Ticket)
    requires n > 0
    ensures Index(n, k) < n
    ensures k < n ==> Index(n, k) == k
  {
  }

  /** Tickets of one slot lie a whole capacity apart. */
  lemma Apart(n: nat, k: Ticket, l: Ticket)
    requires n > 0 && Index(n, k) == Index(n, l) && k < l
    ensures k + n <= l
  {
    var q, r, m := k / n, l / n, k % n;
    assert k == n * q + m && l == n * r + m;
    LapsApart(n, q, r, m, k, l);
  }

  lemma LapsApart(n: nat, q: nat, r: nat, m: nat, k: nat, l: nat)
    requires k == n * q + m && l == n * r + m && k < l
    ensures k + n <= l
  {
    if r <= q { Times(n, r, q); } else { Times(n, q + 1, r); Times(n, q, q); }
  }

  lemma Times(n: nat, a: nat, b: nat)
    requires a <= b
    ensures n * a <= n * b && n * (a + 1) == n * a + n
  {
  }

  lemma NextLap(n: nat, k: Ticket)
    requires n > 0
    ensures Index(n, k + n) == Index(n, k)
  {
    var q, r := k / n, k % n;
    assert k + n == n * (q + 1) + r;
    ModUnique(n, q + 1, r, k + n);
  }

  lemma ModUnique(n: nat, q: nat, r: nat, x: nat)
    requires n > 0 && r < n && x == n * q + r
    ensures x % n == r
  {
    var q', r' := x / n, x % n;
    assert x == n * q' + r';
    if q' < q { Times(n, q' + 1, q); Times(n, q', q); } else if q' > q { Times(n, q + 1, q'); Times(n, q, q'); }
  }
}
