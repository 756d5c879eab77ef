// How token positions fall onto fixed-size pages.
module Paging {

  /** ceil(n / bs), written as the allocator writes it: -(-n // bs). */
  function BlocksFor(bs: nat, n: nat): int
    requires bs > 0
  {
    -((0 - n) / bs)
  }

  /** The page of position p, and its offset inside that page. */
  function Page(bs: nat, p: nat): nat
    requires bs > 0
  {
    p / bs
  }

  function Offset(bs: nat, p: nat): (o: nat)
    requires bs > 0
    ensures o < bs
  {
    p % bs
  }

  lemma {:induction false} BlocksForBounds(bs: nat, n: nat)
    requires bs > 0
    ensures 0 <= BlocksFor(bs, n)
    ensures n <= BlocksFor(bs, n) * bs < n + bs
  {
    var q := (0 - n) / bs;
    assert 0 - n == q * bs + (0 - n) % bs;
    assert BlocksFor(bs, n) * bs == -(q * bs);
  }

  lemma {:induction false} MulMono(a: int, b: int, c: int)
    requires a <= b && 0 <= c
    ensures a * c <= b * c
  {
  }

  /** k blocks hold n tokens exactly when BlocksFor(n) <= k. */
  lemma {:induction false} BlocksForLeast(bs: nat, n: nat, k: int)
    requires bs > 0 && 0 <= k
    ensures BlocksFor(bs, n) <= k <==> n <= k * bs
  {
    BlocksForBounds(bs, n);
    if BlocksFor(bs, n) <= k {
      MulMono(BlocksFor(bs, n), k, bs);
    } else {
      MulMono(k + 1, BlocksFor(bs, n), bs);
      assert (k + 1) * bs == k * bs + bs;
    }
  }

  lemma {:induction false} BlocksForMono(bs: nat, m: nat, n: nat)
    requires bs > 0 && m <= n
    ensures 0 <= BlocksFor(bs, m) <= BlocksFor(bs, n)
    ensures BlocksFor(bs, 0) == 0
    ensures 0 < n ==> 0 < BlocksFor(bs, n)
  {
    BlocksForBounds(bs, m);
    BlocksForBounds(bs, n);
    BlocksForLeast(bs, m, BlocksFor(bs, n));
    BlocksForLeast(bs, 0, 0);
    BlocksForLeast(bs, n, 0);
    BlocksForBounds(bs, 0);
  }

  /** A whole number of pages needs exactly that many blocks. */
  lemma {:induction false} BlocksForWhole(bs: nat, k: nat)
    requires bs > 0
    ensures 0 <= k * bs && BlocksFor(bs, k * bs) == k
    ensures (k * bs) / bs == k
  {
    BlocksForLeast(bs, k * bs, k);
    BlocksForBounds(bs, k * bs);
    if BlocksFor(bs, k * bs) < k {
      MulMono(BlocksFor(bs, k * bs), k - 1, bs);
    }
    PageOf(bs, k, 0);
  }

  lemma {:induction false} PageSplit(bs: nat, p: nat)
    requires bs > 0
    ensures p == Page(bs, p) * bs + Offset(bs, p)
  {
  }

  lemma {:induction false} PageOf(bs: nat, i: nat, o: nat)
    requires o < bs
    ensures 0 <= i * bs
    ensures Page(bs, i * bs + o) == i && Offset(bs, i * bs + o) == o
  {
    var p := i * bs + o;
    var q, r := p / bs, p % bs;
    assert p == q * bs + r;
    assert (q - i) * bs == q * bs - i * bs;
    assert (q - i) * bs == o - r;
    if q > i {
      MulMono(1, q - i, bs);
    } else if q < i {
      MulMono(q - i, -1, bs);
    }
  }

  /** A position below n lies on one of the BlocksFor(n) pages. */
  lemma {:induction false} PageInRange(bs: nat, p: nat, n: nat)
    requires bs > 0 && p < n
    ensures Page(bs, p) < BlocksFor(bs, n)
  {
    BlocksForBounds(bs, n);
    PageSplit(bs, p);
    if BlocksFor(bs, n) <= Page(bs, p) {
      MulMono(BlocksFor(bs, n), Page(bs, p), bs);
    }
  }

  /** A position at or past c lies on page c / bs or later. */
  lemma {:induction false} PageMono(bs: nat, p: nat, c: nat)
    requires bs > 0 && c <= p
    ensures Page(bs, c) <= Page(bs, p)
  {
    PageSplit(bs, p);
    PageSplit(bs, c);
    if Page(bs, p) < Page(bs, c) {
      MulMono(Page(bs, p) + 1, Page(bs, c), bs);
    }
  }

  lemma {:induction false} PositionsDiffer(bs: nat, p: nat, q: nat)
    requires bs > 0 && p != q
    ensures Page(bs, p) != Page(bs, q) || Offset(bs, p) != Offset(bs, q)
  {
    PageSplit(bs, p);
    PageSplit(bs, q);
  }

  /** The pages wholly below c are the first c / bs; they fit under c. */
  lemma {:induction false} FullPages(bs: nat, c: nat)
    requires bs > 0
    ensures 0 <= c / bs && (c / bs) * bs <= c < (c / bs + 1) * bs
    ensures c / bs <= BlocksFor(bs, c)
  {
    PageSplit(bs, c);
    BlocksForBounds(bs, c);
    assert (c / bs + 1) * bs == (c / bs) * bs + bs;
    if BlocksFor(bs, c) < c / bs {
      MulMono(BlocksFor(bs, c), c / bs - 1, bs);
    }
  }

  /** Where a position below k whole pages lies. */
  lemma {:induction false} WithinPages(bs: nat, k: nat, q: nat)
    requires bs > 0 && q < k * bs
    ensures var i, o := Page(bs, q), Offset(bs, q);
      i < k && 0 <= i * bs && (i + 1) * bs == i * bs + bs && (i + 1) * bs <= k * bs && q == i * bs + o
  {
    PageSplit(bs, q);
    var i := Page(bs, q);
    if k <= i {
      MulMono(k, i, bs);
    } else {
      MulMono(i + 1, k, bs);
    }
  }
}
