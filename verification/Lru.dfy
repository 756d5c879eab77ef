// The list of unreferenced cached blocks is in order of last release, so what is evicted is always the block
// released longest ago; and a sequence's blocks are released tail first, so its tail goes before the prefix
// that others are likely to share.
module Lru {
  import opened Basics
  import opened BlockPool

  /** The moment of a block's last release: its last place in the history, or -1. */
  function Stamp(released: seq<Block>, b: Block): (t: int)
    ensures -1 <= t < |released|
    ensures t >= 0 ==> released[t] == b
    decreases |released|
  {
    if released == [] then -1
    else if released[|released| - 1] == b then |released| - 1
    else Stamp(released[..|released| - 1], b)
  }

  lemma {:induction false} StampSnoc(released: seq<Block>, b: Block, c: Block)
    ensures Stamp(released + [b], c) == if c == b then |released| else Stamp(released, c)
  {
    assert (released + [b])[..|released|] == released;
  }

  /** A stamp is never lowered, and an old one never invented. */
  lemma {:induction false} StampLater(released: seq<Block>, more: seq<Block>, b: Block)
    ensures Stamp(released, b) <= Stamp(released + more, b)
    ensures Stamp(released + more, b) < |released| ==> Stamp(released + more, b) == Stamp(released, b)
    decreases |more|
  {
    if more == [] {
      assert released + more == released;
    } else {
      var last := |more| - 1;
      StampLater(released, more[..last], b);
      assert released + more == released + more[..last] + [more[last]];
      StampSnoc(released + more[..last], more[last], b);
    }
  }

  /** Evictable blocks stand in order of their last release. */
  ghost predicate InOrder(p: Pool) {
    && (forall i :: 0 <= i < |p.evictable| ==> Stamp(p.released, p.evictable[i]) >= 0)
    && (forall i, j :: 0 <= i < j < |p.evictable| ==> Stamp(p.released, p.evictable[i]) < Stamp(p.released, p.evictable[j]))
  }

  /** c was unreferenced and cached at p, and has been so all the way to q. */
  ghost predicate Stayed(p: Pool, q: Pool, c: Block) {
    c in p.evictable && c in q.evictable && Stamp(p.released, c) == Stamp(q.released, c)
  }

  /** b was published at p, and by q its content has been given up. */
  ghost predicate Evicted(p: Pool, q: Pool, b: Block) {
    HashOf(p, b).Some? && HashOf(q, b) != HashOf(p, b)
  }

  /** What is listed at q without having been released since p was listed at p. */
  ghost predicate OldOnes(p: Pool, q: Pool) {
    p.released <= q.released && forall c :: c in q.evictable && Stamp(q.released, c) < |p.released| ==> c in p.evictable
  }

  /** From p to q nothing was evicted that had been released after a block that stayed. */
  ghost predicate OldestGo(p: Pool, q: Pool) {
    forall b, c :: Evicted(p, q, b) && Stayed(p, q, c) ==> b in p.evictable && Stamp(p.released, b) < Stamp(p.released, c)
  }

  ghost predicate Aged(p: Pool, q: Pool) {
    InOrder(q) && OldOnes(p, q) && OldestGo(p, q)
  }

  lemma {:induction false} StampKept(p: Pool, q: Pool, b: Block)
    requires p.released <= q.released
    ensures Stamp(p.released, b) <= Stamp(q.released, b)
    ensures Stamp(q.released, b) < |p.released| ==> Stamp(q.released, b) == Stamp(p.released, b)
  {
    assert q.released == p.released + q.released[|p.released|..];
    StampLater(p.released, q.released[|p.released|..], b);
  }

  lemma {:induction false} AgedThen(p: Pool, p1: Pool, q: Pool)
    requires Aged(p, p1) && Aged(p1, q)
    ensures Aged(p, q)
  {
    hide InOrder;
    forall c | c in q.evictable && Stamp(q.released, c) < |p.released| ensures c in p.evictable {
      StampKept(p1, q, c);
    }
    forall b, c | Evicted(p, q, b) && Stayed(p, q, c) ensures b in p.evictable && Stamp(p.released, b) < Stamp(p.released, c) {
      StampKept(p, p1, b);
      StampKept(p, p1, c);
      StampKept(p1, q, c);
      assert Stayed(p1, q, c) && Stayed(p, p1, c);
      assert Evicted(p, p1, b) || Evicted(p1, q, b);
    }
  }

  // --- one block at a time ---------------------------------------------------------------------------------------------

  /** One block off the list leaves the others in order. */
  lemma {:induction false} OneOff(p: Pool, q: Pool, k: nat)
    requires InOrder(p) && k < |p.evictable| && q.evictable == p.evictable[..k] + p.evictable[k + 1..]
    requires q.hash == p.hash && q.released == p.released
    ensures Aged(p, q)
  {
    hide Stamp;
  }

  lemma {:induction false} SameList(p: Pool, q: Pool)
    requires InOrder(p) && q.evictable == p.evictable && q.hash == p.hash && q.released == p.released
    ensures Aged(p, q)
  {
    hide Stamp;
  }

  /** The block at the head of the list gives up its content. */
  lemma {:induction false} HeadEvicted(p: Pool, q: Pool)
    requires InOrder(p) && p.evictable != [] && q.evictable == p.evictable[1..] && q.released == p.released
    requires q.hash == SetAt(p.hash, p.evictable[0], None)
    ensures Aged(p, q)
    ensures forall c :: c in p.evictable && c != p.evictable[0] ==> Stamp(p.released, p.evictable[0]) < Stamp(p.released, c)
  {
    hide Stamp;
  }

  /** Taking a block evicts only when nothing is free, and then the block released longest ago. */
  lemma {:induction false} EvictsOldest(p: Pool)
    requires InOrder(p)
    ensures var (q, b) := TakeFree(p);
      && Aged(p, q)
      && (p.free != [] ==> b == p.free[0] && q.evictable == p.evictable && q.cached == p.cached && q.hash == p.hash)
      && (p.free == [] && p.evictable != [] ==>
            b in p.evictable && forall c :: c in p.evictable && c != b ==> Stamp(p.released, b) < Stamp(p.released, c))
  {
    hide Stamp, InOrder, Aged, SetAt;
    var q := TakeFree(p).0;
    if p.free == [] && p.evictable != [] {
      HeadEvicted(p, q);
    } else {
      SameList(p, q);
    }
  }

  lemma {:induction false} ReleaseAged(p: Pool, b: Block)
    requires InOrder(p) && b !in p.evictable
    ensures Aged(p, Release(p, b)) && Release(p, b).released == p.released + [b]
  {
    var q := Release(p, b);
    JoinsLast(p, q, b);
  }

  /** A block newly released stands last, if it is listed at all. */
  lemma {:induction false} JoinsLast(p: Pool, q: Pool, b: Block)
    requires InOrder(p) && b !in p.evictable && q.released == p.released + [b] && q.hash == p.hash
    requires q.evictable == p.evictable || q.evictable == p.evictable + [b]
    ensures Aged(p, q)
  {
    hide Stamp;
    forall c ensures Stamp(q.released, c) == if c == b then |p.released| else Stamp(p.released, c) {
      StampSnoc(p.released, b, c);
    }
  }

  lemma {:induction false} WithoutAt(s: seq<Block>, b: Block) returns (k: nat)
    requires b in s
    ensures k < |s| && s[k] == b && Without(s, b) == s[..k] + s[k + 1..]
  {
    if s[0] == b {
      k := 0;
    } else {
      var j := WithoutAt(s[1..], b);
      k := j + 1;
    }
  }

  lemma {:induction false} PinAged(p: Pool, b: Block)
    requires InOrder(p)
    ensures Aged(p, Pin(p, b))
  {
    hide InOrder, Aged, Without;
    if RefsOf(p, b) == 0 && b in p.evictable {
      var k := WithoutAt(p.evictable, b);
      OneOff(p, Pin(p, b), k);
    } else {
      SameList(p, Pin(p, b));
    }
  }

  lemma {:induction false} PublishOneAged(p: Pool, b: Block, h: Hash)
    requires InOrder(p)
    ensures Aged(p, PublishOne(p, b, h))
  {
    hide Stamp;
  }

  // --- whole tables ----------------------------------------------------------------------------------------------------

  lemma {:induction false} GrowAged(p: Pool, k: int)
    requires InOrder(p)
    ensures Aged(p, Grow(p, k).0)
    decreases k
  {
    hide TakeFree, InOrder, Aged;
    SameList(p, p);
    if k > 0 {
      EvictsOldest(p);
      Ends(p, TakeFree(p).0);
      GrowAged(TakeFree(p).0, k - 1);
      AgedThen(p, TakeFree(p).0, Grow(p, k).0);
    }
  }

  lemma {:induction false} Ends(p: Pool, q: Pool)
    requires Aged(p, q)
    ensures InOrder(q)
  {
  }

  lemma {:induction false} PinAllAged(p: Pool, blocks: seq<Block>)
    requires InOrder(p)
    ensures Aged(p, PinAll(p, blocks))
    decreases |blocks|
  {
    hide Pin, InOrder, Aged;
    SameList(p, p);
    if blocks != [] {
      PinAged(p, blocks[0]);
      Ends(p, Pin(p, blocks[0]));
      PinAllAged(Pin(p, blocks[0]), blocks[1..]);
      AgedThen(p, Pin(p, blocks[0]), PinAll(p, blocks));
    }
  }

  lemma {:induction false} PublishAged(p: Pool, table: seq<Block>, hashes: seq<Hash>, lo: nat, hi: nat)
    requires InOrder(p)
    ensures Aged(p, Publish(p, table, hashes, lo, hi))
    decreases hi - lo
  {
    hide PublishOne, InOrder, Aged;
    SameList(p, p);
    if lo < hi && lo < |table| && lo < |hashes| {
      var p1 := PublishOne(p, table[lo], hashes[lo]);
      PublishOneAged(p, table[lo], hashes[lo]);
      Ends(p, p1);
      PublishAged(p1, table, hashes, lo + 1, hi);
      AgedThen(p, p1, Publish(p, table, hashes, lo, hi));
    }
  }

  lemma {:induction false} FreeAged(n: nat, p: Pool, held: multiset<Block>, table: seq<Block>)
    requires Valid(n, p, held) && multiset(table) <= held && InOrder(p)
    ensures Aged(p, FreeTable(p, table))
    decreases |table|
  {
    hide Valid, InOrder, Aged, Release;
    SameList(p, p);
    if table != [] {
      var last := table[|table| - 1];
      var p1 := Release(p, last);
      assert table == table[..|table| - 1] + [last];
      HeldNotEvictable(n, p, held, last);
      ReleaseAged(p, last);
      Ends(p, p1);
      ReleaseValid(n, p, held, last);
      FreeAged(n, p1, held - multiset{last}, table[..|table| - 1]);
      AgedThen(p, p1, FreeTable(p, table));
    }
  }

  lemma {:induction false} HeldNotEvictable(n: nat, p: Pool, held: multiset<Block>, b: Block)
    requires Valid(n, p, held) && b in held
    ensures b !in p.evictable
  {
  }

  /** Of two blocks of a freed table the later is released, and so can be evicted, first. */
  lemma {:induction false} TailFirst(p: Pool, table: seq<Block>, i: nat)
    requires Distinct(table) && i < |table|
    ensures Stamp(FreeTable(p, table).released, table[i]) == |p.released| + |table| - 1 - i
    decreases |table|
  {
    var last := |table| - 1;
    var p1 := Release(p, table[last]);
    assert p1.released == p.released + [table[last]];
    hide Release, Stamp;
    if i == last {
      StampSnoc(p.released, table[last], table[last]);
      StampOfOthers(p1, table[..last], table[last]);
    } else {
      TailFirst(p1, table[..last], i);
    }
  }

  lemma {:induction false} StampOfOthers(p: Pool, table: seq<Block>, b: Block)
    requires b !in table
    ensures Stamp(FreeTable(p, table).released, b) == Stamp(p.released, b)
    decreases |table|
  {
    if table != [] {
      var last := table[|table| - 1];
      var p1 := Release(p, last);
      assert p1.released == p.released + [last];
      hide Release, Stamp;
      StampSnoc(p.released, last, b);
      StampOfOthers(p1, table[..|table| - 1], b);
    }
  }
}
