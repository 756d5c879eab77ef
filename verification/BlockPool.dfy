// The paged allocator as a value: pools, reference counts and the prefix cache, and the functions
// that say what each allocator operation does to them.
module BlockPool {
  import opened Basics

  type Block = int

  /** A block's hash. SHA-256 over (parent digest, tokens) is taken to be injective, which a free
      constructor is. */
  datatype Hash = Root | Chain(parent: Hash, tokens: seq<Token>)

  /** Tokens i * bs up to (i + 1) * bs, clamped to the list as slicing clamps. */
  function Chunk(bs: nat, tokens: seq<Token>, i: nat): seq<Token> {
    var lo, hi := i * bs, (i + 1) * bs;
    assert lo <= hi;
    if |tokens| < lo then [] else tokens[lo..Min(hi, |tokens|)]
  }

  /** The hash of block n - 1 of `tokens`: it chains over the first n blocks. */
  function PrefixHash(bs: nat, tokens: seq<Token>, n: nat): Hash {
    if n == 0 then Root else Chain(PrefixHash(bs, tokens, n - 1), Chunk(bs, tokens, n - 1))
  }

  /** All the tokens a hash stands for, from the first of the sequence. */
  function HashTokens(h: Hash): seq<Token> {
    match h
    case Root => []
    case Chain(parent, tokens) => HashTokens(parent) + tokens
  }

  /** The memoised hashes of a sequence are those of its leading full blocks. */
  ghost predicate HashesOk(bs: nat, tokens: seq<Token>, hashes: seq<Hash>) {
    && |hashes| * bs <= |tokens|
    && forall i :: 0 <= i < |hashes| ==> hashes[i] == PrefixHash(bs, tokens, i + 1)
  }

  function ExtendHashes(bs: nat, tokens: seq<Token>, hashes: seq<Hash>, k: nat): seq<Hash>
    decreases k - |hashes|
  {
    if |hashes| >= k then hashes
    else
      var parent := if hashes == [] then Root else hashes[|hashes| - 1];
      ExtendHashes(bs, tokens, hashes + [Chain(parent, Chunk(bs, tokens, |hashes|))], k)
  }

  /** `released` is a history: the blocks released so far, in order. */
  datatype Pool = Pool(
    free: seq<Block>,
    refs: seq<int>,
    hash: seq<Option<Hash>>,
    cached: map<Hash, Block>,
    evictable: seq<Block>,
    cpuFree: seq<Block>,
    released: seq<Block>)

  function NewPool(numBlocks: nat, numCpuBlocks: nat): Pool {
    Pool(seq(numBlocks, i => i), seq(numBlocks, _ => 0), seq(numBlocks, _ => None), map[], [], seq(numCpuBlocks, i => i), [])
  }

  function RefsOf(p: Pool, b: Block): int {
    if 0 <= b < |p.refs| then p.refs[b] else 0
  }

  function HashOf(p: Pool, b: Block): Option<Hash> {
    if 0 <= b < |p.hash| then p.hash[b] else None
  }

  function NumFree(p: Pool): nat {
    |p.free| + |p.evictable|
  }

  /** Reference counts are the occurrences `held` of each block in the live block tables. */
  ghost predicate Counted(numBlocks: nat, p: Pool, held: multiset<Block>) {
    && |p.refs| == |p.hash| == numBlocks
    && (forall b: Block :: b in held ==> 0 <= b < numBlocks)
    && (forall b: Block :: 0 <= b < numBlocks ==> p.refs[b] == held[b])
  }

  /** Unreferenced blocks are on exactly one list: evictable when published, else free. */
  ghost predicate Listed(numBlocks: nat, p: Pool) {
    && Distinct(p.free) && Distinct(p.evictable)
    && (forall b: Block :: b in p.free <==> 0 <= b < numBlocks && RefsOf(p, b) == 0 && HashOf(p, b).None?)
    && (forall b: Block :: b in p.evictable <==> 0 <= b < numBlocks && RefsOf(p, b) == 0 && HashOf(p, b).Some?)
  }

  /** The cache index and the blocks' hashes are inverse, and only published blocks are shared. */
  ghost predicate Indexed(numBlocks: nat, p: Pool) {
    && (forall b: Block :: 0 <= b < numBlocks && HashOf(p, b).None? ==> RefsOf(p, b) <= 1)
    && (forall h :: h in p.cached ==> 0 <= p.cached[h] < numBlocks && HashOf(p, p.cached[h]) == Some(h))
    && (forall b: Block :: 0 <= b < numBlocks && HashOf(p, b).Some? ==>
          HashOf(p, b).value in p.cached && p.cached[HashOf(p, b).value] == b)
  }

  ghost predicate Valid(numBlocks: nat, p: Pool, held: multiset<Block>) {
    Counted(numBlocks, p, held) && Listed(numBlocks, p) && Indexed(numBlocks, p)
  }

  // --- taking and releasing blocks -----------------------------------------------------------------

  function TakeFree(p: Pool): (Pool, Block) {
    if p.free != [] then
      var b := p.free[0];
      (p.(free := p.free[1..], refs := SetAt(p.refs, b, 1)), b)
    else if p.evictable != [] then
      var b := p.evictable[0];
      var cached := match HashOf(p, b) case Some(h) => p.cached - {h} case None => p.cached;
      (p.(evictable := p.evictable[1..], cached := cached, hash := SetAt(p.hash, b, None), refs := SetAt(p.refs, b, 1)), b)
    else
      (p, 0)
  }

  function Grow(p: Pool, k: int): (Pool, seq<Block>)
    decreases k
  {
    if k <= 0 then (p, [])
    else
      var (p1, b) := TakeFree(p);
      var (p2, blocks) := Grow(p1, k - 1);
      (p2, [b] + blocks)
  }

  function Release(p: Pool, b: Block): Pool {
    var p1 := p.(refs := SetAt(p.refs, b, RefsOf(p, b) - 1), released := p.released + [b]);
    if RefsOf(p1, b) != 0 then p1
    else if HashOf(p1, b).Some? then p1.(evictable := p1.evictable + [b])
    else p1.(free := p1.free + [b])
  }

  /** Release a whole table, last block first. */
  function FreeTable(p: Pool, table: seq<Block>): Pool
    decreases |table|
  {
    if table == [] then p else FreeTable(Release(p, table[|table| - 1]), table[..|table| - 1])
  }

  function Pin(p: Pool, b: Block): Pool {
    var evictable := if RefsOf(p, b) == 0 then Without(p.evictable, b) else p.evictable;
    p.(evictable := evictable, refs := SetAt(p.refs, b, RefsOf(p, b) + 1))
  }

  function PinAll(p: Pool, blocks: seq<Block>): Pool
    decreases |blocks|
  {
    if blocks == [] then p else PinAll(Pin(p, blocks[0]), blocks[1..])
  }

  /** How many of the cached hits are on the evictable list. */
  function Pinned(p: Pool, blocks: seq<Block>): nat {
    if blocks == [] then 0 else (if RefsOf(p, blocks[0]) == 0 then 1 else 0) + Pinned(p, blocks[1..])
  }

  // --- the prefix cache ------------------------------------------------------------------------------

  /** Follow the hash chain while its blocks are published. */
  function Hits(p: Pool, hashes: seq<Hash>): seq<Block> {
    if hashes == [] || hashes[0] !in p.cached then [] else [p.cached[hashes[0]]] + Hits(p, hashes[1..])
  }

  function PublishOne(p: Pool, b: Block, h: Hash): Pool {
    if HashOf(p, b).None? && h !in p.cached
    then p.(hash := SetAt(p.hash, b, Some(h)), cached := p.cached[h := b])
    else p
  }

  /** Publish block i of a table under hashes[i], for lo <= i < hi. */
  function Publish(p: Pool, table: seq<Block>, hashes: seq<Hash>, lo: nat, hi: nat): Pool
    decreases hi - lo
  {
    if hi <= lo || |table| <= lo || |hashes| <= lo then p
    else
      Publish(PublishOne(p, table[lo], hashes[lo]), table, hashes, lo + 1, hi)
  }

  // --- what each operation keeps -----------------------------------------------------------------------

  /** Blocks in use stay in use and keep their published hash, and none gains one. */
  ghost predicate HashKept(p: Pool, q: Pool) {
    && |q.hash| == |p.hash| == |p.refs|
    && |q.refs| == |p.refs|
    && (forall b: Block :: 0 <= b < |p.hash| && p.refs[b] > 0 ==> q.refs[b] > 0 && q.hash[b] == p.hash[b])
    && (forall b: Block :: 0 <= b < |p.hash| && q.hash[b].Some? ==> q.hash[b] == p.hash[b])
  }

  ghost predicate SameCache(p: Pool, q: Pool) {
    q.hash == p.hash && q.cached == p.cached && q.cpuFree == p.cpuFree
  }

  lemma {:induction false} HeldSplit(held: multiset<Block>, b: Block, rest: seq<Block>)
    ensures held + multiset{b} + multiset(rest) == held + multiset([b] + rest)
    ensures held + multiset([]) == held
  {
    assert multiset([b] + rest) == multiset{b} + multiset(rest);
  }

  lemma {:induction false} NewPoolValid(numBlocks: nat, numCpuBlocks: nat)
    ensures Valid(numBlocks, NewPool(numBlocks, numCpuBlocks), multiset{})
    ensures NumFree(NewPool(numBlocks, numCpuBlocks)) == numBlocks
  {
    var p := NewPool(numBlocks, numCpuBlocks);
    forall b: nat ensures b in p.free <==> 0 <= b < numBlocks {
      if b < numBlocks {
        assert p.free[b] == b;
      }
    }
  }

  lemma {:induction false} ValidSizes(n: nat, p: Pool, held: multiset<Block>)
    requires Valid(n, p, held)
    ensures |p.refs| == |p.hash| == n
  {
  }

  /** The pool's counts leave no choice about the tables held. */
  lemma {:induction false} HeldIs(n: nat, p: Pool, held: multiset<Block>, held': multiset<Block>)
    requires Valid(n, p, held) && Valid(n, p, held')
    ensures held == held'
  {
    hide Listed, Indexed;
    forall b: Block ensures held[b] == held'[b] {
      if 0 <= b < n {
        assert p.refs[b] == held[b] && p.refs[b] == held'[b];
      } else {
        assert b !in held && b !in held';
      }
    }
  }

  /** What taking a block does, block by block. */
  lemma {:induction false} TakeFreeEffect(n: nat, p: Pool, held: multiset<Block>)
    requires Valid(n, p, held) && NumFree(p) > 0
    ensures var (q, b) := TakeFree(p);
      && 0 <= b < n && b !in held
      && RefsOf(p, b) == 0 && RefsOf(q, b) == 1 && HashOf(q, b) == None
      && (forall c: Block :: c != b ==> RefsOf(q, c) == RefsOf(p, c) && HashOf(q, c) == HashOf(p, c))
      && |q.refs| == |q.hash| == n
      && (forall h :: h in q.cached <==> h in p.cached && p.cached[h] != b)
      && (forall h :: h in q.cached ==> q.cached[h] == p.cached[h])
  {
    var (q, b) := TakeFree(p);
    assert b in (if p.free != [] then p.free else p.evictable);
  }

  lemma {:induction false} TakeFreeListed(n: nat, p: Pool, held: multiset<Block>)
    requires Valid(n, p, held) && NumFree(p) > 0
    ensures var (q, b) := TakeFree(p);
      Listed(n, q) && NumFree(q) == NumFree(p) - 1
  {
    TakeFreeEffect(n, p, held);
    hide Indexed, Counted;
    if p.free != [] {
      DropDistinct(p.free);
    } else {
      DropDistinct(p.evictable);
    }
    hide RefsOf, HashOf, Distinct, SetAt;
  }

  lemma {:induction false} TakeFreeValid(n: nat, p: Pool, held: multiset<Block>)
    requires Valid(n, p, held) && NumFree(p) > 0
    ensures var (q, b) := TakeFree(p);
      && Valid(n, q, held + multiset{b})
      && NumFree(q) == NumFree(p) - 1
      && 0 <= b < n && b !in held && HashOf(q, b) == None
  {
    TakeFreeEffect(n, p, held);
    TakeFreeListed(n, p, held);
    hide TakeFree, Listed;
  }

  lemma {:induction false} TakeFreeKeeps(n: nat, p: Pool, held: multiset<Block>)
    requires Valid(n, p, held) && NumFree(p) > 0
    ensures var (q, b) := TakeFree(p);
      && HashKept(p, q) && q.cpuFree == p.cpuFree && q.cached.Keys <= p.cached.Keys
  {
    if p.free != [] {
      assert p.free[0] in p.free;
    } else {
      assert p.evictable[0] in p.evictable;
    }
  }

  lemma {:induction false} GrowValid(n: nat, p: Pool, held: multiset<Block>, k: int)
    requires Valid(n, p, held) && k <= NumFree(p)
    decreases k
    ensures var (q, blocks) := Grow(p, k);
      && Valid(n, q, held + multiset(blocks))
      && |blocks| == (if k <= 0 then 0 else k)
      && NumFree(q) == NumFree(p) - |blocks|
      && Distinct(blocks)
      && (forall b: Block :: b in blocks ==> 0 <= b < n && b !in held && HashOf(q, b) == None)
  {
    hide Valid, TakeFree;
    if k > 0 {
      var (p1, b) := TakeFree(p);
      TakeFreeValid(n, p, held);
      var (q, blocks) := Grow(p1, k - 1);
      GrowValid(n, p1, held + multiset{b}, k - 1);
      GrowKeeps(n, p1, held + multiset{b}, k - 1);
      assert HashOf(q, b) == None by {
        ValidSizes(n, p1, held + multiset{b});
        UsedHasRef(n, p1, held + multiset{b}, b);
      }
      HeldSplit(held, b, blocks);
    } else {
      HeldSplit(held, 0, []);
    }
  }

  lemma {:induction false} UsedHasRef(n: nat, p: Pool, held: multiset<Block>, b: Block)
    requires Valid(n, p, held) && b in held
    ensures 0 <= b < n && RefsOf(p, b) == held[b]
  {
  }

  lemma {:induction false} GrowKeeps(n: nat, p: Pool, held: multiset<Block>, k: int)
    requires Valid(n, p, held) && k <= NumFree(p)
    decreases k
    ensures var q := Grow(p, k).0;
      && HashKept(p, q) && q.cpuFree == p.cpuFree && q.cached.Keys <= p.cached.Keys
  {
    hide Valid, TakeFree;
    ValidSizes(n, p, held);
    if k > 0 {
      var (p1, b) := TakeFree(p);
      TakeFreeValid(n, p, held);
      TakeFreeKeeps(n, p, held);
      GrowKeeps(n, p1, held + multiset{b}, k - 1);
    }
  }

  lemma {:induction false} ReleaseListed(n: nat, p: Pool, held: multiset<Block>, b: Block)
    requires Valid(n, p, held) && b in held
    ensures var q := Release(p, b);
      && Listed(n, q) && SameCache(p, q) && |q.refs| == n
      && (forall c: Block :: RefsOf(q, c) == RefsOf(p, c) - (if c == b then 1 else 0))
      && NumFree(q) == NumFree(p) + (if held[b] == 1 then 1 else 0)
  {
    var q := Release(p, b);
    assert forall c: Block :: HashOf(q, c) == HashOf(p, c);
    assert RefsOf(p, b) > 0;
    hide Indexed;
    AppendDistinct(p.free, b);
    AppendDistinct(p.evictable, b);
    hide Distinct, HashOf;
  }

  lemma {:induction false} ReleaseValid(n: nat, p: Pool, held: multiset<Block>, b: Block)
    requires Valid(n, p, held) && b in held
    ensures var q := Release(p, b);
      && Valid(n, q, held - multiset{b})
      && SameCache(p, q)
      && NumFree(q) == NumFree(p) + (if held[b] == 1 then 1 else 0)
  {
    ReleaseListed(n, p, held, b);
    hide Listed, Release;
  }

  lemma {:induction false} FreeTableValid(n: nat, p: Pool, held: multiset<Block>, table: seq<Block>)
    requires Valid(n, p, held) && multiset(table) <= held
    decreases |table|
    ensures var q := FreeTable(p, table);
      && Valid(n, q, held - multiset(table))
      && SameCache(p, q)
  {
    hide Valid;
    if table != [] {
      var last := table[|table| - 1];
      assert table == table[..|table| - 1] + [last];
      ReleaseValid(n, p, held, last);
      FreeTableValid(n, Release(p, last), held - multiset{last}, table[..|table| - 1]);
      assert held - multiset{last} - multiset(table[..|table| - 1]) == held - multiset(table);
    } else {
      assert held - multiset(table) == held;
    }
  }

  lemma {:induction false} PinValid(n: nat, p: Pool, held: multiset<Block>, b: Block)
    requires Valid(n, p, held) && 0 <= b < n && p.hash[b].Some?
    ensures var q := Pin(p, b);
      && Valid(n, q, held + multiset{b})
      && SameCache(p, q)
      && NumFree(q) == NumFree(p) - (if p.refs[b] == 0 then 1 else 0)
      && (forall c: Block :: 0 <= c < n && c != b ==> q.refs[c] == p.refs[c])
  {
    var q := Pin(p, b);
    assert Listed(n, q) by {
      hide Indexed;
      WithoutDistinct(p.evictable, b);
    }
    assert Indexed(n, q) by {
      hide Listed;
    }
  }

  lemma {:induction false} PinAllValid(n: nat, p: Pool, held: multiset<Block>, blocks: seq<Block>)
    requires Valid(n, p, held) && Distinct(blocks)
    requires forall b: Block :: b in blocks ==> 0 <= b < n && p.hash[b].Some?
    decreases |blocks|
    ensures var q := PinAll(p, blocks);
      && Valid(n, q, held + multiset(blocks))
      && SameCache(p, q)
      && NumFree(q) == NumFree(p) - Pinned(p, blocks)
  {
    ValidSizes(n, p, held);
    hide Valid;
    if blocks == [] {
      HeldSplit(held, 0, []);
    } else {
      var b, rest := blocks[0], blocks[1..];
      assert blocks == [b] + rest;
      assert b in blocks && forall c: Block :: c in rest ==> c in blocks;
      PinValid(n, p, held, b);
      HeldSplit(held, b, rest);
      PinnedKept(p, Pin(p, b), rest);
      PinAllValid(n, Pin(p, b), held + multiset{b}, rest);
    }
  }

  lemma {:induction false} PinnedKept(p: Pool, q: Pool, blocks: seq<Block>)
    requires forall b: Block :: b in blocks ==> RefsOf(q, b) == RefsOf(p, b)
    ensures Pinned(q, blocks) == Pinned(p, blocks)
  {
    if blocks != [] {
      PinnedKept(p, q, blocks[1..]);
    }
  }

  lemma {:induction false} PoolCover(n: nat, p: Pool, held: multiset<Block>, b: Block)
    requires Valid(n, p, held)
    ensures b in p.free || b in p.evictable || b in held <==> 0 <= b < n
    ensures !(b in p.free && b in p.evictable) && !(b in p.free && b in held) && !(b in p.evictable && b in held)
  {
  }

  /** Free, evictable and in-use blocks partition the pool. */
  lemma {:induction false} PoolPartition(n: nat, p: Pool, held: multiset<Block>)
    requires Valid(n, p, held)
    ensures var used := set b: Block | b in held;
      && (set b: Block | b in p.free) !! (set b: Block | b in p.evictable)
      && (set b: Block | b in p.free) !! used && (set b: Block | b in p.evictable) !! used
      && NumFree(p) + |used| == n
  {
    var free, evictable, used := set b: Block | b in p.free, set b: Block | b in p.evictable, set b: Block | b in held;
    assert Distinct(p.free) && Distinct(p.evictable);
    hide Valid;
    DistinctSize(p.free);
    DistinctSize(p.evictable);
    hide *;
    forall b: Block {
      PoolCover(n, p, held, b);
    }
    CoverSize(n, set b: Block | b in p.free, set b: Block | b in p.evictable, set b: Block | b in held);
  }

  lemma {:induction false} CoverSize(n: nat, a: set<Block>, b: set<Block>, c: set<Block>)
    requires a !! b && a !! c && b !! c
    requires forall x :: x in a || x in b || x in c <==> 0 <= x < n
    ensures |a| + |b| + |c| == n
  {
    assert a + b + c == Below(n);
    assert |a + b| == |a| + |b|;
    assert (a + b) !! c;
  }
}
