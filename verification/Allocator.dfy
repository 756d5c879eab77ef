// The paged allocator as the engine runs it: pools, counts and the prefix cache updated in place, each
// method proved to do what the allocator's functions on values say.
module Allocator {
  import opened Basics
  import opened Paging
  import opened BlockPool
  import opened Scheduling
  import opened Accounting
  import opened Sequences

  // --- loops half-way ------------------------------------------------------------------------------------------------

  /** Growing by k from p0 has taken some blocks and goes on from p by `rest`. */
  ghost predicate Growing(p0: Pool, k: int, taken: seq<Block>, p: Pool, rest: int) {
    Grow(p0, k) == (Grow(p, rest).0, taken + Grow(p, rest).1)
  }

  lemma {:induction false} GrowingStart(p: Pool, k: int)
    ensures Growing(p, k, [], p, k)
  {
    assert [] + Grow(p, k).1 == Grow(p, k).1;
  }

  lemma {:induction false} GrowingStep(p0: Pool, k: int, taken: seq<Block>, p: Pool, rest: int)
    requires Growing(p0, k, taken, p, rest) && rest > 0
    ensures Growing(p0, k, taken + [TakeFree(p).1], TakeFree(p).0, rest - 1)
  {
    hide TakeFree;
    var (p1, b) := TakeFree(p);
    assert Grow(p, rest) == (Grow(p1, rest - 1).0, [b] + Grow(p1, rest - 1).1);
    assert taken + ([b] + Grow(p1, rest - 1).1) == taken + [b] + Grow(p1, rest - 1).1;
  }

  lemma {:induction false} GrowingDone(p0: Pool, k: int, taken: seq<Block>, p: Pool, rest: int)
    requires Growing(p0, k, taken, p, rest) && rest <= 0
    ensures Grow(p0, k) == (p, taken)
  {
    assert taken + [] == taken;
  }

  /** Taking a block looks at no host block. */
  lemma {:induction false} TakeFreeHosts(p: Pool, hosts: seq<Block>)
    ensures TakeFree(p.(cpuFree := hosts)) == (TakeFree(p).0.(cpuFree := hosts), TakeFree(p).1)
    ensures TakeFree(p).0.cpuFree == p.cpuFree
  {
  }

  /** Freeing a table from p0 has come down to its first i blocks in p. */
  ghost predicate Freeing(p0: Pool, table: seq<Block>, p: Pool, i: nat)
    requires i <= |table|
  {
    FreeTable(p, table[..i]) == FreeTable(p0, table)
  }

  lemma {:induction false} FreeingStart(p: Pool, table: seq<Block>)
    ensures Freeing(p, table, p, |table|)
  {
    assert table[..|table|] == table;
  }

  lemma {:induction false} FreeingStep(p0: Pool, table: seq<Block>, p: Pool, i: nat)
    requires i < |table| && Freeing(p0, table, p, i + 1)
    ensures Freeing(p0, table, Release(p, table[i]), i)
    ensures table[i] in multiset(table[..i + 1]) && multiset(table[..i]) == multiset(table[..i + 1]) - multiset{table[i]}
  {
    hide Release;
    assert table[..i + 1] == table[..i] + [table[i]];
    assert table[..i + 1][..i] == table[..i];
  }

  lemma {:induction false} FreeingDone(p0: Pool, table: seq<Block>, p: Pool)
    requires Freeing(p0, table, p, 0)
    ensures FreeTable(p0, table) == p
  {
  }

  /** Pinning some hits from p0 has the rest, from i on, to do in p. */
  ghost predicate Pinning(p0: Pool, blocks: seq<Block>, p: Pool, i: nat)
    requires i <= |blocks|
  {
    PinAll(p, blocks[i..]) == PinAll(p0, blocks)
  }

  lemma {:induction false} PinningStart(p: Pool, blocks: seq<Block>)
    ensures Pinning(p, blocks, p, 0)
  {
    assert blocks[0..] == blocks;
  }

  lemma {:induction false} PinningStep(p0: Pool, blocks: seq<Block>, p: Pool, i: nat)
    requires i < |blocks| && Pinning(p0, blocks, p, i)
    ensures Pinning(p0, blocks, Pin(p, blocks[i]), i + 1)
    ensures multiset(blocks[..i + 1]) == multiset(blocks[..i]) + multiset{blocks[i]} && blocks[i] in blocks
  {
    hide Pin;
    assert blocks[i..][0] == blocks[i] && blocks[i..][1..] == blocks[i + 1..];
    assert blocks[..i + 1] == blocks[..i] + [blocks[i]];
  }

  lemma {:induction false} PinningDone(p0: Pool, blocks: seq<Block>, p: Pool)
    requires Pinning(p0, blocks, p, |blocks|)
    ensures PinAll(p0, blocks) == p && blocks[..|blocks|] == blocks
  {
  }

  /** Some of the blocks parked in `hosts` are back: i of them, in `table`, copied by `pairs`. */
  ghost predicate Returning(p0: Pool, hosts: seq<Block>, p: Pool, table: seq<Block>, pairs: seq<(Block, Block)>, i: nat) {
    && i <= |hosts| && |table| == |pairs| == i
    && p.cpuFree == p0.cpuFree + hosts[..i]
    && Growing(p0, |hosts|, table, p.(cpuFree := p0.cpuFree), |hosts| - i)
    && forall j :: 0 <= j < i ==> pairs[j] == (hosts[j], table[j])
  }

  lemma {:induction false} ReturningStart(p: Pool, hosts: seq<Block>)
    ensures Returning(p, hosts, p, [], [], 0)
  {
    GrowingStart(p, |hosts|);
    assert p.cpuFree + hosts[..0] == p.cpuFree;
  }

  lemma {:induction false} ReturningStep(p0: Pool, hosts: seq<Block>, p: Pool, table: seq<Block>, pairs: seq<(Block,
                                         Block)>, i: nat)
    requires i < |hosts| && Returning(p0, hosts, p, table, pairs, i)
    ensures var (q, b) := TakeFree(p);
      Returning(p0, hosts, q.(cpuFree := p.cpuFree + [hosts[i]]), table + [b], pairs + [(hosts[i], b)], i + 1)
  {
    hide TakeFree, Growing;
    GrowingStep(p0, |hosts|, table, p.(cpuFree := p0.cpuFree), |hosts| - i);
    TakeFreeHosts(p, p0.cpuFree);
    assert hosts[..i + 1] == hosts[..i] + [hosts[i]];
  }

  lemma {:induction false} ReturningDone(p0: Pool, hosts: seq<Block>, p: Pool, table: seq<Block>, pairs: seq<(Block, Block)>)
    requires Returning(p0, hosts, p, table, pairs, |hosts|)
    ensures Grow(p0, |hosts|) == (p.(cpuFree := p0.cpuFree), table)
    ensures p.cpuFree == p0.cpuFree + hosts && |table| == |hosts| && pairs == Zip(hosts, table)
  {
    GrowingDone(p0, |hosts|, table, p.(cpuFree := p0.cpuFree), 0);
    assert hosts[..|hosts|] == hosts;
  }

  class BlockManager {
    const cfg: Config
    var freeBlocks: seq<Block>
    var refCounts: seq<int>
    var blockHash: seq<Option<Hash>>
    var hashToBlock: map<Hash, Block>
    var evictable: seq<Block>
    var cpuFree: seq<Block>
    /** Every live block table, taken together. */
    ghost var held: multiset<Block>
    /** The blocks released so far, in order. */
    ghost var released: seq<Block>

    constructor (cfg: Config)
      requires cfg.blockSize > 0
      ensures this.cfg == cfg && Valid() && View() == NewPool(cfg.numBlocks, cfg.numCpuBlocks) && held == multiset{}
    {
      this.cfg := cfg;
      freeBlocks := seq(cfg.numBlocks, i => i);
      refCounts := seq(cfg.numBlocks, _ => 0);
      blockHash := seq(cfg.numBlocks, _ => None);
      hashToBlock, evictable := map[], [];
      cpuFree := seq(cfg.numCpuBlocks, i => i);
      held, released := multiset{}, [];
      NewPoolValid(cfg.numBlocks, cfg.numCpuBlocks);
    }

    ghost function View(): Pool
      reads this
    {
      Pool(freeBlocks, refCounts, blockHash, hashToBlock, evictable, cpuFree, released)
    }

    ghost predicate Valid()
      reads this
    {
      cfg.blockSize > 0 && BlockPool.Valid(cfg.numBlocks, View(), held)
    }

    // --- accounting ----------------------------------------------------------------------------------------------

    function NumFreeBlocks(): (n: nat)
      reads this
      ensures n == NumFree(View())
    {
      |freeBlocks| + |evictable|
    }

    function BlocksNeeded(s: Sequence, numNewTokens: nat): (n: int)
      requires cfg.blockSize > 0
      reads s, s.detokenizer
      ensures n == Needed(cfg, s.View(), numNewTokens)
    {
      BlocksFor(cfg.blockSize, s.numComputedTokens + numNewTokens) - |s.blockTable|
    }

    // --- taking and releasing blocks --------------------------------------------------------------------------------

    method TakeFreeBlock() returns (b: Block)
      requires Valid() && NumFreeBlocks() > 0
      modifies this
      ensures (View(), b) == TakeFree(old(View()))
      ensures Valid() && held == old(held) + multiset{b}
    {
      hide BlockPool.Valid;
      TakeFreeValid(cfg.numBlocks, View(), held);
      NextTaken(cfg.numBlocks, View(), held);
      if freeBlocks != [] {
        b := freeBlocks[0];
        freeBlocks := freeBlocks[1..];
      } else {
        b := evictable[0];
        evictable := evictable[1..];
        hashToBlock := hashToBlock - {blockHash[b].value};
        blockHash := blockHash[b := None];
      }
      refCounts := refCounts[b := 1];
      held := held + multiset{b};
    }

    static lemma {:induction false} NextTaken(n: nat, p: Pool, held: multiset<Block>)
      requires BlockPool.Valid(n, p, held) && NumFree(p) > 0
      ensures |p.refs| == |p.hash| == n
      ensures p.free != [] ==> 0 <= p.free[0] < n && p.hash[p.free[0]].None?
      ensures p.free == [] ==> p.evictable != [] && 0 <= p.evictable[0] < n && p.hash[p.evictable[0]].Some?
    {
      if p.free != [] {
        assert p.free[0] in p.free;
      } else {
        assert p.evictable[0] in p.evictable;
      }
    }

    method ReleaseBlock(b: Block)
      requires Valid() && b in held
      modifies this
      ensures View() == Release(old(View()), b)
      ensures Valid() && held == old(held) - multiset{b}
    {
      ReleaseValid(cfg.numBlocks, View(), held, b);
      InRange(cfg.numBlocks, View(), held, b);
      hide BlockPool.Valid;
      refCounts := refCounts[b := refCounts[b] - 1];
      if refCounts[b] == 0 {
        if blockHash[b].Some? {
          evictable := evictable + [b];
        } else {
          freeBlocks := freeBlocks + [b];
        }
      }
      held, released := held - multiset{b}, released + [b];
    }

    static lemma {:induction false} InRange(n: nat, p: Pool, held: multiset<Block>, b: Block)
      requires BlockPool.Valid(n, p, held) && b in held
      ensures 0 <= b < n && |p.refs| == |p.hash| == n
    {
    }

    /** Give a whole table back, last block first, so that on the evictable list its later blocks stand
        before its earlier ones. */
    method Free(s: Sequence)
      requires Valid() && multiset(s.blockTable) <= held
      modifies this, s`blockTable, s`numRegisteredBlocks
      ensures (View(), s.View()) == FreeSeq(old(View()), old(s.View()))
      ensures Valid() && held == old(held) - multiset(old(s.blockTable)) && s.blockTable == []
    {
      hide BlockPool.Valid, Release, FreeTable, Freeing;
      var table := s.blockTable;
      var i := |table|;
      FreeingStart(View(), table);
      assert table[..i] == table;
      while i > 0
        invariant 0 <= i <= |table| && s.blockTable == table
        invariant Valid() && multiset(table[..i]) <= held && held - multiset(table[..i]) == old(held) - multiset(table)
        invariant Freeing(old(View()), table, View(), i)
      {
        i := i - 1;
        FreeingStep(old(View()), table, View(), i);
        ReleaseBlock(table[i]);
      }
      FreeingDone(old(View()), table, View());
      assert table[..0] == [];
      s.blockTable := [];
      s.numRegisteredBlocks := 0;
    }

    method Grow(s: Sequence, numNewTokens: nat)
      requires Valid() && BlocksNeeded(s, numNewTokens) <= NumFreeBlocks()
      modifies this, s`blockTable
      ensures (View(), s.View()) == Scheduling.AppendSlots(cfg, old(View()), old(s.View()), numNewTokens)
      ensures Valid() && old(s.blockTable) <= s.blockTable
      ensures held == old(held) + multiset(s.blockTable[|old(s.blockTable)|..])
      ensures cpuFree == old(cpuFree)
    {
      hide BlockPool.Valid, TakeFree, BlockPool.Grow, Growing, BlocksFor;
      var k := BlocksNeeded(s, numNewTokens);
      ghost var p0, t0, taken := View(), s.blockTable, [];
      GrowingStart(p0, k);
      var i := 0;
      while i < k
        invariant 0 <= i && (i <= k || (k < 0 && i == 0))
        invariant Valid() && (k <= 0 || k - i <= NumFreeBlocks())
        invariant s.blockTable == t0 + taken && held == old(held) + multiset(taken)
        invariant Growing(p0, k, taken, View(), k - i)
        invariant cpuFree == old(cpuFree)
      {
        ghost var p := View();
        GrowingStep(p0, k, taken, p, k - i);
        TakeFreeHosts(p, p.cpuFree);
        TakeFreeValid(cfg.numBlocks, p, held);
        var b := TakeFreeBlock();
        s.blockTable := s.blockTable + [b];
        taken := taken + [b];
        i := i + 1;
      }
      GrowingDone(p0, k, taken, View(), k - i);
      assert s.blockTable[|t0|..] == taken;
    }

    method CanAppend(s: Sequence, numNewTokens: nat) returns (ok: bool)
      requires Valid()
      ensures ok == Scheduling.CanAppend(cfg, View(), s.View(), numNewTokens)
    {
      ok := BlocksNeeded(s, numNewTokens) <= NumFreeBlocks();
    }

    method AppendSlots(s: Sequence, numNewTokens: nat)
      requires Valid() && Scheduling.CanAppend(cfg, View(), s.View(), numNewTokens)
      modifies this, s`blockTable
      ensures (View(), s.View()) == Scheduling.AppendSlots(cfg, old(View()), old(s.View()), numNewTokens)
      ensures Valid() && old(s.blockTable) <= s.blockTable
      ensures held == old(held) + multiset(s.blockTable[|old(s.blockTable)|..])
      ensures cpuFree == old(cpuFree)
    {
      Grow(s, numNewTokens);
    }

    // --- prefix cache ------------------------------------------------------------------------------------------------

    method ExtendHashes(s: Sequence, numBlocks: nat)
      requires cfg.blockSize > 0
      modifies s`blockHashes
      ensures s.blockHashes == BlockPool.ExtendHashes(cfg.blockSize, s.tokenIds, old(s.blockHashes), numBlocks)
      ensures |s.blockHashes| >= numBlocks
    {
      hide Chunk;
      var bs := cfg.blockSize;
      while |s.blockHashes| < numBlocks
        invariant BlockPool.ExtendHashes(bs, s.tokenIds, s.blockHashes, numBlocks)
               == BlockPool.ExtendHashes(bs, s.tokenIds, old(s.blockHashes), numBlocks)
        decreases numBlocks - |s.blockHashes|
      {
        var i := |s.blockHashes|;
        var parent := if i == 0 then Root else s.blockHashes[i - 1];
        s.blockHashes := s.blockHashes + [Chain(parent, Chunk(bs, s.tokenIds, i))];
      }
    }

    /** The longest run of published blocks that matches the start of the sequence, short of its last token. */
    method CachedPrefix(s: Sequence) returns (hits: seq<Block>)
      requires cfg.blockSize > 0 && s.NumTokens() > 0
      modifies s`blockHashes
      ensures (s.View(), hits) == Scheduling.CachedPrefix(cfg, View(), old(s.View()))
    {
      if !cfg.prefixCaching {
        return [];
      }
      var maxBlocks := (s.NumTokens() - 1) / cfg.blockSize;
      ExtendHashes(s, maxBlocks);
      var wanted := s.blockHashes[..maxBlocks];
      hits := [];
      var i := 0;
      while i < |wanted|
        invariant i <= |wanted| && hits + Hits(View(), wanted[i..]) == Hits(View(), wanted)
      {
        assert wanted[i..][0] == wanted[i] && wanted[i..][1..] == wanted[i + 1..];
        if wanted[i] !in hashToBlock {
          break;
        }
        hits := hits + [hashToBlock[wanted[i]]];
        i := i + 1;
      }
      assert hits == Hits(View(), wanted);
    }

    /** Publish the blocks of s that have become full. */
    method CacheFullBlocks(s: Sequence)
      requires Valid() && multiset(s.blockTable) <= held
      requires RunOk(cfg, View(), s.View(), 0) && RequestOk(cfg, s.View())
      modifies this, s`blockHashes, s`numRegisteredBlocks
      ensures (View(), s.View()) == Scheduling.CacheFullBlocks(cfg, old(View()), old(s.View()))
      ensures Valid() && held == old(held) && cpuFree == old(cpuFree) && NumFreeBlocks() == old(NumFreeBlocks())
    {
      hide BlockPool.Valid, BlockPool.ExtendHashes, BlocksFor, RunOk, RequestOk, Publish;
      ghost var others := held - multiset(s.blockTable);
      assert held == others + multiset(s.blockTable);
      CacheFullBlocksOk(cfg, View(), others, s.View());
      FullWithin(cfg, View(), s.View());
      ValidSizes(cfg.numBlocks, View(), held);
      if !cfg.prefixCaching {
        return;
      }
      var full := s.numComputedTokens / cfg.blockSize;
      if full <= s.numRegisteredBlocks {
        return;
      }
      ExtendHashes(s, full);
      PublishRange(s.blockTable, s.blockHashes, s.numRegisteredBlocks, full);
      s.numRegisteredBlocks := full;
    }

    static lemma {:induction false} FullWithin(cfg: Config, p: Pool, s: Seq)
      requires cfg.blockSize > 0 && RunOk(cfg, p, s, 0)
      ensures 0 <= s.computed / cfg.blockSize <= |s.table|
    {
      FullPages(cfg.blockSize, s.computed);
    }

    method PublishRange(table: seq<Block>, hashes: seq<Hash>, lo: nat, hi: nat)
      requires lo <= hi <= |table| && hi <= |hashes| && |blockHash| == cfg.numBlocks
      modifies this`blockHash, this`hashToBlock
      ensures View() == Publish(old(View()), table, hashes, lo, hi)
    {
      var i := lo;
      while i < hi
        invariant lo <= i <= hi
        invariant Publish(View(), table, hashes, i, hi) == Publish(old(View()), table, hashes, lo, hi)
      {
        PublishHere(table[i], hashes[i]);
        i := i + 1;
      }
    }

    method PublishHere(b: Block, h: Hash)
      modifies this`blockHash, this`hashToBlock
      ensures View() == PublishOne(old(View()), b, h)
    {
      if HashOfBlock(b).None? && h !in hashToBlock {
        if 0 <= b < |blockHash| {
          blockHash := blockHash[b := Some(h)];
        }
        hashToBlock := hashToBlock[h := b];
      }
    }

    function HashOfBlock(b: Block): (h: Option<Hash>)
      reads this
      ensures h == HashOf(View(), b)
    {
      if 0 <= b < |blockHash| then blockHash[b] else None
    }

    // --- admission ---------------------------------------------------------------------------------------------------

    method CountPinned(cached: seq<Block>) returns (pinned: nat)
      requires forall b :: b in cached ==> 0 <= b < |refCounts|
      ensures pinned == Pinned(View(), cached)
    {
      pinned := 0;
      var i := |cached|;
      while i > 0
        invariant 0 <= i <= |cached| && pinned == Pinned(View(), cached[i..])
      {
        i := i - 1;
        assert cached[i..][0] == cached[i] && cached[i..][1..] == cached[i + 1..] && cached[i] in cached;
        if refCounts[cached[i]] == 0 {
          pinned := pinned + 1;
        }
      }
    }

    /** Is there room to begin a sequence on these hits, its new tokens included? */
    method CanAllocate(numNewTokens: nat, cached: seq<Block>, useWatermark: bool) returns (ok: bool)
      requires cfg.blockSize > 0 && forall b :: b in cached ==> 0 <= b < |refCounts|
      ensures ok == Scheduling.CanAllocate(cfg, View(), numNewTokens, cached, useWatermark)
    {
      var needed := BlocksFor(cfg.blockSize, |cached| * cfg.blockSize + numNewTokens) - |cached|;
      var pinned := CountPinned(cached);
      var available := NumFreeBlocks() - pinned - (if useWatermark then cfg.watermarkBlocks else 0);
      ok := needed <= available;
    }

    method PinBlock(b: Block)
      requires Valid() && 0 <= b < cfg.numBlocks && HashOfBlock(b).Some?
      modifies this
      ensures View() == Pin(old(View()), b)
      ensures Valid() && held == old(held) + multiset{b}
    {
      PinValid(cfg.numBlocks, View(), held, b);
      ValidSizes(cfg.numBlocks, View(), held);
      if refCounts[b] == 0 {
        evictable := Without(evictable, b);
      }
      refCounts := refCounts[b := refCounts[b] + 1];
      held := held + multiset{b};
      hide BlockPool.Valid;
    }

    method PinPrefix(cached: seq<Block>)
      requires Valid() && Distinct(cached) && forall b :: b in cached ==> 0 <= b < cfg.numBlocks && HashOfBlock(b).Some?
      modifies this
      ensures View() == PinAll(old(View()), cached)
      ensures Valid() && held == old(held) + multiset(cached)
      ensures NumFreeBlocks() == old(NumFreeBlocks()) - Pinned(old(View()), cached)
    {
      hide BlockPool.Valid, Pin, PinAll, Pinning, Pinned, Distinct, HashOf;
      PinnedSizes(cfg.numBlocks, View(), held, cached);
      ghost var p0 := View();
      PinningStart(p0, cached);
      var i := 0;
      while i < |cached|
        invariant i <= |cached| && Valid() && held == old(held) + multiset(cached[..i])
        invariant forall b :: b in cached ==> 0 <= b < cfg.numBlocks && HashOf(View(), b).Some?
        invariant Pinning(p0, cached, View(), i)
      {
        PinningStep(p0, cached, View(), i);
        SameHashes(cfg.numBlocks, View(), held, cached[i]);
        PinBlock(cached[i]);
        i := i + 1;
      }
      PinningDone(p0, cached, View());
    }

    static lemma {:induction false} PinnedSizes(n: nat, p: Pool, held: multiset<Block>, cached: seq<Block>)
      requires BlockPool.Valid(n, p, held) && Distinct(cached) && forall b :: b in cached ==> 0 <= b < n && HashOf(p, b).Some?
      ensures NumFree(PinAll(p, cached)) == NumFree(p) - Pinned(p, cached)
    {
      ValidSizes(n, p, held);
      hide BlockPool.Valid;
      PinAllValid(n, p, held, cached);
    }

    static lemma {:induction false} SameHashes(n: nat, p: Pool, held: multiset<Block>, b: Block)
      requires BlockPool.Valid(n, p, held) && 0 <= b < n && HashOf(p, b).Some?
      ensures forall c: Block :: HashOf(Pin(p, b), c) == HashOf(p, c)
    {
    }

    method Allocate(s: Sequence, numNewTokens: nat, cached: seq<Block>)
      requires Valid() && s.blockTable == [] && Distinct(cached)
      requires forall b :: b in cached ==> 0 <= b < cfg.numBlocks && HashOfBlock(b).Some?
      requires exists wm :: Scheduling.CanAllocate(cfg, View(), numNewTokens, cached, wm)
      modifies this, s`blockTable, s`numComputedTokens, s`numRegisteredBlocks
      ensures (View(), s.View()) == Scheduling.Allocate(cfg, old(View()), old(s.View()), numNewTokens, cached)
      ensures Valid() && held == old(held) + multiset(s.blockTable)
    {
      hide BlockPool.Valid, Pinned, PinAll, BlocksFor, HashOf;
      ghost var p0, s0 := View(), s.View();
      PinPrefix(cached);
      ghost var held1 := held;
      s.blockTable := cached;
      s.numComputedTokens := |cached| * cfg.blockSize;
      s.numRegisteredBlocks := |cached|;
      Grow(s, numNewTokens);
      assert s.blockTable == cached + s.blockTable[|cached|..];
    }

    // --- swapping ------------------------------------------------------------------------------------------------------

    method CanSwapOut(s: Sequence) returns (ok: bool)
      ensures ok == Scheduling.CanSwapOut(View(), s.View())
    {
      ok := |s.blockTable| <= |cpuFree|;
    }

    /** Park the sequence's blocks in host memory; returns the (GPU block, host block) copies to perform. */
    method SwapOut(s: Sequence) returns (pairs: seq<(Block, Block)>)
      requires Valid() && multiset(s.blockTable) <= held && Scheduling.CanSwapOut(View(), s.View())
      modifies this, s`blockTable, s`cpuBlockTable, s`numRegisteredBlocks
      ensures (View(), s.View(), pairs) == Scheduling.SwapOut(old(View()), old(s.View()))
      ensures Valid() && held == old(held) - multiset(old(s.blockTable)) && s.blockTable == []
    {
      hide BlockPool.Valid;
      var table := s.blockTable;
      ghost var free0, cpu0 := cpuFree, s.cpuBlockTable;
      pairs := [];
      var i := 0;
      while i < |table|
        invariant i <= |table| && |pairs| == i && s.blockTable == table
        invariant forall j :: 0 <= j < i ==> pairs[j] == (table[j], free0[j])
        invariant cpuFree == free0[i..] && s.cpuBlockTable == cpu0 + free0[..i]
        invariant View() == old(View()).(cpuFree := cpuFree) && held == old(held)
        invariant s.View() == old(s.View()).(cpuTable := s.cpuBlockTable)
      {
        var cpuBlock := cpuFree[0];
        cpuFree := cpuFree[1..];
        pairs := pairs + [(table[i], cpuBlock)];
        s.cpuBlockTable := s.cpuBlockTable + [cpuBlock];
        i := i + 1;
      }
      ValidCpuFree(cfg.numBlocks, old(View()), held, cpuFree);
      assert pairs == Zip(table, free0[..|table|]);
      Free(s);
    }

    method CanSwapIn(s: Sequence, numNewTokens: nat, useWatermark: bool) returns (ok: bool)
      requires cfg.blockSize > 0
      ensures ok == Scheduling.CanSwapIn(cfg, View(), s.View(), numNewTokens, useWatermark)
    {
      var needed := BlocksFor(cfg.blockSize, s.numComputedTokens + numNewTokens);
      ok := needed <= NumFreeBlocks() - (if useWatermark then cfg.watermarkBlocks else 0);
    }

    /** Give one host block's content a GPU block, and the host block back. */
    method BringBack(s: Sequence, host: Block) returns (pair: (Block, Block))
      requires Valid() && NumFreeBlocks() > 0
      modifies this, s`blockTable
      ensures View() == TakeFree(old(View())).0.(cpuFree := old(cpuFree) + [host])
      ensures pair == (host, TakeFree(old(View())).1) && s.blockTable == old(s.blockTable) + [pair.1]
      ensures Valid() && held == old(held) + multiset{pair.1} && NumFreeBlocks() == old(NumFreeBlocks()) - 1
    {
      hide BlockPool.Valid, TakeFree;
      TakeFreeHosts(View(), cpuFree);
      TakeFreeValid(cfg.numBlocks, View(), held);
      var b := TakeFreeBlock();
      ghost var q := View();
      pair := (host, b);
      s.blockTable := s.blockTable + [b];
      cpuFree := cpuFree + [host];
      ValidCpuFree(cfg.numBlocks, q, held, cpuFree);
    }

    /** Bring the sequence's blocks back; returns the (host block, GPU block) copies to perform. */
    method SwapIn(s: Sequence) returns (pairs: seq<(Block, Block)>)
      requires Valid() && s.blockTable == [] && |s.cpuBlockTable| <= NumFreeBlocks()
      modifies this, s`blockTable, s`cpuBlockTable, s`numRegisteredBlocks
      ensures (View(), s.View(), pairs) == Scheduling.SwapIn(old(View()), old(s.View()))
      ensures Valid() && held == old(held) + multiset(s.blockTable)
      ensures NumFreeBlocks() == old(NumFreeBlocks()) - |old(s.cpuBlockTable)|
    {
      hide BlockPool.Valid, TakeFree, BlockPool.Grow, Returning, Scheduling.SwapIn, Zip;
      var hosts := s.cpuBlockTable;
      ghost var p0, v0 := View(), s.View();
      ReturningStart(p0, hosts);
      pairs := [];
      var i := 0;
      while i < |hosts|
        invariant i <= |hosts| && s.cpuBlockTable == hosts && s.numRegisteredBlocks == old(s.numRegisteredBlocks)
        invariant Valid() && |hosts| - i <= NumFreeBlocks() == NumFree(p0) - i
        invariant held == old(held) + multiset(s.blockTable)
        invariant Returning(p0, hosts, View(), s.blockTable, pairs, i)
      {
        ReturningStep(p0, hosts, View(), s.blockTable, pairs, i);
        var pair := BringBack(s, hosts[i]);
        pairs := pairs + [pair];
        i := i + 1;
      }
      ReturningDone(p0, hosts, View(), s.blockTable, pairs);
      ReturnedIs(p0, v0, View(), s.blockTable, pairs);
      s.cpuBlockTable := [];
      s.numRegisteredBlocks := 0;
    }

    static lemma {:induction false} ReturnedIs(p0: Pool, v0: Seq, p: Pool, table: seq<Block>, pairs: seq<(Block, Block)>)
      requires v0.table == [] && BlockPool.Grow(p0, |v0.cpuTable|) == (p.(cpuFree := p0.cpuFree), table) && |table| == |v0.cpuTable|
      requires p.cpuFree == p0.cpuFree + v0.cpuTable && pairs == Zip(v0.cpuTable, table)
      ensures Scheduling.SwapIn(p0, v0) == (p, v0.(table := table, cpuTable := [], registered := 0), pairs)
    {
      hide BlockPool.Grow, Zip;
      assert [] + table == table;
    }

    method FreeCpu(s: Sequence)
      modifies this`cpuFree, s`cpuBlockTable
      ensures (View(), s.View()) == Scheduling.FreeCpu(old(View()), old(s.View()))
      ensures old(Valid()) ==> Valid()
    {
      hide BlockPool.Valid;
      if Valid() {
        ValidCpuFree(cfg.numBlocks, View(), held, cpuFree + s.cpuBlockTable);
      }
      cpuFree := cpuFree + s.cpuBlockTable;
      s.cpuBlockTable := [];
    }
  }
}
