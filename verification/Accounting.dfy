// What a sequence's tables satisfy, and how each allocator operation on one sequence keeps the pool
// accounting and every other sequence's tables intact.
module Accounting {
  import opened Basics
  import opened Paging
  import opened BlockPool
  import opened PrefixCache
  import opened Streaming
  import opened Scheduling

  /** A validated request that is not finished. Its generated tokens prove that its context fits. */
  ghost predicate RequestOk(cfg: Config, s: Seq)
    requires cfg.blockSize > 0
  {
    && 1 <= s.gen.promptLen <= NumTokens(s)
    && s.gen.promptLen + s.params.maxTokens <= cfg.serving.maxModelLen
    && NumOutput(s.gen) < s.params.maxTokens
    && HashesOk(cfg.blockSize, s.gen.tokens, s.hashes)
    && (NumOutput(s.gen) > 0 ==> NumTokens(s) - 1 <= cfg.numBlocks * cfg.blockSize)
  }

  /** Block i of a table is unpublished, or published as the sequence's own block i. */
  ghost predicate OwnBlock(cfg: Config, p: Pool, s: Seq, i: nat)
    requires i < |s.table|
  {
    HashOf(p, s.table[i]) == None || HashOf(p, s.table[i]) == Some(PrefixHash(cfg.blockSize, s.gen.tokens, i + 1))
  }

  /** A running sequence's table maps no block twice, and the page being written and those after it
      are unpublished. */
  ghost predicate TableOk(cfg: Config, p: Pool, s: Seq)
    requires cfg.blockSize > 0
  {
    && Distinct(s.table)
    && s.cpuTable == []
    && s.registered <= s.computed / cfg.blockSize
    && (forall i :: 0 <= i < |s.table| ==> OwnBlock(cfg, p, s, i))
    && (forall i :: s.computed / cfg.blockSize <= i < |s.table| ==> HashOf(p, s.table[i]) == None)
  }

  /** A running sequence that has been given room for n more tokens. */
  ghost predicate RunOk(cfg: Config, p: Pool, s: Seq, n: nat)
    requires cfg.blockSize > 0
  {
    && TableOk(cfg, p, s)
    && |s.table| == BlocksFor(cfg.blockSize, s.computed + n)
    && s.computed + n <= NumTokens(s)
    && s.status == Running
  }

  /** Every host block is free once or held once. */
  ghost predicate CpuValid(n: nat, cpuFree: seq<Block>, held: multiset<Block>) {
    && (forall c: Block :: multiset(cpuFree)[c] + held[c] == if 0 <= c < n then 1 else 0)
  }

  /** Held blocks keep their hash. */
  ghost predicate KeepsHash(p: Pool, q: Pool, held: multiset<Block>) {
    forall b: Block :: b in held ==> HashOf(q, b) == HashOf(p, b)
  }

  lemma {:induction false} RunOkKept(cfg: Config, p: Pool, q: Pool, held: multiset<Block>, s: Seq, n: nat)
    requires cfg.blockSize > 0 && RunOk(cfg, p, s, n) && KeepsHash(p, q, held) && multiset(s.table) <= held
    ensures RunOk(cfg, q, s, n)
  {
    hide HashOf;
    forall i | 0 <= i < |s.table| ensures HashOf(q, s.table[i]) == HashOf(p, s.table[i]) {
      assert s.table[i] in multiset(s.table);
    }
    forall i | 0 <= i < |s.table| ensures OwnBlock(cfg, q, s, i) {
      assert OwnBlock(cfg, p, s, i);
    }
  }

  lemma {:induction false} ValidCpuFree(n: nat, p: Pool, held: multiset<Block>, cpuFree: seq<Block>)
    requires Valid(n, p, held)
    ensures Valid(n, p.(cpuFree := cpuFree), held)
  {
  }

  lemma {:induction false} HashKeptHeld(n: nat, p: Pool, q: Pool, held: multiset<Block>)
    requires Valid(n, p, held) && HashKept(p, q)
    ensures KeepsHash(p, q, held)
  {
    hide Listed, Indexed;
  }

  /** Distinct tables whose blocks avoid each other append to a distinct table. */
  lemma {:induction false} AppendTable(a: seq<Block>, b: seq<Block>, held: multiset<Block>)
    requires Distinct(a) && Distinct(b) && multiset(a) <= held
    requires forall x :: x in b ==> x !in held
    ensures Distinct(a + b)
  {
    forall i | 0 <= i < |a| ensures a[i] in held {
      assert a[i] in multiset(a);
    }
    forall j | 0 <= j < |b| ensures b[j] !in held {
      assert b[j] in b;
    }
  }

  // --- growing a table ---------------------------------------------------------------------------------

  lemma {:induction false} AppendSlotsValid(cfg: Config, p: Pool, others: multiset<Block>, s: Seq, n: nat)
    requires cfg.blockSize > 0 && Valid(cfg.numBlocks, p, others + multiset(s.table)) && CanAppend(cfg, p, s, n)
    requires |s.table| <= BlocksFor(cfg.blockSize, s.computed + n)
    ensures var (q, s') := AppendSlots(cfg, p, s, n);
      && Valid(cfg.numBlocks, q, others + multiset(s'.table))
      && NumFree(q) == NumFree(p) - Needed(cfg, s, n)
      && KeepsHash(p, q, others + multiset(s.table)) && q.cpuFree == p.cpuFree
  {
    hide Valid, KeepsHash, HashKept, Grow, BlocksFor;
    var k := Needed(cfg, s, n);
    var held := others + multiset(s.table);
    GrowValid(cfg.numBlocks, p, held, k);
    GrowKeeps(cfg.numBlocks, p, held, k);
    HashKeptHeld(cfg.numBlocks, p, Grow(p, k).0, held);
    assert others + multiset(s.table + Grow(p, k).1) == held + multiset(Grow(p, k).1);
  }

  /** Unpublished blocks appended to a table leave it as it should be. */
  lemma {:induction false} ExtendTableOk(cfg: Config, p: Pool, q: Pool, held: multiset<Block>, s: Seq, blocks: seq<Block>)
    requires cfg.blockSize > 0 && TableOk(cfg, p, s) && KeepsHash(p, q, held) && multiset(s.table) <= held
    requires Distinct(blocks) && forall b: Block :: b in blocks ==> b !in held && HashOf(q, b) == None
    ensures TableOk(cfg, q, s.(table := s.table + blocks))
  {
    hide HashOf;
    var s' := s.(table := s.table + blocks);
    AppendTable(s.table, blocks, held);
    forall i | 0 <= i < |s'.table|
      ensures OwnBlock(cfg, q, s', i)
      ensures s.computed / cfg.blockSize <= i ==> HashOf(q, s'.table[i]) == None
    {
      if i < |s.table| {
        assert s.table[i] in multiset(s.table);
        assert OwnBlock(cfg, p, s, i);
      } else {
        assert s'.table[i] == blocks[i - |s.table|];
      }
    }
  }

  lemma {:induction false} AppendSlotsRunOk(cfg: Config, p: Pool, others: multiset<Block>, s: Seq, n: nat)
    requires cfg.blockSize > 0 && Valid(cfg.numBlocks, p, others + multiset(s.table)) && CanAppend(cfg, p, s, n)
    requires |s.table| <= BlocksFor(cfg.blockSize, s.computed + n)
    requires TableOk(cfg, p, s) && s.computed + n <= NumTokens(s)
    ensures var (q, s') := AppendSlots(cfg, p, s, n);
      && RunOk(cfg, q, s'.(status := Running), n)
      && s.table <= s'.table && s' == s.(table := s'.table)
      && (forall i :: |s.table| <= i < |s'.table| ==> s'.table[i] !in others + multiset(s.table))
  {
    hide Valid, Grow, HashOf, NumFree, TableOk, BlocksFor, Distinct, KeepsHash;
    var k := Needed(cfg, s, n);
    var held := others + multiset(s.table);
    GrowValid(cfg.numBlocks, p, held, k);
    AppendSlotsValid(cfg, p, others, s, n);
    var (q, blocks) := Grow(p, k);
    ExtendTableOk(cfg, p, q, held, s, blocks);
    SameTableOk(cfg, q, s.(table := s.table + blocks), s.(table := s.table + blocks, status := Running));
  }

  /** TableOk looks at tables, tokens and progress only. */
  lemma {:induction false} SameTableOk(cfg: Config, p: Pool, s: Seq, t: Seq)
    requires cfg.blockSize > 0 && TableOk(cfg, p, s)
    requires t.table == s.table && t.cpuTable == s.cpuTable && t.registered == s.registered
    requires t.computed == s.computed && t.gen.tokens == s.gen.tokens
    ensures TableOk(cfg, p, t)
  {
    forall i | 0 <= i < |t.table| ensures OwnBlock(cfg, p, t, i) {
      assert OwnBlock(cfg, p, s, i);
    }
  }

  // --- giving a table back -----------------------------------------------------------------------------

  lemma {:induction false} SameCacheKeeps(p: Pool, q: Pool, held: multiset<Block>)
    requires SameCache(p, q)
    ensures KeepsHash(p, q, held)
  {
  }

  lemma {:induction false} FreeSeqValid(cfg: Config, p: Pool, others: multiset<Block>, s: Seq)
    requires Valid(cfg.numBlocks, p, others + multiset(s.table))
    ensures var (q, s') := FreeSeq(p, s);
      && Valid(cfg.numBlocks, q, others)
      && KeepsHash(p, q, others) && q.cpuFree == p.cpuFree
      && s' == s.(table := [], registered := 0)
  {
    hide Valid, KeepsHash;
    var held := others + multiset(s.table);
    FreeTableValid(cfg.numBlocks, p, held, s.table);
    assert held - multiset(s.table) == others;
    SameCacheKeeps(p, FreeTable(p, s.table), others);
  }

  lemma {:induction false} TakeCpu(n: nat, cpuFree: seq<Block>, held: multiset<Block>, k: nat)
    requires CpuValid(n, cpuFree, held) && k <= |cpuFree|
    ensures CpuValid(n, cpuFree[k..], held + multiset(cpuFree[..k]))
    ensures Distinct(cpuFree[..k]) && forall c: Block :: c in cpuFree[..k] ==> 0 <= c < n && c !in held
  {
    assert cpuFree == cpuFree[..k] + cpuFree[k..];
    assert multiset(cpuFree) == multiset(cpuFree[..k]) + multiset(cpuFree[k..]);
    forall c: Block | c in cpuFree[..k] ensures 0 <= c < n && c !in held {
      assert c in multiset(cpuFree[..k]);
      assert multiset(cpuFree)[c] >= 1;
    }
    forall c: Block ensures multiset(cpuFree[..k])[c] <= 1 {
      assert multiset(cpuFree)[c] <= 1;
    }
    CountsDistinct(cpuFree[..k]);
  }

  lemma {:induction false} GiveCpu(n: nat, cpuFree: seq<Block>, others: multiset<Block>, table: seq<Block>)
    requires CpuValid(n, cpuFree, others + multiset(table))
    ensures CpuValid(n, cpuFree + table, others)
  {
    assert multiset(cpuFree + table) == multiset(cpuFree) + multiset(table);
  }

  lemma {:induction false} SwapOutValid(cfg: Config, p: Pool, others: multiset<Block>, hosts: multiset<Block>, s: Seq)
    requires Valid(cfg.numBlocks, p, others + multiset(s.table)) && CanSwapOut(p, s) && s.cpuTable == []
    requires CpuValid(cfg.numCpuBlocks, p.cpuFree, hosts)
    ensures var (q, s', copies) := SwapOut(p, s);
      && Valid(cfg.numBlocks, q, others)
      && KeepsHash(p, q, others)
      && CpuValid(cfg.numCpuBlocks, q.cpuFree, hosts + multiset(s'.cpuTable))
      && s' == s.(table := [], registered := 0, cpuTable := s'.cpuTable)
      && |s'.cpuTable| == |s.table| && Distinct(s'.cpuTable)
      && (forall c: Block :: c in s'.cpuTable ==> 0 <= c < cfg.numCpuBlocks && c !in hosts)
      && copies == Zip(s.table, s'.cpuTable)
  {
    hide Valid, KeepsHash, CpuValid, Distinct;
    var k := |s.table|;
    var p1 := p.(cpuFree := p.cpuFree[k..]);
    var s1 := s.(cpuTable := s.cpuTable + p.cpuFree[..k]);
    assert s1.cpuTable == p.cpuFree[..k];
    ValidCpuFree(cfg.numBlocks, p, others + multiset(s.table), p.cpuFree[k..]);
    TakeCpu(cfg.numCpuBlocks, p.cpuFree, hosts, k);
    FreeSeqValid(cfg, p1, others, s1);
    SwapKeepsHash(p, p1, FreeSeq(p1, s1).0, others);
  }

  lemma {:induction false} SwapKeepsHash(p: Pool, p1: Pool, q: Pool, held: multiset<Block>)
    requires p1.hash == p.hash && KeepsHash(p1, q, held)
    ensures KeepsHash(p, q, held)
  {
  }

  // --- coming back from the host -----------------------------------------------------------------------

  lemma {:induction false} SwapInValid(cfg: Config, p: Pool, others: multiset<Block>, hosts: multiset<Block>, s: Seq)
    requires cfg.blockSize > 0 && Valid(cfg.numBlocks, p, others) && s.table == [] && |s.cpuTable| <= NumFree(p)
    requires CpuValid(cfg.numCpuBlocks, p.cpuFree, hosts + multiset(s.cpuTable))
    ensures var (q, s', copies) := SwapIn(p, s);
      && Valid(cfg.numBlocks, q, others + multiset(s'.table))
      && KeepsHash(p, q, others)
      && CpuValid(cfg.numCpuBlocks, q.cpuFree, hosts)
      && NumFree(q) == NumFree(p) - |s.cpuTable|
      && TableOk(cfg, q, s')
      && s' == s.(table := s'.table, registered := 0, cpuTable := [])
      && |s'.table| == |s.cpuTable|
      && (forall b: Block :: b in s'.table ==> 0 <= b < cfg.numBlocks && b !in others && HashOf(q, b) == None)
      && copies == Zip(s.cpuTable, s'.table)
  {
    var k := |s.cpuTable|;
    var (q0, blocks) := Grow(p, k);
    var s' := s.(table := blocks, cpuTable := [], registered := 0);
    var q := q0.(cpuFree := q0.cpuFree + s.cpuTable);
    assert s.table + blocks == blocks;
    GrowValid(cfg.numBlocks, p, others, k);
    GrowKeeps(cfg.numBlocks, p, others, k);
    HashKeptHeld(cfg.numBlocks, p, q0, others);
    ValidCpuFree(cfg.numBlocks, q0, others + multiset(blocks), q.cpuFree);
    GiveCpu(cfg.numCpuBlocks, p.cpuFree, hosts, s.cpuTable);
    hide Valid, CpuValid, Grow, HashKept, Distinct;
    FreshTableOk(cfg, q, s');
  }

  lemma {:induction false} FreshTableOk(cfg: Config, p: Pool, s: Seq)
    requires cfg.blockSize > 0 && Distinct(s.table) && s.cpuTable == [] && s.registered == 0
    requires forall b: Block :: b in s.table ==> HashOf(p, b) == None
    ensures TableOk(cfg, p, s)
  {
    hide HashOf;
    forall i | 0 <= i < |s.table| ensures HashOf(p, s.table[i]) == None {
      assert s.table[i] in s.table;
    }
  }

  // --- admission -----------------------------------------------------------------------------------------

  /** The published blocks that stand for the longest prefix of a request's own tokens: with one more, nothing would be
      left to compute, or it is not published. */
  ghost predicate LongestPrefix(cfg: Config, p: Pool, s: Seq, hits: seq<Block>) {
    && |hits| * cfg.blockSize < NumTokens(s)
    && (forall i :: 0 <= i < |hits| ==>
          0 <= hits[i] < cfg.numBlocks && HashOf(p, hits[i]) == Some(PrefixHash(cfg.blockSize, s.gen.tokens, i + 1)))
    && (if !cfg.prefixCaching then hits == []
        else (|hits| + 1) * cfg.blockSize < NumTokens(s) ==> Unpublished(cfg, p, PrefixHash(cfg.blockSize, s.gen.tokens, |hits| + 1)))
  }

  ghost predicate Unpublished(cfg: Config, p: Pool, h: Hash) {
    forall b: Block :: 0 <= b < cfg.numBlocks ==> HashOf(p, b) != Some(h)
  }

  /** A lookup finds the longest prefix, in distinct blocks, and changes nothing of the request but its memoised hashes. */
  lemma {:induction false} CachedPrefixOk(cfg: Config, p: Pool, held: multiset<Block>, s: Seq)
    requires cfg.blockSize > 0 && Valid(cfg.numBlocks, p, held) && RequestOk(cfg, s)
    ensures var (s', hits) := CachedPrefix(cfg, p, s);
      && s' == s.(hashes := s'.hashes) && RequestOk(cfg, s')
      && |hits| * cfg.blockSize < NumTokens(s)
      && Distinct(hits)
      && (forall i :: 0 <= i < |hits| ==>
            0 <= hits[i] < cfg.numBlocks && HashOf(p, hits[i]) == Some(PrefixHash(cfg.blockSize, s.gen.tokens, i + 1)))
      && LongestPrefix(cfg, p, s, hits)
  {
    hide Valid, RequestOk, CachedPrefix, PrefixHash, HashOf, Distinct;
    HitsFound(cfg, p, held, s);
    var (s', hits) := CachedPrefix(cfg, p, s);
    OneMoreBlock(cfg.blockSize, |hits|, NumTokens(s));
  }

  lemma {:induction false} HitsFound(cfg: Config, p: Pool, held: multiset<Block>, s: Seq)
    requires cfg.blockSize > 0 && Valid(cfg.numBlocks, p, held) && RequestOk(cfg, s)
    ensures var (s', hits) := CachedPrefix(cfg, p, s);
      && s' == s.(hashes := s'.hashes) && RequestOk(cfg, s')
      && |hits| * cfg.blockSize < NumTokens(s)
      && Distinct(hits)
      && (forall i :: 0 <= i < |hits| ==>
            0 <= hits[i] < cfg.numBlocks && HashOf(p, hits[i]) == Some(PrefixHash(cfg.blockSize, s.gen.tokens, i + 1)))
      && (cfg.prefixCaching && |hits| < (NumTokens(s) - 1) / cfg.blockSize ==>
            Unpublished(cfg, p, PrefixHash(cfg.blockSize, s.gen.tokens, |hits| + 1)))
      && (!cfg.prefixCaching ==> hits == [])
  {
    if cfg.prefixCaching {
      var bs, tokens, k := cfg.blockSize, s.gen.tokens, MaxCached(cfg, s);
      FullPages(bs, NumTokens(s) - 1);
      ExtendHashesOk(bs, tokens, s.hashes, k);
      var hashes := ExtendHashes(bs, tokens, s.hashes, k);
      assert hashes[..Min(k, |hashes|)] == hashes[..k];
      MulMono(k, |hashes|, bs);
      hide Valid, ExtendHashes, Hits, PrefixHash, HashOf, Distinct;
      assert HashesOk(bs, tokens, hashes[..k]);
      HitsAreOwnPrefix(cfg.numBlocks, p, held, bs, tokens, hashes[..k]);
      MulMono(|Hits(p, hashes[..k])|, k, bs);
    }
  }

  lemma {:induction false} OneMoreBlock(bs: nat, k: nat, tokens: nat)
    requires bs > 0 && tokens > 0
    ensures (k + 1) * bs < tokens ==> k < (tokens - 1) / bs
  {
    var q := (tokens - 1) / bs;
    FullPages(bs, tokens - 1);
    MulMono(if q <= k then q + 1 else k + 1, k + 1, bs);
  }

  /** Starting on n tokens behind `cached`: the pool gives up the new blocks and those hits that
      nobody was using, no more, and loses no hit. */
  lemma {:induction false} AllocateValid(cfg: Config, p: Pool, others: multiset<Block>, s: Seq, n: nat,
                                         cached: seq<Block>, wm: bool)
    requires cfg.blockSize > 0 && Valid(cfg.numBlocks, p, others) && s.table == [] && s.cpuTable == []
    requires CanAllocate(cfg, p, n, cached, wm) && |cached| * cfg.blockSize + n <= NumTokens(s)
    requires Distinct(cached)
    requires forall i :: 0 <= i < |cached| ==>
      0 <= cached[i] < cfg.numBlocks && HashOf(p, cached[i]) == Some(PrefixHash(cfg.blockSize, s.gen.tokens, i + 1))
    ensures var (q, s') := Allocate(cfg, p, s, n, cached);
      && Valid(cfg.numBlocks, q, others + multiset(s'.table))
      && KeepsHash(p, q, others) && q.cpuFree == p.cpuFree
      && RunOk(cfg, q, s'.(status := Running), n)
      && cached <= s'.table
      && s' == s.(table := s'.table, computed := |cached| * cfg.blockSize, registered := |cached|)
      && NumFree(q) == NumFree(p) - Pinned(p, cached) - (|s'.table| - |cached|)
      && NumFree(q) >= (if wm then cfg.watermarkBlocks else 0)
      && (forall i :: |cached| <= i < |s'.table| ==> s'.table[i] !in others + multiset(cached))
  {
    hide Valid, PinAll, Grow, Pinned, HashOf, NumFree, TableOk, BlocksFor, Distinct, KeepsHash, OwnBlock, PrefixHash;
    var bs, c := cfg.blockSize, |cached|;
    var p1 := PinAll(p, cached);
    var s1 := s.(table := cached, computed := c * bs, registered := c);
    AllocatePinned(cfg, p, others, s1, cached);
    BlocksForWhole(bs, c);
    BlocksForMono(bs, c * bs, c * bs + n);
    AppendSlotsValid(cfg, p1, others, s1, n);
    AppendSlotsRunOk(cfg, p1, others, s1, n);
    KeepsHashTrans(p, p1, AppendSlots(cfg, p1, s1, n).0, others, multiset(cached));
  }

  lemma {:induction false} KeepsHashTrans(p: Pool, p1: Pool, q: Pool, held: multiset<Block>, more: multiset<Block>)
    requires p1.hash == p.hash && KeepsHash(p1, q, held + more)
    ensures KeepsHash(p, q, held)
  {
  }

  lemma {:induction false} AllocatePinned(cfg: Config, p: Pool, others: multiset<Block>, s1: Seq, cached: seq<Block>)
    requires cfg.blockSize > 0 && Valid(cfg.numBlocks, p, others) && Distinct(cached)
    requires s1.table == cached && s1.cpuTable == [] && s1.computed == |cached| * cfg.blockSize && s1.registered == |cached|
    requires forall i :: 0 <= i < |cached| ==>
      0 <= cached[i] < cfg.numBlocks && HashOf(p, cached[i]) == Some(PrefixHash(cfg.blockSize, s1.gen.tokens, i + 1))
    ensures var p1 := PinAll(p, cached);
      && Valid(cfg.numBlocks, p1, others + multiset(cached))
      && NumFree(p1) == NumFree(p) - Pinned(p, cached)
      && p1.hash == p.hash && p1.cpuFree == p.cpuFree
      && TableOk(cfg, p1, s1)
  {
    BlocksForWhole(cfg.blockSize, |cached|);
    ValidSizes(cfg.numBlocks, p, others);
    hide Valid, BlocksFor, PrefixHash, Distinct;
    PinAllValid(cfg.numBlocks, p, others, cached);
    var p1 := PinAll(p, cached);
    assert forall b: Block :: HashOf(p1, b) == HashOf(p, b);
    hide HashOf, PinAll;
    forall i | 0 <= i < |s1.table| ensures OwnBlock(cfg, p1, s1, i) {
      assert s1.table[i] == cached[i];
    }
  }

  // --- publishing ----------------------------------------------------------------------------------------

  lemma {:induction false} AdvanceTableOk(cfg: Config, p: Pool, s: Seq, n: nat)
    requires cfg.blockSize > 0 && RunOk(cfg, p, s, n)
    ensures RunOk(cfg, p, s.(computed := s.computed + n), 0)
  {
    var s1 := s.(computed := s.computed + n);
    PageMono(cfg.blockSize, s.computed + n, s.computed);
    hide HashOf, Distinct;
    forall i | 0 <= i < |s1.table| ensures OwnBlock(cfg, p, s1, i) {
      assert OwnBlock(cfg, p, s, i);
    }
  }

  /** A block that somebody else holds too is already published. */
  lemma {:induction false} SharedIsPublished(n: nat, p: Pool, others: multiset<Block>, table: seq<Block>, b: Block)
    requires Valid(n, p, others + multiset(table)) && b in table && HashOf(p, b) == None
    ensures b !in others && RefsOf(p, b) == 1
  {
    assert b in multiset(table);
    hide Listed;
    assert (others + multiset(table))[b] == others[b] + multiset(table)[b];
  }

  lemma {:induction false} CacheFullBlocksOk(cfg: Config, p: Pool, others: multiset<Block>, s: Seq)
    requires cfg.blockSize > 0 && Valid(cfg.numBlocks, p, others + multiset(s.table))
    requires RunOk(cfg, p, s, 0) && RequestOk(cfg, s)
    ensures var (q, s') := CacheFullBlocks(cfg, p, s);
      && Valid(cfg.numBlocks, q, others + multiset(s'.table))
      && KeepsHash(p, q, others) && q.cpuFree == p.cpuFree && NumFree(q) == NumFree(p)
      && s' == s.(hashes := s'.hashes, registered := s'.registered)
      && RunOk(cfg, q, s', 0) && RequestOk(cfg, s')
  {
    var bs, full := cfg.blockSize, s.computed / cfg.blockSize;
    hide Listed, Counted, Indexed, BlocksFor, PrefixHash, Distinct, Publish, ExtendHashes, HashOf;
    if cfg.prefixCaching && s.registered < full {
      var (q, s') := CacheFullBlocks(cfg, p, s);
      PublishReady(cfg, p, others, s);
      PublishTableOk(cfg, p, q, s, s', others);
    }
  }

  /** The publishing call's preconditions hold, and what it then gives. */
  lemma {:induction false} PublishReady(cfg: Config, p: Pool, others: multiset<Block>, s: Seq)
    requires cfg.blockSize > 0 && Valid(cfg.numBlocks, p, others + multiset(s.table))
    requires RunOk(cfg, p, s, 0) && RequestOk(cfg, s)
    requires cfg.prefixCaching && s.registered < s.computed / cfg.blockSize
    ensures var (q, s') := CacheFullBlocks(cfg, p, s);
      var full := s.computed / cfg.blockSize;
      && Valid(cfg.numBlocks, q, others + multiset(s.table)) && q.cpuFree == p.cpuFree && NumFree(q) == NumFree(p)
      && full <= |s.table| && full <= |s'.hashes| && HashesOk(cfg.blockSize, s.gen.tokens, s'.hashes)
      && GainsOwn(p, q, s.table, s'.hashes, s.registered, full)
      && (forall i :: s.registered <= i < full ==> s'.hashes[i] in q.cached)
  {
    var bs, full := cfg.blockSize, s.computed / cfg.blockSize;
    var held := others + multiset(s.table);
    FullPages(bs, s.computed);
    ExtendHashesOk(bs, s.gen.tokens, s.hashes, full);
    hide Valid, BlocksFor, PrefixHash, Distinct, ExtendHashes, HashOf, Publish, GainsOwn;
    var hashes := ExtendHashes(bs, s.gen.tokens, s.hashes, full);
    forall b: Block | b in s.table ensures b in held {
      assert b in multiset(s.table);
    }
    forall i | s.registered <= i < full ensures OwnHash(p, s.table, hashes, i) {
      assert OwnBlock(cfg, p, s, i);
    }
    PublishValid(cfg.numBlocks, p, held, s.table, hashes, s.registered, full);
    PublishKeeps(p, s.table, hashes, s.registered, full);
  }

  lemma {:induction false} PublishTableOk(cfg: Config, p: Pool, q: Pool, s: Seq, s': Seq, others: multiset<Block>)
    requires cfg.blockSize > 0 && RunOk(cfg, p, s, 0)
    requires Valid(cfg.numBlocks, p, others + multiset(s.table))
    requires var full := s.computed / cfg.blockSize;
      && s' == s.(hashes := s'.hashes, registered := full)
      && full <= |s.table| && full <= |s'.hashes| && HashesOk(cfg.blockSize, s.gen.tokens, s'.hashes)
      && GainsOwn(p, q, s.table, s'.hashes, s.registered, full)
    ensures RunOk(cfg, q, s', 0)
    ensures KeepsHash(p, q, others)
  {
    hide Valid, HashOf, BlocksFor, PrefixHash;
    var full := s.computed / cfg.blockSize;
    forall i | 0 <= i < |s'.table|
      ensures OwnBlock(cfg, q, s', i)
      ensures full <= i ==> HashOf(q, s'.table[i]) == None
    {
      assert OwnBlock(cfg, p, s, i);
      var b := s.table[i];
      if HashOf(q, b) != HashOf(p, b) {
        assert Gained(p, q, s.table, s'.hashes, s.registered, full, b);
      }
    }
    forall b: Block | b in others ensures HashOf(q, b) == HashOf(p, b) {
      if HashOf(q, b) != HashOf(p, b) {
        assert Gained(p, q, s.table, s'.hashes, s.registered, full, b);
        SharedIsPublished(cfg.numBlocks, p, others, s.table, b);
      }
    }
  }
}
