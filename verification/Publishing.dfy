// What a step computes can be found again: every block that becomes full is published for the requests to come.
module Publishing {
  import opened Basics
  import opened Paging
  import opened BlockPool
  import opened Scheduling
  import opened Accounting
  import opened Planning
  import opened Stepping

  /** Blocks that a request fills are published, whether under its own block or one that was there before. */
  lemma {:induction false} AdvancePublishes(cfg: Config, p: Pool, others: multiset<Block>, it: Item, i: nat)
    requires cfg.blockSize > 0 && Valid(cfg.numBlocks, p, others + multiset(it.s.table)) && ItemOk(cfg, p, it)
    requires cfg.prefixCaching && it.s.registered <= i < (it.s.computed + it.n) / cfg.blockSize
    ensures PrefixHash(cfg.blockSize, it.s.gen.tokens, i + 1) in Advance(cfg, p, it).0.cached
  {
    hide Valid, PrefixHash, TableOk, RequestOk, BlocksFor, Publish, ExtendHashes;
    var s := it.s.(computed := it.s.computed + it.n);
    AdvanceTableOk(cfg, p, it.s, it.n);
    SameRequestOk(cfg, it.s, s);
    PublishReady(cfg, p, others, s);
    var (q, s') := CacheFullBlocks(cfg, p, s);
    assert s'.hashes[i] == PrefixHash(cfg.blockSize, s.gen.tokens, i + 1);
  }

  /** Taking a result unpublishes nothing. */
  lemma {:induction false} ItemKeepsPublished(cfg: Config, p: Pool, others: multiset<Block>, it: Item, sampled: seq<Token>)
    requires cfg.blockSize > 0 && Valid(cfg.numBlocks, p, others + multiset(it.s.table)) && ItemOk(cfg, p, it)
    ensures p.cached.Keys <= UpdateItem(cfg, p, it, sampled).pool.cached.Keys
    ensures it.n > 0 ==> Advance(cfg, p, it).0.cached.Keys <= UpdateItem(cfg, p, it, sampled).pool.cached.Keys
  {
    hide Valid, Publish, ExtendHashes, FreeTable, ItemOk;
    var (p1, s1) := Advance(cfg, p, it);
    PublishGrows(p, it.s.table, s1.hashes, it.s.registered, (it.s.computed + it.n) / cfg.blockSize);
    FreeTableKeeps(p1, s1.table);
  }

  lemma {:induction false} PublishGrows(p: Pool, table: seq<Block>, hashes: seq<Hash>, lo: nat, hi: nat)
    ensures p.cached.Keys <= Publish(p, table, hashes, lo, hi).cached.Keys
    decreases hi - lo
  {
    if lo < hi && lo < |table| && lo < |hashes| {
      PublishGrows(PublishOne(p, table[lo], hashes[lo]), table, hashes, lo + 1, hi);
    }
  }

  lemma {:induction false} FreeTableKeeps(p: Pool, table: seq<Block>)
    ensures FreeTable(p, table).cached == p.cached
    decreases |table|
  {
    if table != [] {
      FreeTableKeeps(Release(p, table[|table| - 1]), table[..|table| - 1]);
    }
  }

  lemma {:induction false} ItemsKeepPublished(cfg: Config, p: Pool, others: multiset<Block>, items: seq<Item>, sampled: seq<Token>)
    requires cfg.blockSize > 0 && Valid(cfg.numBlocks, p, others + Total(Seqs(items), TableOf))
    requires ItemsOk(cfg, p, items) && |sampled| == NumSampled(items)
    ensures p.cached.Keys <= UpdateItems(cfg, p, items, sampled).pool.cached.Keys
    decreases |items|
  {
    hide Valid, ItemOk, UpdateItem, Samples, UpdatedOk;
    if items != [] {
      var it, tail := items[0], items[1..];
      UpdateTailReady(cfg, p, others, items, sampled);
      ItemKeepsPublished(cfg, p, others + Total(Seqs(tail), TableOf), it, sampled);
      var u := UpdateItem(cfg, p, it, sampled);
      var rest := if Samples(it) && sampled != [] then sampled[1..] else sampled;
      ItemsKeepPublished(cfg, u.pool, others + Total(u.running, TableOf), tail, rest);
    }
  }

  lemma {:induction false} ItemsPublish(cfg: Config, p: Pool, others: multiset<Block>, items: seq<Item>, sampled: seq<Token>,
                                        k: nat, i: nat)
    requires cfg.blockSize > 0 && Valid(cfg.numBlocks, p, others + Total(Seqs(items), TableOf))
    requires ItemsOk(cfg, p, items) && |sampled| == NumSampled(items)
    requires cfg.prefixCaching && k < |items| && items[k].n > 0
    requires items[k].s.registered <= i < (items[k].s.computed + items[k].n) / cfg.blockSize
    ensures PrefixHash(cfg.blockSize, items[k].s.gen.tokens, i + 1) in UpdateItems(cfg, p, items, sampled).pool.cached
    decreases |items|
  {
    hide Valid, ItemOk, UpdateItem, Samples, UpdatedOk, PrefixHash, Advance;
    var it, tail := items[0], items[1..];
    var later := Total(Seqs(tail), TableOf);
    UpdateTailReady(cfg, p, others, items, sampled);
    var u := UpdateItem(cfg, p, it, sampled);
    var rest := if Samples(it) && sampled != [] then sampled[1..] else sampled;
    if k == 0 {
      AdvancePublishes(cfg, p, others + later, it, i);
      ItemKeepsPublished(cfg, p, others + later, it, sampled);
      ItemsKeepPublished(cfg, u.pool, others + Total(u.running, TableOf), tail, rest);
    } else {
      ItemsPublish(cfg, u.pool, others + Total(u.running, TableOf), tail, rest, k - 1, i);
    }
  }

  /** After a step a block is published for every block of every prompt or answer that the step has filled, and stays so
      when its request ends. */
  lemma {:induction false} StepPublishes(cfg: Config, m: Mid, sampled: seq<Token>, k: nat, i: nat)
    requires cfg.blockSize > 0 && MidOk(cfg, m) && m.todo == [] && |sampled| == NumSampled(m.items)
    requires cfg.prefixCaching && k < |m.items| && m.items[k].n > 0
    requires m.items[k].s.registered <= i < (m.items[k].s.computed + m.items[k].n) / cfg.blockSize
    ensures !Unpublished(cfg, Update(cfg, m, sampled).0.pool, PrefixHash(cfg.blockSize, m.items[k].s.gen.tokens, i + 1))
  {
    hide Valid, CpuValid, Unique, ItemsOk, QueuesOk, Total, UpdateItems, PrefixHash, KeepsHash;
    var none: multiset<Block> := multiset{};
    assert Seqs(m.todo) == [];
    NoTotal(TableOf);
    assert Held(m.items, m.todo) == none + Total(Seqs(m.items), TableOf);
    ItemsPublish(cfg, m.pool, none, m.items, sampled, k, i);
    var u := UpdateItems(cfg, m.pool, m.items, sampled);
    UpdateItemsOk(cfg, m.pool, none, m.items, sampled);
    KeyHasBlock(cfg, u.pool, none, u.running, PrefixHash(cfg.blockSize, m.items[k].s.gen.tokens, i + 1));
  }

  lemma {:induction false} KeyHasBlock(cfg: Config, p: Pool, held: multiset<Block>, running: seq<Seq>, h: Hash)
    requires cfg.blockSize > 0 && Valid(cfg.numBlocks, p, held + Total(running, TableOf)) && h in p.cached
    ensures !Unpublished(cfg, p, h)
  {
    hide Counted, Listed, Total;
    assert HashOf(p, p.cached[h]) == Some(h);
  }
}
