// The K/V representation invariant: what the pages of running, swapped and published blocks hold,
// kept by every decision of a step while its swap copies are performed as they are decided.
module KvKept {
  import opened Basics
  import opened Paging
  import opened BlockPool
  import opened PrefixCache
  import opened Transformer
  import opened Streaming
  import opened Scheduling
  import opened Accounting
  import opened Planning
  import opened Stepping
  import opened Memory

  /** Every listed sequence's computed positions hold their K/V on the device. */
  ghost predicate OnDevice(cfg: Config, model: Model, pages: seq<PageData>, seqs: seq<Seq>)
    requires cfg.blockSize > 0
  {
    forall i :: 0 <= i < |seqs| ==> SeqKV(model, cfg.blockSize, pages, seqs[i].table, seqs[i].gen.tokens, seqs[i].computed)
  }

  /** Every listed sequence's computed positions hold their K/V on the host. */
  ghost predicate OnHost(cfg: Config, model: Model, pages: seq<PageData>, seqs: seq<Seq>)
    requires cfg.blockSize > 0
  {
    forall i :: 0 <= i < |seqs| ==> SeqKV(model, cfg.blockSize, pages, seqs[i].cpuTable, seqs[i].gen.tokens, seqs[i].computed)
  }

  ghost predicate MemShape(cfg: Config, model: Model, mem: Mem) {
    && PagesShape(mem.gpu, cfg.numBlocks + 1, cfg.blockSize, model.layers)
    && PagesShape(mem.cpu, cfg.numCpuBlocks, cfg.blockSize, model.layers)
  }

  ghost predicate KvOk(cfg: Config, model: Model, mem: Mem, m: Mid)
    requires cfg.blockSize > 0
  {
    && MemShape(cfg, model, mem)
    && OnDevice(cfg, model, mem.gpu, Seqs(m.items)) && OnDevice(cfg, model, mem.gpu, Seqs(m.todo))
    && OnHost(cfg, model, mem.cpu, m.swapped)
    && CacheKV(model, cfg.blockSize, mem.gpu, m.pool)
  }

  /** No block gains a published hash. */
  ghost predicate NoNewHash(p: Pool, q: Pool) {
    forall b: Block :: HashOf(q, b).Some? ==> HashOf(q, b) == HashOf(p, b)
  }

  lemma {:induction false} CacheKVKept(cfg: Config, model: Model, pages: seq<PageData>, p: Pool, q: Pool)
    requires CacheKV(model, cfg.blockSize, pages, p) && NoNewHash(p, q)
    ensures CacheKV(model, cfg.blockSize, pages, q)
  {
    hide HashKV, HashOf;
  }

  // --- no operation but publishing gives a block a hash ------------------------------------------------------

  lemma {:induction false} AppendSlotsNoNew(cfg: Config, p: Pool, held: multiset<Block>, s: Seq, n: nat)
    requires cfg.blockSize > 0 && Valid(cfg.numBlocks, p, held) && CanAppend(cfg, p, s, n)
    ensures NoNewHash(p, AppendSlots(cfg, p, s, n).0)
  {
    GrowKeeps(cfg.numBlocks, p, held, Needed(cfg, s, n));
  }

  lemma {:induction false} FreeSeqNoNew(cfg: Config, p: Pool, others: multiset<Block>, s: Seq)
    requires Valid(cfg.numBlocks, p, others + multiset(s.table))
    ensures NoNewHash(p, FreeSeq(p, s).0)
  {
    FreeTableValid(cfg.numBlocks, p, others + multiset(s.table), s.table);
  }

  lemma {:induction false} SwapInNoNew(cfg: Config, p: Pool, held: multiset<Block>, s: Seq)
    requires Valid(cfg.numBlocks, p, held) && |s.cpuTable| <= NumFree(p)
    ensures NoNewHash(p, SwapIn(p, s).0)
  {
    GrowKeeps(cfg.numBlocks, p, held, |s.cpuTable|);
  }
  lemma {:induction false} SameHashNoNew(p: Pool, p1: Pool, q: Pool)
    requires p1.hash == p.hash && NoNewHash(p1, q)
    ensures NoNewHash(p, q)
  {
  }

  // --- lists of sequences ------------------------------------------------------------------------------------

  lemma {:induction false} OnDeviceSnoc(cfg: Config, model: Model, pages: seq<PageData>, items: seq<Item>, it: Item)
    requires cfg.blockSize > 0 && OnDevice(cfg, model, pages, Seqs(items))
    requires SeqKV(model, cfg.blockSize, pages, it.s.table, it.s.gen.tokens, it.s.computed)
    ensures OnDevice(cfg, model, pages, Seqs(items + [it]))
  {
    hide SeqKV;
    SeqsSnoc(items, it);
  }

  lemma {:induction false} OnDeviceCut(cfg: Config, model: Model, pages: seq<PageData>, todo: seq<Item>)
    requires cfg.blockSize > 0 && todo != [] && OnDevice(cfg, model, pages, Seqs(todo))
    ensures OnDevice(cfg, model, pages, Seqs(todo[1..])) && OnDevice(cfg, model, pages, Seqs(todo[..|todo| - 1]))
    ensures var s := todo[0].s; SeqKV(model, cfg.blockSize, pages, s.table, s.gen.tokens, s.computed)
    ensures var s := todo[|todo| - 1].s; SeqKV(model, cfg.blockSize, pages, s.table, s.gen.tokens, s.computed)
  {
    hide SeqKV;
    SeqsCuts(todo);
    assert Seqs(todo)[0] == todo[0].s && Seqs(todo)[|todo| - 1] == todo[|todo| - 1].s;
  }

  // --- one decision at a time ----------------------------------------------------------------------------------

  lemma {:induction false} SkipHeadKv(cfg: Config, model: Model, mem: Mem, m: Mid)
    requires cfg.blockSize > 0 && m.todo != [] && KvOk(cfg, model, mem, m)
    ensures KvOk(cfg, model, mem, SkipHead(m))
  {
    hide MemShape, OnDevice, OnHost, CacheKV, SeqKV;
    OnDeviceCut(cfg, model, mem.gpu, m.todo);
    OnDeviceSnoc(cfg, model, mem.gpu, m.items, Item(m.todo[0].s, 0));
  }

  lemma {:induction false} AppendHeadKv(cfg: Config, model: Model, mem: Mem, m: Mid)
    requires cfg.blockSize > 0 && m.todo != [] && MidOk(cfg, m) && KvOk(cfg, model, mem, m)
    requires CanAppend(cfg, m.pool, m.todo[0].s, m.todo[0].n)
    ensures KvOk(cfg, model, mem, AppendHead(cfg, m))
  {
    var Item(s, n) := m.todo[0];
    assert |s.table| == BlocksFor(cfg.blockSize, s.computed) by {
      assert TodoOk(cfg, m.pool, m.todo[0]);
    }
    AppendSlotsNoNew(cfg, m.pool, Held(m.items, m.todo), s, n);
    hide MemShape, OnDevice, OnHost, CacheKV, SeqKV, MidOk, Grow, BlocksFor, NumFree, Cell, NoNewHash;
    var (q, s') := AppendSlots(cfg, m.pool, s, n);
    OnDeviceCut(cfg, model, mem.gpu, m.todo);
    SeqKVSame(model, cfg.blockSize, mem.gpu, mem.gpu, s.table, s'.table, s.gen.tokens, s.computed);
    OnDeviceSnoc(cfg, model, mem.gpu, m.items, Item(s', n));
    CacheKVKept(cfg, model, mem.gpu, m.pool, q);
  }

  /** Pages outside a set of destinations keep every cell. */
  lemma {:induction false} CellsSame(pages: seq<PageData>, pages': seq<PageData>, changed: seq<Block>, b: Block)
    requires |pages'| == |pages| && (forall c :: 0 <= c < |pages| && c !in changed ==> pages'[c] == pages[c])
    requires b !in changed
    ensures forall o :: Cell(pages', b, o) == Cell(pages, b, o)
  {
  }

  /** Copies onto pages that no listed table uses leave those sequences alone. */
  lemma {:induction false} OnHostKept(cfg: Config, model: Model, pages: seq<PageData>, pages': seq<PageData>,
                                      changed: seq<Block>, seqs: seq<Seq>)
    requires cfg.blockSize > 0 && OnHost(cfg, model, pages, seqs)
    requires |pages'| == |pages| && (forall c :: 0 <= c < |pages| && c !in changed ==> pages'[c] == pages[c])
    requires forall c: Block :: c in changed ==> c !in Total(seqs, HostsOf)
    requires forall i :: 0 <= i < |seqs| ==> SwappedOk(cfg, seqs[i])
    ensures OnHost(cfg, model, pages', seqs)
  {
    hide SeqKV, Cell, Total, RequestOk, BlocksFor;
    forall i | 0 <= i < |seqs|
      ensures SeqKV(model, cfg.blockSize, pages', seqs[i].cpuTable, seqs[i].gen.tokens, seqs[i].computed)
    {
      var t := seqs[i].cpuTable;
      TotalHas(seqs, i, HostsOf);
      assert SwappedOk(cfg, seqs[i]);
      forall j, o | 0 <= j < |t| && 0 <= o < cfg.blockSize ensures Cell(pages', t[j], o) == Cell(pages, t[j], o) {
        assert t[j] in multiset(t);
        CellsSame(pages, pages', changed, t[j]);
      }
      SeqKVSame(model, cfg.blockSize, pages, pages', t, t, seqs[i].gen.tokens, seqs[i].computed);
    }
  }

  lemma {:induction false} OnDeviceKept(cfg: Config, model: Model, p: Pool, pages: seq<PageData>,
                                        pages': seq<PageData>, changed: seq<Block>, items: seq<Item>)
    requires cfg.blockSize > 0 && OnDevice(cfg, model, pages, Seqs(items)) && ItemsOk(cfg, p, items)
    requires |pages'| == |pages| && (forall c :: 0 <= c < |pages| && c !in changed ==> pages'[c] == pages[c])
    requires forall c: Block :: c in changed ==> c !in Total(Seqs(items), TableOf)
    ensures OnDevice(cfg, model, pages', Seqs(items))
  {
    hide SeqKV, Cell, Total, RequestOk, TableOk;
    forall i | 0 <= i < |items|
      ensures SeqKV(model, cfg.blockSize, pages', items[i].s.table, items[i].s.gen.tokens, items[i].s.computed)
    {
      var s := items[i].s;
      TotalHas(Seqs(items), i, TableOf);
      assert ItemOk(cfg, p, items[i]);
      BlocksForMono(cfg.blockSize, s.computed, s.computed + items[i].n);
      hide BlocksFor;
      assert SeqKV(model, cfg.blockSize, pages, Seqs(items)[i].table, Seqs(items)[i].gen.tokens, Seqs(items)[i].computed);
      forall j, o | 0 <= j < |s.table| && 0 <= o < cfg.blockSize ensures Cell(pages', s.table[j], o) == Cell(pages, s.table[j], o) {
        assert s.table[j] in multiset(s.table);
        CellsSame(pages, pages', changed, s.table[j]);
      }
      SeqKVSame(model, cfg.blockSize, pages, pages', s.table, s.table, s.gen.tokens, s.computed);
    }
  }

  lemma {:induction false} CacheKVPages(cfg: Config, model: Model, pages: seq<PageData>, pages': seq<PageData>,
                                        changed: seq<Block>, p: Pool)
    requires CacheKV(model, cfg.blockSize, pages, p)
    requires |pages'| == |pages| && (forall c :: 0 <= c < |pages| && c !in changed ==> pages'[c] == pages[c])
    requires forall c: Block :: c in changed ==> HashOf(p, c) == None
    ensures CacheKV(model, cfg.blockSize, pages', p)
  {
    hide Cell, EntryAt, HashOf;
    forall b: Block | HashOf(p, b).Some? ensures HashKV(model, cfg.blockSize, pages', b, HashOf(p, b).value) {
      CellsSame(pages, pages', changed, b);
      assert HashKV(model, cfg.blockSize, pages, b, HashOf(p, b).value);
    }
  }

  /** A copy of a table's pages is a table of the same content. */
  lemma {:induction false} CopiedTable(cfg: Config, model: Model, src: seq<PageData>, dst: seq<PageData>,
                                       from: seq<Block>, onto: seq<Block>, tokens: seq<Token>, computed: nat)
    requires cfg.blockSize > 0 && |from| == |onto| && BlocksFor(cfg.blockSize, computed) <= |from|
    requires forall i :: 0 <= i < |from| ==> 0 <= from[i] < |src| && 0 <= onto[i] < |dst| && dst[onto[i]] == src[from[i]]
    requires SeqKV(model, cfg.blockSize, src, from, tokens, computed)
    ensures SeqKV(model, cfg.blockSize, dst, onto, tokens, computed)
  {
    SeqKVSame(model, cfg.blockSize, src, dst, from, onto, tokens, computed);
  }

  /** The memory after performing the copies a decision adds. */
  function NowCopied(mem: Mem, m: Mid, m': Mid): Mem
    requires |m.swapOut| <= |m'.swapOut| && |m.swapIn| <= |m'.swapIn|
  {
    Swapped(mem, m'.swapOut[|m.swapOut|..], m'.swapIn[|m.swapIn|..])
  }

  lemma {:induction false} PreemptCopies(cfg: Config, m: Mid, s: Seq)
    ensures var m' := Preempt(cfg, m, s);
      && m'.swapIn == m.swapIn && m.swapOut <= m'.swapOut && m'.items == m.items && m'.todo == m.todo
  {
  }

  /** Preempting by swap parks the victim's K/V on the host; preempting by recompute drops it. */
  lemma {:induction false} PreemptKv(cfg: Config, model: Model, mem: Mem, m: Mid, it: Item)
    requires cfg.blockSize > 0 && OkBut(cfg, m, it.s) && TodoOk(cfg, m.pool, it) && KvOk(cfg, model, mem, m)
    requires SeqKV(model, cfg.blockSize, mem.gpu, it.s.table, it.s.gen.tokens, it.s.computed)
    ensures |m.swapOut| <= |Preempt(cfg, m, it.s).swapOut| && |m.swapIn| <= |Preempt(cfg, m, it.s).swapIn|
    ensures KvOk(cfg, model, NowCopied(mem, m, Preempt(cfg, m, it.s)), Preempt(cfg, m, it.s))
  {
    var v := it.s.(status := Preempted);
    var m' := Preempt(cfg, m, it.s);
    PreemptCopies(cfg, m, it.s);
    hide Swapped;
    if cfg.swap && CanSwapOut(m.pool, v) {
      assert m'.swapOut == m.swapOut + SwapOut(m.pool, v).2;
      assert m'.swapOut[|m.swapOut|..] == SwapOut(m.pool, v).2;
      assert m'.swapIn[|m.swapIn|..] == [];
      PreemptSwapKv(cfg, model, mem, m, it);
    } else {
      assert m'.swapOut[|m.swapOut|..] == [] && m'.swapIn[|m.swapIn|..] == [];
      PreemptDropKv(cfg, model, mem, m, it);
    }
  }

  lemma {:induction false} PreemptDropKv(cfg: Config, model: Model, mem: Mem, m: Mid, it: Item)
    requires cfg.blockSize > 0 && OkBut(cfg, m, it.s) && KvOk(cfg, model, mem, m)
    requires !(cfg.swap && CanSwapOut(m.pool, it.s.(status := Preempted)))
    ensures Swapped(mem, [], []) == mem
    ensures KvOk(cfg, model, mem, Preempt(cfg, m, it.s))
  {
    var v := it.s.(status := Preempted);
    hide MemShape, OnDevice, OnHost, CacheKV, Valid, CpuValid, ItemsOk, TodosOk, QueuesOk, Unique, FreeTable, NoNewHash;
    FreeSeqNoNew(cfg, m.pool, Held(m.items, m.todo), v);
    CacheKVKept(cfg, model, mem.gpu, m.pool, FreeSeq(m.pool, v).0);
  }

  lemma {:induction false} HeldInRange(n: nat, p: Pool, held: multiset<Block>, table: seq<Block>)
    requires Valid(n, p, held) && multiset(table) <= held
    ensures forall i :: 0 <= i < |table| ==> 0 <= table[i] < n
  {
    hide Listed, Indexed;
    forall i | 0 <= i < |table| ensures 0 <= table[i] < n {
      assert table[i] in multiset(table);
    }
  }

  /** The victim's pages land on host pages nobody holds. */
  lemma {:induction false} SwapOutPages(cfg: Config, model: Model, mem: Mem, m: Mid, v: Seq, v': Seq, copies: seq<(Block, Block)>)
    requires cfg.blockSize > 0 && KvOk(cfg, model, mem, m) && QueuesOk(cfg, m.swapped, m.preempted, m.waiting)
    requires SeqKV(model, cfg.blockSize, mem.gpu, v.table, v.gen.tokens, v.computed)
    requires BlocksFor(cfg.blockSize, v.computed) <= |v.table| == |v'.cpuTable| && copies == Zip(v.table, v'.cpuTable)
    requires forall i :: 0 <= i < |v.table| ==> 0 <= v.table[i] < cfg.numBlocks
    requires Distinct(v'.cpuTable)
    requires forall c: Block :: c in v'.cpuTable ==> 0 <= c < cfg.numCpuBlocks && c !in Total(m.swapped, HostsOf)
    ensures var cpu := CopyPages(mem.gpu, mem.cpu, copies);
      && PagesShape(cpu, cfg.numCpuBlocks, cfg.blockSize, model.layers)
      && SeqKV(model, cfg.blockSize, cpu, v'.cpuTable, v.gen.tokens, v.computed)
      && OnHost(cfg, model, cpu, m.swapped)
  {
    hide OnDevice, OnHost, CacheKV, SeqKV, QueuesOk, Total, BlocksFor, Distinct, PagesShape;
    ShapeCounts(cfg, model, mem);
    assert forall i :: 0 <= i < |v'.cpuTable| ==> v'.cpuTable[i] in v'.cpuTable;
    CopyPagesOk(mem.gpu, mem.cpu, v.table, v'.cpuTable, copies);
    CopyPagesShape(mem.gpu, mem.cpu, copies, cfg.numBlocks + 1, cfg.numCpuBlocks, cfg.blockSize, model.layers);
    var cpu := CopyPages(mem.gpu, mem.cpu, copies);
    CopiedTable(cfg, model, mem.gpu, cpu, v.table, v'.cpuTable, v.gen.tokens, v.computed);
    SwappedParts(cfg, m);
    OnHostKept(cfg, model, mem.cpu, cpu, v'.cpuTable, m.swapped);
  }

  lemma {:induction false} PreemptSwapKv(cfg: Config, model: Model, mem: Mem, m: Mid, it: Item)
    requires cfg.blockSize > 0 && OkBut(cfg, m, it.s) && TodoOk(cfg, m.pool, it) && KvOk(cfg, model, mem, m)
    requires SeqKV(model, cfg.blockSize, mem.gpu, it.s.table, it.s.gen.tokens, it.s.computed)
    requires cfg.swap && CanSwapOut(m.pool, it.s.(status := Preempted))
    ensures KvOk(cfg, model, Swapped(mem, SwapOut(m.pool, it.s.(status := Preempted)).2, []), Preempt(cfg, m, it.s))
  {
    hide OnDevice, OnHost, CacheKV, SeqKV, Valid, CpuValid, ItemsOk, TodosOk, QueuesOk, Unique, Total, RequestOk,
      TableOk, BlocksFor, FreeTable, NoNewHash, KeepsHash, Distinct, PagesShape, CopyPages;
    var others, hosts := Held(m.items, m.todo), Total(m.swapped, HostsOf);
    var v := it.s.(status := Preempted);
    var (q, v', copies) := SwapOut(m.pool, v);
    NoHosts(cfg, m.pool, it.s);
    assert hosts + multiset(v.cpuTable) == hosts;
    SwapOutValid(cfg, m.pool, others, hosts, v);
    SwapOutNoNew(cfg, m.pool, others, v);
    HeldInRange(cfg.numBlocks, m.pool, others + multiset(v.table), v.table);
    SwapOutPages(cfg, model, mem, m, v, v', copies);
    OnHostFront(cfg, model, CopyPages(mem.gpu, mem.cpu, copies), v', m.swapped);
    CacheKVKept(cfg, model, mem.gpu, m.pool, q);
    assert Swapped(mem, copies, []) == Mem(mem.gpu, CopyPages(mem.gpu, mem.cpu, copies)) by {
      assert CopyPages(CopyPages(mem.gpu, mem.cpu, copies), mem.gpu, []) == mem.gpu by {
        NoCopies(CopyPages(mem.gpu, mem.cpu, copies), mem.gpu);
      }
    }
  }

  lemma {:induction false} NoCopies(src: seq<PageData>, dst: seq<PageData>)
    ensures CopyPages(src, dst, []) == dst
  {
  }

  lemma {:induction false} SwapOutNoNew(cfg: Config, p: Pool, others: multiset<Block>, s: Seq)
    requires Valid(cfg.numBlocks, p, others + multiset(s.table)) && CanSwapOut(p, s)
    ensures NoNewHash(p, SwapOut(p, s).0)
  {
    hide Valid, NoNewHash, FreeTable;
    var p1 := p.(cpuFree := p.cpuFree[|s.table|..]);
    ValidCpuFree(cfg.numBlocks, p, others + multiset(s.table), p1.cpuFree);
    FreeSeqNoNew(cfg, p1, others, s.(cpuTable := s.cpuTable + p.cpuFree[..|s.table|]));
    SameHashNoNew(p, p1, SwapOut(p, s).0);
  }

  lemma {:induction false} ShapeCounts(cfg: Config, model: Model, mem: Mem)
    requires MemShape(cfg, model, mem)
    ensures |mem.gpu| == cfg.numBlocks + 1 && |mem.cpu| == cfg.numCpuBlocks
  {
  }

  lemma {:induction false} SwappedParts(cfg: Config, m: Mid)
    requires cfg.blockSize > 0 && QueuesOk(cfg, m.swapped, m.preempted, m.waiting)
    ensures forall i :: 0 <= i < |m.swapped| ==> SwappedOk(cfg, m.swapped[i])
  {
    hide SwappedOk, ParkedOk;
  }

  lemma {:induction false} OnHostFront(cfg: Config, model: Model, pages: seq<PageData>, v: Seq, seqs: seq<Seq>)
    requires cfg.blockSize > 0 && OnHost(cfg, model, pages, seqs)
    requires SeqKV(model, cfg.blockSize, pages, v.cpuTable, v.gen.tokens, v.computed)
    ensures OnHost(cfg, model, pages, [v] + seqs)
  {
    hide SeqKV;
  }

  lemma {:induction false} FailKv(cfg: Config, model: Model, mem: Mem, m: Mid, s: Seq)
    requires cfg.blockSize > 0 && OkBut(cfg, m, s) && KvOk(cfg, model, mem, m)
    ensures KvOk(cfg, model, mem, Fail(m, s))
  {
    hide MemShape, OnDevice, OnHost, CacheKV, Valid, CpuValid, ItemsOk, TodosOk, QueuesOk, Unique, FreeTable, NoNewHash;
    FreeSeqNoNew(cfg, m.pool, Held(m.items, m.todo), s);
    var (p1, s1) := FreeSeq(m.pool, s);
    CpuNoNew(m.pool, p1, FreeCpu(p1, s1).0);
    CacheKVKept(cfg, model, mem.gpu, m.pool, Fail(m, s).pool);
  }

  lemma {:induction false} CpuNoNew(p: Pool, p1: Pool, q: Pool)
    requires NoNewHash(p, p1) && q.hash == p1.hash
    ensures NoNewHash(p, q)
  {
  }

  lemma {:induction false} OnHostCut(cfg: Config, model: Model, pages: seq<PageData>, seqs: seq<Seq>)
    requires cfg.blockSize > 0 && seqs != [] && OnHost(cfg, model, pages, seqs)
    ensures OnHost(cfg, model, pages, seqs[1..])
    ensures SeqKV(model, cfg.blockSize, pages, seqs[0].cpuTable, seqs[0].gen.tokens, seqs[0].computed)
  {
    hide SeqKV;
  }

  /** Host tables lie within the host pool. */
  lemma {:induction false} HostsInRange(n: nat, cpuFree: seq<Block>, held: multiset<Block>, table: seq<Block>)
    requires CpuValid(n, cpuFree, held) && multiset(table) <= held
    ensures forall i :: 0 <= i < |table| ==> 0 <= table[i] < n
  {
    forall i | 0 <= i < |table| ensures 0 <= table[i] < n {
      assert table[i] in multiset(table);
      assert held[table[i]] >= 1;
    }
  }

  /** What a swap-in gives: fresh unpublished pages with the host's content, nobody else's pages. */
  lemma {:induction false} SwapInOneKv(cfg: Config, model: Model, mem: Mem, m: Mid, n: nat)
    requires cfg.blockSize > 0 && m.swapped != [] && m.todo == [] && MidOk(cfg, m) && KvOk(cfg, model, mem, m)
    requires 0 < n <= Uncomputed(m.swapped[0]) && BlocksFor(cfg.blockSize, m.swapped[0].computed + n) <= NumFree(m.pool)
    ensures |m.swapOut| <= |SwapInOne(cfg, m, n).swapOut| && |m.swapIn| <= |SwapInOne(cfg, m, n).swapIn|
    ensures KvOk(cfg, model, NowCopied(mem, m, SwapInOne(cfg, m, n)), SwapInOne(cfg, m, n))
  {
    hide MidOk, MemShape, OnDevice, OnHost, CacheKV, SeqKV, Valid, CpuValid, ItemsOk, TodosOk, QueuesOk, Unique,
      Total, RequestOk, TableOk, BlocksFor, NoNewHash, KeepsHash, Distinct, SwapIn, Grow, NumFree, HashOf;
    var s, m1 := m.swapped[0], m.(swapped := m.swapped[1..]);
    TakeSwapped(cfg, m);
    BlocksForMono(cfg.blockSize, s.computed, s.computed + n);
    var others := Held(m1.items, m1.todo);
    assert others + multiset(s.table) == others;
    var (p1, s1, copies) := SwapIn(m.pool, s);
    var (p2, s2) := AppendSlots(cfg, p1, s1, n);
    SwapInValid(cfg, m.pool, others, Total(m1.swapped, HostsOf), s);
    assert CanAppend(cfg, p1, s1, n);
    AppendSlotsNoNew(cfg, p1, others + multiset(s1.table), s1, n);
    var gpu := CopyPages(mem.cpu, mem.gpu, copies);
    var m' := SwapInOne(cfg, m, n);
    assert m'.swapOut[|m.swapOut|..] == [] && m'.swapIn[|m.swapIn|..] == copies;
    assert NowCopied(mem, m, m') == Mem(gpu, mem.cpu);
    SwapInPages(cfg, model, mem, m, others, p1, s1, copies);
    SwapInMem(cfg, model, mem, m, gpu, s, s1, copies);
    OnHostCut(cfg, model, mem.cpu, m.swapped);
    CopiedTable(cfg, model, mem.cpu, gpu, s.cpuTable, s1.table, s.gen.tokens, s.computed);
    SeqKVSame(model, cfg.blockSize, gpu, gpu, s1.table, s2.table, s.gen.tokens, s.computed);
    OnDeviceSnoc(cfg, model, gpu, m.items, Item(s2.(status := Running), n));
    CacheKVKept(cfg, model, gpu, p1, p2);
  }

  /** The copies of a swap-in are in range and land on pages held by nobody and unpublished. */
  lemma {:induction false} SwapInMem(cfg: Config, model: Model, mem: Mem, m: Mid, gpu: seq<PageData>, s: Seq,
                                     s1: Seq, copies: seq<(Block, Block)>)
    requires cfg.blockSize > 0 && m.swapped != [] && s == m.swapped[0] && MidOk(cfg, m) && KvOk(cfg, model, mem, m)
    requires |s1.table| == |s.cpuTable| && copies == Zip(s.cpuTable, s1.table) && Distinct(s1.table)
    requires forall b: Block :: b in s1.table ==> 0 <= b < cfg.numBlocks
    requires gpu == CopyPages(mem.cpu, mem.gpu, copies)
    ensures MemShape(cfg, model, Mem(gpu, mem.cpu))
    ensures |gpu| == |mem.gpu| && |s.cpuTable| == |s1.table|
    ensures forall i :: 0 <= i < |s.cpuTable| ==>
      0 <= s.cpuTable[i] < |mem.cpu| && 0 <= s1.table[i] < |gpu| && gpu[s1.table[i]] == mem.cpu[s.cpuTable[i]]
    ensures forall b :: 0 <= b < |mem.gpu| && b !in s1.table ==> gpu[b] == mem.gpu[b]
  {
    hide Valid, CpuValid, OnDevice, OnHost, CacheKV, ItemsOk, TodosOk, QueuesOk, Unique, PagesShape, Total, Distinct;
    TotalHas(m.swapped, 0, HostsOf);
    HostsInRange(cfg.numCpuBlocks, m.pool.cpuFree, Total(m.swapped, HostsOf), s.cpuTable);
    ShapeCounts(cfg, model, mem);
    assert forall i :: 0 <= i < |s1.table| ==> s1.table[i] in s1.table;
    CopyPagesOk(mem.cpu, mem.gpu, s.cpuTable, s1.table, copies);
    CopyPagesShape(mem.cpu, mem.gpu, copies, cfg.numCpuBlocks, cfg.numBlocks + 1, cfg.blockSize, model.layers);
  }

  lemma {:induction false} SwapInPages(cfg: Config, model: Model, mem: Mem, m: Mid, others: multiset<Block>,
                                       p1: Pool, s1: Seq, copies: seq<(Block, Block)>)
    requires cfg.blockSize > 0 && m.swapped != [] && m.todo == [] && MidOk(cfg, m) && KvOk(cfg, model, mem, m)
    requires |m.swapped[0].cpuTable| <= NumFree(m.pool) && (p1, s1, copies) == SwapIn(m.pool, m.swapped[0])
    requires others == Held(m.items, m.todo) && TableOk(cfg, p1, s1)
    requires |s1.table| == |m.swapped[0].cpuTable| && copies == Zip(m.swapped[0].cpuTable, s1.table)
    requires forall b: Block :: b in s1.table ==> 0 <= b < cfg.numBlocks && b !in others && HashOf(p1, b) == None
    ensures Distinct(s1.table)
    ensures var gpu := CopyPages(mem.cpu, mem.gpu, copies);
      OnDevice(cfg, model, gpu, Seqs(m.items)) && OnDevice(cfg, model, gpu, Seqs(m.todo)) && CacheKV(model, cfg.blockSize, gpu, p1)
  {
    SwapInNoNew(cfg, m.pool, others, m.swapped[0]);
    hide Valid, CpuValid, OnDevice, OnHost, CacheKV, ItemsOk, TodosOk, QueuesOk, Unique, MemShape, Total, SwapIn,
      NoNewHash, HashOf, NumFree, Distinct;
    var gpu := CopyPages(mem.cpu, mem.gpu, copies);
    SwapInMem(cfg, model, mem, m, gpu, m.swapped[0], s1, copies);
    OnDeviceKept(cfg, model, m.pool, mem.gpu, gpu, s1.table, m.items);
    assert Seqs(m.todo) == [];
    NobodyOnDevice(cfg, model, gpu);
    CacheKVKept(cfg, model, mem.gpu, m.pool, p1);
    CacheKVPages(cfg, model, mem.gpu, gpu, s1.table, p1);
  }

  lemma {:induction false} NobodyOnDevice(cfg: Config, model: Model, pages: seq<PageData>)
    requires cfg.blockSize > 0
    ensures OnDevice(cfg, model, pages, [])
  {
  }

  // --- admission: cached pages serve as computed ones --------------------------------------------------------

  /** Pages published under a request's own prefix hashes hold the K/V of its leading tokens. */
  lemma {:induction false} HitsServe(model: Model, bs: nat, pages: seq<PageData>, p: Pool, tokens: seq<Token>, cached: seq<Block>)
    requires bs > 0 && CacheKV(model, bs, pages, p) && |cached| * bs <= |tokens|
    requires forall i :: 0 <= i < |cached| ==> HashOf(p, cached[i]) == Some(PrefixHash(bs, tokens, i + 1))
    ensures SeqKV(model, bs, pages, cached, tokens, |cached| * bs)
  {
    hide HashOf, PrefixHash, Cell, EntryAt, Page, Offset, HashTokens, HashKV;
    forall q: nat | q < |cached| * bs ensures At(bs, pages, cached, q) == EntryAt(model, tokens, q) {
      WithinPages(bs, |cached|, q);
      HitCell(model, bs, pages, p, tokens, cached, Page(bs, q), Offset(bs, q));
    }
  }

  lemma {:induction false} HitCell(model: Model, bs: nat, pages: seq<PageData>, p: Pool, tokens: seq<Token>,
                                   cached: seq<Block>, i: nat, o: nat)
    requires bs > 0 && CacheKV(model, bs, pages, p) && i < |cached| && o < bs
    requires 0 <= i * bs && (i + 1) * bs == i * bs + bs && (i + 1) * bs <= |tokens|
    requires HashOf(p, cached[i]) == Some(PrefixHash(bs, tokens, i + 1))
    ensures Cell(pages, cached[i], o) == EntryAt(model, tokens, i * bs + o)
  {
    hide HashOf, PrefixHash, Cell, EntryAt, HashTokens;
    var q: nat, hi := i * bs + o, (i + 1) * bs;
    var h := PrefixHash(bs, tokens, i + 1);
    PrefixHashTokens(bs, tokens, i + 1);
    assert HashKV(model, bs, pages, cached[i], h);
    assert tokens[..hi][..q + 1] == tokens[..q + 1];
    EntryPrefix(model, tokens[..hi], tokens, q);
  }

  lemma {:induction false} AllocateNoNew(cfg: Config, p: Pool, others: multiset<Block>, s: Seq, n: nat,
                                         cached: seq<Block>, wm: bool)
    requires cfg.blockSize > 0 && Valid(cfg.numBlocks, p, others) && Distinct(cached)
    requires CanAllocate(cfg, p, n, cached, wm) && s.table == [] && s.cpuTable == []
    requires forall i :: 0 <= i < |cached| ==>
      0 <= cached[i] < cfg.numBlocks && HashOf(p, cached[i]) == Some(PrefixHash(cfg.blockSize, s.gen.tokens, i + 1))
    ensures NoNewHash(p, Allocate(cfg, p, s, n, cached).0)
  {
    hide Valid, Pinned, PinAll, Grow, TableOk, PrefixHash, HashOf, Distinct, NumFree, NoNewHash, BlocksFor;
    var s1 := s.(table := cached, computed := |cached| * cfg.blockSize, registered := |cached|);
    AllocatePinned(cfg, p, others, s1, cached);
    var p1 := PinAll(p, cached);
    AppendSlotsNoNew(cfg, p1, others + multiset(cached), s1, n);
    SameHashNoNew(p, p1, AppendSlots(cfg, p1, s1, n).0);
  }

  lemma {:induction false} AdmitOneKv(cfg: Config, model: Model, mem: Mem, m: Mid, budget: int)
    requires cfg.blockSize > 0 && NextUp(m).Some? && m.todo == [] && MidOk(cfg, m) && |m.items| < cfg.maxNumSeqs && budget > 0
    requires KvOk(cfg, model, mem, m)
    requires var (s, cached) := CachedPrefix(cfg, m.pool, NextUp(m).value);
      Admissible(cfg, m, s, cached, budget)
    ensures var (s, cached) := CachedPrefix(cfg, m.pool, NextUp(m).value);
      var n := AdmitTokens(cfg, s, cached, budget);
      0 <= n && KvOk(cfg, model, mem, AdmitOne(cfg, m, s, n, cached))
  {
    hide MidOk, MemShape, OnDevice, OnHost, CacheKV, SeqKV, Valid, CpuValid, ItemsOk, TodosOk, QueuesOk, Unique,
      Total, RequestOk, CachedPrefix, Allocate, CanAllocate, TableOk, BlocksFor, KeepsHash, NumFree, HashOf,
      PrefixHash, Distinct, NoNewHash, Cell;
    var s0, m1 := NextUp(m).value, PopNextUp(m);
    TakeNext(cfg, m);
    var (s, cached) := CachedPrefix(cfg, m.pool, s0);
    var n := AdmitTokens(cfg, s, cached, budget);
    var others := Held(m1.items, m1.todo);
    assert others + multiset(s0.table) == others;
    CachedPrefixOk(cfg, m.pool, others, s0);
    AllocateValid(cfg, m.pool, others, s, n, cached, m.items != []);
    AllocateNoNew(cfg, m.pool, others, s, n, cached, m.items != []);
    var (q, s') := Allocate(cfg, m.pool, s, n, cached);
    HitsServe(model, cfg.blockSize, mem.gpu, m.pool, s.gen.tokens, cached);
    BlocksForWhole(cfg.blockSize, |cached|);
    SeqKVSame(model, cfg.blockSize, mem.gpu, mem.gpu, cached, s'.table, s.gen.tokens, s'.computed);
    OnDeviceSnoc(cfg, model, mem.gpu, m.items, Item(s'.(status := Running), n));
    CacheKVKept(cfg, model, mem.gpu, m.pool, q);
  }

  // --- whole loops -----------------------------------------------------------------------------------------

  /** The representation invariant in the middle of planning, with the copies decided so far done. */
  ghost predicate KvNow(cfg: Config, model: Model, mem: Mem, m: Mid)
    requires cfg.blockSize > 0
  {
    KvOk(cfg, model, Swapped(mem, m.swapOut, m.swapIn), m)
  }

  /** Performing all of a step's copies at its end gives the memory that performing each at the
      moment it was decided gives, as long as the step does not swap out once it has swapped in. */
  lemma {:induction false} DeferredCopies(mem: Mem, m: Mid, m': Mid)
    requires m.swapOut <= m'.swapOut && m.swapIn <= m'.swapIn
    requires m'.swapIn == [] || m'.swapOut == m.swapOut
    ensures Swapped(mem, m'.swapOut, m'.swapIn) == NowCopied(Swapped(mem, m.swapOut, m.swapIn), m, m')
  {
    var outs, ins := m'.swapOut[|m.swapOut|..], m'.swapIn[|m.swapIn|..];
    assert m'.swapOut == m.swapOut + outs && m'.swapIn == m.swapIn + ins;
    if m'.swapIn == [] {
      LaterSwapOut(mem, m.swapOut, outs);
    } else {
      LaterSwapIn(mem, m.swapOut, m.swapIn, ins);
    }
  }

  lemma {:induction false} PreemptNewestKv(cfg: Config, model: Model, mem: Mem, m: Mid)
    requires cfg.blockSize > 0 && m.todo != [] && MidOk(cfg, m) && m.swapIn == [] && KvNow(cfg, model, mem, m)
    ensures KvNow(cfg, model, mem, PreemptNewest(cfg, m)) && PreemptNewest(cfg, m).swapIn == []
  {
    hide MidOk, OkBut, TodoOk, Preempt, MemShape, OnDevice, OnHost, CacheKV, SeqKV, Swapped;
    var now := Swapped(mem, m.swapOut, m.swapIn);
    var m1, it := m.(todo := m.todo[..|m.todo| - 1]), m.todo[|m.todo| - 1];
    TakeNewest(cfg, m);
    OnDeviceCut(cfg, model, now.gpu, m.todo);
    PreemptKv(cfg, model, now, m1, it);
    PreemptCopies(cfg, m1, it.s);
    DeferredCopies(mem, m1, Preempt(cfg, m1, it.s));
  }

  lemma {:induction false} FailHeadKv(cfg: Config, model: Model, mem: Mem, m: Mid)
    requires cfg.blockSize > 0 && m.todo != [] && MidOk(cfg, m) && KvNow(cfg, model, mem, m)
    ensures KvNow(cfg, model, mem, FailHead(m))
  {
    hide MidOk, OkBut, TodoOk, Fail, MemShape, OnDevice, OnHost, CacheKV, Swapped;
    TakeHead(cfg, m);
    var m1 := m.(todo := m.todo[1..]);
    var now := Swapped(mem, m.swapOut, m.swapIn);
    OnDeviceCut(cfg, model, now.gpu, m.todo);
    FailKv(cfg, model, now, m1, m.todo[0].s);
    FailShape(m1, m.todo[0].s);
  }

  lemma {:induction false} FailSwappedKv(cfg: Config, model: Model, mem: Mem, m: Mid)
    requires cfg.blockSize > 0 && m.swapped != [] && MidOk(cfg, m) && KvNow(cfg, model, mem, m)
    ensures KvNow(cfg, model, mem, FailSwapped(m))
  {
    hide MidOk, OkBut, SwappedOk, Fail, MemShape, OnDevice, OnHost, CacheKV, Swapped;
    TakeSwapped(cfg, m);
    var m1 := m.(swapped := m.swapped[1..]);
    var now := Swapped(mem, m.swapOut, m.swapIn);
    OnHostCut(cfg, model, now.cpu, m.swapped);
    FailKv(cfg, model, now, m1, m.swapped[0]);
    FailShape(m1, m.swapped[0]);
  }

  lemma {:induction false} FailNextKv(cfg: Config, model: Model, mem: Mem, m: Mid)
    requires cfg.blockSize > 0 && NextUp(m).Some? && MidOk(cfg, m) && KvNow(cfg, model, mem, m)
    ensures KvNow(cfg, model, mem, FailNext(m))
  {
    hide MidOk, OkBut, ParkedOk, Fail, MemShape, OnDevice, OnHost, CacheKV, Swapped;
    TakeNext(cfg, m);
    var now := Swapped(mem, m.swapOut, m.swapIn);
    FailKv(cfg, model, now, PopNextUp(m), NextUp(m).value);
    FailShape(PopNextUp(m), NextUp(m).value);
  }

  lemma {:induction false} RunLoopKv(cfg: Config, model: Model, mem: Mem, m: Mid)
    requires cfg.blockSize > 0 && MidOk(cfg, m) && m.swapIn == [] && KvNow(cfg, model, mem, m)
    ensures KvNow(cfg, model, mem, RunLoop(cfg, m)) && RunLoop(cfg, m).swapIn == []
    decreases |m.todo|
  {
    hide MidOk, CanAppend, OkBut, TodoOk, Fail, Preempt, KvOk, AppendSlots;
    if m.todo != [] {
      var now := Swapped(mem, m.swapOut, m.swapIn);
      if m.todo[0].n == 0 {
        SkipHeadOk(cfg, m);
        SkipHeadKv(cfg, model, now, m);
        RunLoopKv(cfg, model, mem, SkipHead(m));
      } else if CanAppend(cfg, m.pool, m.todo[0].s, m.todo[0].n) {
        AppendHeadOk(cfg, m);
        AppendHeadKv(cfg, model, now, m);
        RunLoopKv(cfg, model, mem, AppendHead(cfg, m));
      } else if |m.todo| > 1 {
        PreemptNewestOk(cfg, m);
        PreemptNewestKv(cfg, model, mem, m);
        PreemptCopies(cfg, m.(todo := m.todo[..|m.todo| - 1]), m.todo[|m.todo| - 1].s);
        RunLoopKv(cfg, model, mem, PreemptNewest(cfg, m));
      } else if m.items == [] {
        FailHeadKv(cfg, model, mem, m);
        FailShape(m.(todo := m.todo[1..]), m.todo[0].s);
      } else {
        PreemptNewestKv(cfg, model, mem, m);
      }
    }
  }

  lemma {:induction false} SwapInLoopKv(cfg: Config, model: Model, mem: Mem, m: Mid, budget: Option<int>)
    requires cfg.blockSize > 0 && MidOk(cfg, m) && m.todo == [] && KvNow(cfg, model, mem, m)
    ensures KvNow(cfg, model, mem, SwapInLoop(cfg, m, budget))
    decreases |m.swapped|
  {
    hide MidOk, CanSwapIn, SwapInTokens, Fail, KvOk, SwapIn, AppendSlots, Swapped;
    if m.swapped != [] && |m.items| < cfg.maxNumSeqs {
      var n := SwapInTokens(m.swapped[0], budget);
      if n > 0 {
        if CanSwapIn(cfg, m.pool, m.swapped[0], n, m.items != []) {
          SwapInTokensOk(cfg, m, budget);
          SwapInOneOk(cfg, m, n);
          var m' := SwapInOne(cfg, m, n);
          SwapInOneKv(cfg, model, Swapped(mem, m.swapOut, m.swapIn), m, n);
          DeferredCopies(mem, m, m');
          SwapInLoopKv(cfg, model, mem, m', Spend(budget, n));
        } else if m.items == [] {
          FailSwappedOk(cfg, m);
          FailSwappedKv(cfg, model, mem, m);
          FailShape(m.(swapped := m.swapped[1..]), m.swapped[0]);
          SwapInLoopKv(cfg, model, mem, FailSwapped(m), budget);
        }
      }
    }
  }

  lemma {:induction false} NoteNextKv(cfg: Config, model: Model, mem: Mem, m: Mid, s: Seq)
    requires cfg.blockSize > 0 && KvNow(cfg, model, mem, m)
    ensures KvNow(cfg, model, mem, NoteNext(m, s))
  {
  }

  lemma {:induction false} AdmitLoopKv(cfg: Config, model: Model, mem: Mem, m: Mid, budget: int)
    requires cfg.blockSize > 0 && MidOk(cfg, m) && m.todo == [] && KvNow(cfg, model, mem, m)
    ensures KvNow(cfg, model, mem, AdmitLoop(cfg, m, budget))
    ensures AdmitLoop(cfg, m, budget).swapIn == m.swapIn
    decreases |m.preempted| + |m.waiting|
  {
    hide MidOk, Ids, Admissible, CachedPrefix, AdmitTokens, BlocksFor, Fail, Allocate, KvOk, Swapped;
    if budget > 0 && |m.items| < cfg.maxNumSeqs && NextUp(m).Some? {
      if BlocksFor(cfg.blockSize, NumTokens(NextUp(m).value)) > cfg.numBlocks {
        FailNextOk(cfg, m);
        FailNextKv(cfg, model, mem, m);
        FailShape(PopNextUp(m), NextUp(m).value);
        AdmitLoopKv(cfg, model, mem, FailNext(m), budget);
      } else {
        var (s, cached) := CachedPrefix(cfg, m.pool, NextUp(m).value);
        if Admissible(cfg, m, s, cached, budget) {
          var n := AdmitTokens(cfg, s, cached, budget);
          AdmitOneOk(cfg, m, budget);
          AdmitOneKv(cfg, model, Swapped(mem, m.swapOut, m.swapIn), m, budget);
          AdmitLoopKv(cfg, model, mem, AdmitOne(cfg, m, s, n, cached), budget - n);
        } else {
          NoteNextKv(cfg, model, mem, m, s);
        }
      }
    }
  }
}
