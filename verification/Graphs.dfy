// The graph runner: a decode-only batch laid out in fixed buffers, padded to a captured size, and one replay of the
// forward pass over all of it.
module Graphs {
  import opened Basics
  import opened Paging
  import opened BlockPool
  import opened Transformer
  import opened Streaming
  import opened Scheduling
  import opened Memory
  import opened Forward
  import opened Execute
  import opened Layout
  import opened Sequences
  import opened Mirrors
  import opened Padding
  import opened Caches
  import opened Runner
  import opened Attention

  // --- one token each ----------------------------------------------------------------------------------------------------

  ghost predicate OneEach(items: seq<Item>) {
    forall i :: 0 <= i < |items| ==> items[i].n == 1
  }

  lemma {:induction false} OneRowEach(items: seq<Item>, i: nat)
    requires OneEach(items) && i <= |items|
    ensures RowStart(items, i) == i && |Rows(items)| == |items|
    ensures i < |items| ==> Rows(items)[i] == Row(items[i], items[i].s.computed)
  {
    StartIs(items, i);
    StartIs(items, |items|);
    RowsTotal(items);
    hide RowStart, Rows;
    if i < |items| {
      RowsAt(items, i, 0);
    }
  }

  lemma {:induction false} StartIs(items: seq<Item>, i: nat)
    requires OneEach(items) && i <= |items|
    ensures RowStart(items, i) == i
  {
    if i > 0 {
      StartIs(items, i - 1);
    }
  }

  /** The batch with its padding. */
  ghost function Padded(items: seq<Item>, size: nat, spare: Block): (all: seq<Item>)
    requires |items| <= size
    ensures |all| == size && items <= all && forall i :: |items| <= i < size ==> all[i] == PadItem(spare)
  {
    items + Pads(size - |items|, spare)
  }

  lemma {:induction false} PaddedReady(bs: nat, pages: nat, items: seq<Item>, size: nat, spare: nat)
    requires bs > 0 && |items| <= size && spare < pages && AllReady(bs, pages, items) && OneEach(items)
    ensures AllReady(bs, pages, Padded(items, size, spare)) && OneEach(Padded(items, size, spare))
    ensures Rows(Padded(items, size, spare)) == Rows(items) + Rows(Pads(size - |items|, spare))
  {
    hide Rows, Ready;
    var all, pads := Padded(items, size, spare), Pads(size - |items|, spare);
    forall i | 0 <= i < |all| ensures Ready(bs, pages, all[i]) {
      if i < |items| {
        ReadyAt(bs, pages, items, i);
      } else {
        PadReady(bs, pages, spare);
      }
    }
    OneRowEach(all, |all|);
    OneRowEach(items, |items|);
    PadRows(size - |items|, spare);
    forall r | 0 <= r < size ensures Rows(all)[r] == (Rows(items) + Rows(pads))[r] {
      OneRowEach(all, r);
      if r < |items| {
        OneRowEach(items, r);
      }
    }
  }

  lemma {:induction false} PadReady(bs: nat, pages: nat, spare: nat)
    requires bs > 0 && spare < pages
    ensures Ready(bs, pages, PadItem(spare)) && BlocksFor(bs, 1) == 1
  {
    BlocksForLeast(bs, 1, 1);
    BlocksForBounds(bs, 1);
  }

  /** The entries of a padding row. */
  lemma {:induction false} PadRowIs(bs: nat, spare: nat)
    requires bs > 0
    ensures spare * bs >= 0 && RowIs(bs, Row(PadItem(spare), 0), 0, 0, spare * bs)
  {
    PageOf(bs, 0, 0);
    hide Page, Offset;
  }

  /** The entries of a request's row. */
  lemma {:induction false} OwnRowIs(bs: nat, pages: nat, it: Item)
    requires bs > 0 && Ready(bs, pages, it) && it.n == 1
    ensures var p := it.s.computed;
      && p < NumTokens(it.s) && Page(bs, p) < |it.s.table| && SlotNumber(bs, it.s.table, p) >= 0
      && RowIs(bs, Row(it, p), it.s.gen.tokens[p], p, SlotNumber(bs, it.s.table, p))
  {
    SlotParts(bs, pages, it.s.table, it.s.computed + 1, it.s.computed);
    hide Page, Offset, BlocksFor;
  }

  // --- what the compressed form lets the kernel read ---------------------------------------------------------------------

  /** The first i sequences' tables and lengths are their items'. */
  ghost predicate TablesOf(bs: nat, items: seq<Item>, tables: seq<seq<Block>>, kvLens: seq<nat>, i: nat)
    requires bs > 0
  {
    && |tables| == |kvLens| == i <= |items|
    && forall k :: 0 <= k < i ==> TableOfItem(bs, items[k], tables[k], kvLens[k])
  }

  ghost predicate TableOfItem(bs: nat, it: Item, table: seq<Block>, kvLen: nat)
    requires bs > 0
  {
    && kvLen == it.s.computed + it.n > 0 && |table| == BlocksFor(bs, kvLen) && table <= it.s.table
  }

  /** Every sequence's slots, read off the compressed block tables. */
  method Expand(bs: nat, pages: nat, indptr: seq<nat>, indices: seq<Block>, last: seq<nat>,
                ghost items: seq<Item>, ghost tables: seq<seq<Block>>, ghost kvLens: seq<nat>) returns (meta: Metadata)
    requires bs > 0 && AllReady(bs, pages, items) && OneEach(items) && TablesOf(bs, items, tables, kvLens, |items|)
    requires |indptr| == |items| + 1 && |last| == |items|
    requires forall i :: 0 <= i < |items| ==> CsrNames(bs, tables[i], kvLens[i], indptr[i], indptr[i + 1], indices, last[i])
    ensures Starts(items, meta.queryStart) && Owns(bs, items, |items|, meta.kvStart, meta.kvSlots)
  {
    hide AllReady, Ready, Owns, Own, CsrNames, CsrSlots, TableOfItem, Covers, RowStart;
    var kvStart: seq<nat>, kvSlots: seq<nat>, queryStart: seq<nat> := [0], [], [0];
    OneRowEach(items, 0);
    NoOwners(bs, items);
    var i: nat := 0;
    while i < |last|
      invariant i <= |items| && |queryStart| == i + 1 && Owns(bs, items, i, kvStart, kvSlots)
      invariant forall k :: 0 <= k <= i ==> queryStart[k] == RowStart(items, k)
    {
      ReadyAt(bs, pages, items, i);
      CsrReads(bs, pages, items[i], tables[i], kvLens[i], indptr[i], indptr[i + 1], indices, last[i]);
      var own: seq<nat> := CsrSlots(bs, indices[indptr[i]..indptr[i + 1]], last[i]);
      OwnsNext(bs, items, i, kvStart, kvSlots, own);
      kvSlots := kvSlots + own;
      kvStart := kvStart + [|kvSlots|];
      OneRowEach(items, i + 1);
      queryStart := queryStart + [i + 1];
      i := i + 1;
    }
    meta := Metadata(queryStart, kvStart, kvSlots);
  }

  lemma {:induction false} NoOwners(bs: nat, items: seq<Item>)
    requires bs > 0
    ensures Owns(bs, items, 0, [0], [])
  {
  }

  lemma {:induction false} CsrReads(bs: nat, pages: nat, it: Item, table: seq<Block>, kvLen: nat, lo: nat, hi: nat,
                                    indices: seq<Block>, last: nat)
    requires bs > 0 && Ready(bs, pages, it) && TableOfItem(bs, it, table, kvLen) && CsrNames(bs, table, kvLen, lo, hi, indices, last)
    ensures lo <= hi <= |indices| && Covers(bs, it.s.table, it.s.computed + it.n)
    ensures var slots := CsrSlots(bs, indices[lo..hi], last);
      slots == NaiveSlots(bs, it.s.table, it.s.computed + it.n) && forall p :: 0 <= p < |slots| ==> slots[p] >= 0
  {
    Trims(bs, pages, it);
    assert table == it.s.table[..|table|];
    hide CsrSlots, BlocksFor;
    var len := it.s.computed + it.n;
    forall p: nat | p < len ensures NaiveSlots(bs, it.s.table, len)[p] >= 0 {
      SlotParts(bs, pages, it.s.table, len, p);
    }
  }

  // --- the runner ----------------------------------------------------------------------------------------------------------

  lemma {:induction false} AllSampled(model: Model, items: seq<Item>, hidden: seq<Hidden>)
    requires OneEach(items) && |hidden| == |items| && forall i :: 0 <= i < |items| ==> Samples(items[i])
    ensures |Rows(items)| == |items|
    ensures SampleFrom(model, items, hidden) == seq(|hidden|, r requires 0 <= r < |hidden| => model.next(hidden[r]))
    decreases |items|
  {
    OneRowEach(items, |items|);
    hide Samples, RowStart;
    if items != [] {
      assert |Rows(items)| == |RowsOf(items[0]) + Rows(items[1..])|;
      AllSampled(model, items[1..], hidden[1..]);
    }
  }

  class GraphRunner {
    const cfg: Config
    const model: Model
    const cache: KVCache
    const buckets: seq<nat>
    const inputIds: array<Token>
    const positions: array<nat>
    const slotMapping: array<nat>

    constructor (cfg: Config, model: Model, cache: KVCache)
      requires cfg.maxNumSeqs > 0
      requires cache.Shaped() && cache.layers == model.layers && cache.blockSize == cfg.blockSize && cache.numPages == cfg.numBlocks + 1
      ensures this.cfg == cfg && this.model == model && this.cache == cache && Valid()
      ensures fresh(Buffers())
    {
      this.cfg, this.model, this.cache := cfg, model, cache;
      buckets := Buckets(cfg.maxNumSeqs);
      inputIds, positions, slotMapping := new Token[cfg.maxNumSeqs], new nat[cfg.maxNumSeqs], new nat[cfg.maxNumSeqs];
    }

    /** The buffers have room for the largest size. */
    ghost predicate Valid() {
      && cache.Shaped() && cache.layers == model.layers && cache.blockSize == cfg.blockSize && cache.numPages == cfg.numBlocks + 1
      && buckets == Buckets(cfg.maxNumSeqs) && inputIds.Length == positions.Length == slotMapping.Length == cfg.maxNumSeqs
      && inputIds != positions as object && inputIds != slotMapping as object && positions != slotMapping
    }

    ghost function Buffers(): set<object> {
      {inputIds as object, positions as object, slotMapping as object}
    }

    /** Only decodes can be replayed, and no more than the largest size holds. */
    predicate CanRun(seqs: seq<Sequence>, ns: seq<nat>, doSample: seq<bool>) {
      |seqs| <= cfg.maxNumSeqs && (forall n :: n in ns ==> n == 1) && (forall b :: b in doSample ==> b)
    }

    /** The first captured size with room for n: there always is one. */
    method Size(n: nat) returns (size: nat)
      requires Valid() && 1 <= n <= cfg.maxNumSeqs
      ensures size == BucketFor(Buckets(cfg.maxNumSeqs), n) && n <= size <= cfg.maxNumSeqs
    {
      BucketFits(cfg.maxNumSeqs, n);
      hide Buckets;
      var i: nat := 0;
      assert buckets[i..] == buckets;
      while i < |buckets| && buckets[i] < n
        invariant i <= |buckets| && BucketFor(buckets[i..], n) == BucketFor(buckets, n)
      {
        assert buckets[i..][1..] == buckets[i + 1..];
        i := i + 1;
      }
      size := buckets[i];
    }

    /** Lay the batch out in the buffers: first padding everywhere, then the requests' own rows. */
    method Load(seqs: seq<Sequence>, size: nat, ghost ns: seq<nat>, ghost items: seq<Item>)
      requires Valid() && |items| <= size <= cfg.maxNumSeqs && Carries(seqs, ns, items) && cfg.blockSize > 0
      requires AllReady(cfg.blockSize, cache.numPages, items) && OneEach(items)
      modifies Buffers()
      ensures Filled(cfg.blockSize, Rows(Padded(items, size, cfg.numBlocks)), 0, size, inputIds[..], positions[..], slotMapping[..])
    {
      hide AllReady, Ready, Rows, RowIs, Page, Offset;
      ghost var all := Padded(items, size, cfg.numBlocks);
      PaddedReady(cfg.blockSize, cache.numPages, items, size, cfg.numBlocks);
      OneRowEach(all, 0);
      PadRowIs(cfg.blockSize, cfg.numBlocks);
      var r: nat := 0;
      while r < size
        invariant r <= size
        invariant forall k :: 0 <= k < r ==> inputIds[k] == 0 && positions[k] == 0 && slotMapping[k] == cfg.numBlocks * cfg.blockSize
      {
        inputIds[r], positions[r], slotMapping[r] := 0, 0, cfg.numBlocks * cfg.blockSize;
        r := r + 1;
      }
      var i: nat := 0;
      while i < |seqs|
        invariant i <= |seqs|
        invariant forall k :: 0 <= k < i ==> RowIs(cfg.blockSize, Rows(all)[k], inputIds[k], positions[k], slotMapping[k])
        invariant forall k :: i <= k < size ==> inputIds[k] == 0 && positions[k] == 0 && slotMapping[k] == cfg.numBlocks * cfg.blockSize
      {
        ReadyAt(cfg.blockSize, cache.numPages, items, i);
        OwnRowIs(cfg.blockSize, cache.numPages, items[i]);
        OneRowEach(all, i);
        var pos := seqs[i].numComputedTokens;
        inputIds[i], positions[i] := seqs[i].tokenIds[pos], pos;
        slotMapping[i] := seqs[i].blockTable[Page(cfg.blockSize, pos)] * cfg.blockSize + Offset(cfg.blockSize, pos);
        i := i + 1;
      }
      forall k | i <= k < size ensures RowIs(cfg.blockSize, Rows(all)[k], inputIds[k], positions[k], slotMapping[k]) {
        OneRowEach(all, k);
      }
    }

    /** Each request's pages so far and one page of the scratch block for each padding row. */
    method Tables(seqs: seq<Sequence>, size: nat, ghost ns: seq<nat>,
                  ghost items: seq<Item>) returns (tables: seq<seq<Block>>, kvLens: seq<nat>)
      requires Valid() && |items| <= size && Carries(seqs, ns, items) && cfg.blockSize > 0
      requires AllReady(cfg.blockSize, cache.numPages, items) && OneEach(items)
      ensures TablesOf(cfg.blockSize, Padded(items, size, cfg.numBlocks), tables, kvLens, size)
    {
      hide AllReady, TableOfItem, BlocksFor;
      ghost var all := Padded(items, size, cfg.numBlocks);
      tables, kvLens := [], [];
      var i: nat := 0;
      while i < |seqs|
        invariant i <= |seqs| && TablesOf(cfg.blockSize, all, tables, kvLens, i)
      {
        ReadyAt(cfg.blockSize, cache.numPages, items, i);
        Trims(cfg.blockSize, cache.numPages, items[i]);
        var len := seqs[i].numComputedTokens + 1;
        TrimmedIs(cfg.blockSize, items[i]);
        kvLens := kvLens + [len];
        tables := tables + [seqs[i].blockTable[..BlocksFor(cfg.blockSize, len)]];
        i := i + 1;
      }
      PadTable(cfg.blockSize, cfg.numBlocks);
      while i < size
        invariant |items| <= i <= size && TablesOf(cfg.blockSize, all, tables, kvLens, i)
      {
        kvLens := kvLens + [1];
        tables := tables + [[cfg.numBlocks]];
        i := i + 1;
      }
    }

    static lemma {:induction false} TrimmedIs(bs: nat, it: Item)
      requires bs > 0 && it.n == 1 && 0 <= BlocksFor(bs, it.s.computed + 1) <= |it.s.table|
      ensures TableOfItem(bs, it, it.s.table[..BlocksFor(bs, it.s.computed + 1)], it.s.computed + 1)
    {
    }

    static lemma {:induction false} PadTable(bs: nat, spare: nat)
      requires bs > 0
      ensures TableOfItem(bs, PadItem(spare), [spare], 1)
    {
      PadReady(bs, spare + 1, spare);
    }

    /** What can be replayed has one row and one sample for every request. */
    lemma {:induction false} Replays(seqs: seq<Sequence>, ns: seq<nat>, doSample: seq<bool>, items: seq<Item>)
      requires seqs != [] && Carries(seqs, ns, items)
      requires |doSample| == |items| && forall i :: 0 <= i < |items| ==> doSample[i] == Samples(items[i])
      ensures CanRun(seqs, ns, doSample) ==> |items| <= cfg.maxNumSeqs && OneEach(items) && (forall i :: 0 <= i < |items| ==> Samples(items[i])) && CanReplay(cfg, items)
      ensures CanReplay(cfg, items) && (forall i :: 0 <= i < |items| ==> items[i].n > 0) ==> CanRun(seqs, ns, doSample)
    {
      hide Samples, Rows;
      if CanRun(seqs, ns, doSample) {
        forall i | 0 <= i < |items| ensures items[i].n == 1 && Samples(items[i]) {
          assert ns[i] in ns && doSample[i] in doSample;
        }
        OneRowEach(items, |items|);
      } else if CanReplay(cfg, items) && forall i :: 0 <= i < |items| ==> items[i].n > 0 {
        OneRowEach(items, |items|);
      }
    }

    /** Replay the captured pass for a decode-only batch: what it leaves in the cache and samples is what the forward
        pass over the batch and its padding rows gives. */
    method Run(seqs: seq<Sequence>, ghost ns: seq<nat>, ghost items: seq<Item>) returns (sampled: seq<Token>)
      requires Valid() && cfg.blockSize > 0 && 1 <= |items| <= cfg.maxNumSeqs && Carries(seqs, ns, items)
      requires AllReady(cfg.blockSize, cache.numPages, items) && OneEach(items) && forall i :: 0 <= i < |items| ==> Samples(items[i])
      requires cache.data !in Buffers()
      modifies Buffers(), cache.data
      ensures |Rows(items)| == |items| <= BucketFor(Buckets(cfg.maxNumSeqs), |items|)
      ensures var r := Pass(model, cfg.blockSize, Rows(items) + Rows(Pads(BucketFor(Buckets(cfg.maxNumSeqs), |items|) - |items|, cfg.numBlocks)), old(cache.View()));
        cache.View() == r.0 && sampled == SampleFrom(model, items, r.1[..|items|])
    {
      hide AllReady, Rows, Samples, KVCache.View, SampleFrom, Filled, Starts, Owns, SlotsOf, Layers, SlotAt,
        CsrNames, Buckets, BucketFor, TableOfItem, BlocksFor, OneEach;
      var n := |seqs|;
      var size := Size(n);
      ghost var all := Padded(items, size, cfg.numBlocks);
      PaddedReady(cfg.blockSize, cache.numPages, items, size, cfg.numBlocks);
      OneRowEach(all, size);
      OneRowEach(items, n);
      Load(seqs, size, ns, items);
      var tables, kvLens := Tables(seqs, size, ns, items);
      TablesFit(cfg.blockSize, all, tables, kvLens);
      var indptr, indices, last := PagedKvIndex(cfg.blockSize, tables, kvLens);
      var meta := Expand(cfg.blockSize, cache.numPages, indptr, indices, last, all, tables, kvLens);
      var slots := slotMapping[..size];
      FilledPrefix(cfg.blockSize, Rows(all), inputIds[..], positions[..], slotMapping[..]);
      FilledSlots(cfg.blockSize, cache.numPages, all, inputIds[..size], positions[..size], slots);
      var hidden := Embed(model, inputIds, positions, size, cfg.blockSize, Rows(all), slotMapping[..]);
      hidden := ForwardPass(model, cache, slots, meta, hidden, all);
      AllSampled(model, items, hidden[..n]);
      sampled := seq(n, r requires 0 <= r < n => model.next(hidden[r]));
    }

    static lemma {:induction false} TablesFit(bs: nat, items: seq<Item>, tables: seq<seq<Block>>, kvLens: seq<nat>)
      requires bs > 0 && TablesOf(bs, items, tables, kvLens, |items|)
      ensures |tables| == |kvLens| == |items| && forall i :: 0 <= i < |tables| ==> kvLens[i] > 0 && |tables[i]| == BlocksFor(bs, kvLens[i])
    {
      hide BlocksFor;
      forall i | 0 <= i < |tables| ensures kvLens[i] > 0 && |tables[i]| == BlocksFor(bs, kvLens[i]) {
        assert TableOfItem(bs, items[i], tables[i], kvLens[i]);
      }
    }

    static lemma {:induction false} FilledPrefix(bs: nat, rows: seq<Row>, ids: seq<Token>, positions: seq<nat>, slots: seq<nat>)
      requires bs > 0 && Filled(bs, rows, 0, |rows|, ids, positions, slots)
      ensures Filled(bs, rows, 0, |rows|, ids[..|rows|], positions[..|rows|], slots[..|rows|])
    {
      hide RowIs;
    }
  }

  /** A step's execution when graphs are on: swaps, then a replay where one is possible and the plain pass elsewhere. */
  method ExecuteWithGraphs(runner: ModelRunner, graphs: GraphRunner, seqs: seq<Sequence>, ns: seq<nat>, doSample: seq<bool>,
                 outs: seq<(Block, Block)>, ins: seq<(Block, Block)>, ghost items: seq<Item>) returns (sampled: seq<Token>)
    requires runner.Valid() && graphs.Valid() && graphs.cfg == runner.cfg && graphs.model == runner.model && graphs.cache == runner.gpu
    requires runner.gpu.data !in graphs.Buffers() && runner.cpu.data !in graphs.Buffers()
    requires runner.CopiesOk(outs, ins) && Carries(seqs, ns, items) && AllReady(runner.cfg.blockSize, runner.cfg.numBlocks + 1, items)
    requires forall i :: 0 <= i < |items| ==> items[i].n > 0
    requires |doSample| == |items| && forall i :: 0 <= i < |items| ==> doSample[i] == Samples(items[i])
    modifies runner.gpu.data, runner.cpu.data, graphs.Buffers()
    ensures var now := Swapped(old(runner.View()), outs, ins);
      var r := Pass(runner.model, runner.cfg.blockSize, Rows(items) + PaddingOf(runner.cfg, items), now.gpu);
      runner.View() == Mem(r.0, now.cpu) && sampled == SampleFrom(runner.model, items, r.1[..|Rows(items)|])
  {
    hide AllReady, Rows, Samples, KVCache.View, Swapped, SampleFrom, Layers, GraphRunner.CanRun, OneEach, CanReplay,
      Buckets, BucketFor;
    runner.Swap(outs, ins);
    if seqs == [] {
      NobodyRuns(runner.model, runner.cfg.blockSize, items, runner.gpu.View());
      NoPadding(runner.cfg, items);
      return [];
    }
    graphs.Replays(seqs, ns, doSample, items);
    ghost var pages := runner.gpu.View();
    if graphs.CanRun(seqs, ns, doSample) {
      sampled := graphs.Run(seqs, ns, items);
    } else {
      sampled := runner.Compute(seqs, ns, doSample, items);
      NoPadding(runner.cfg, items);
      ghost var hidden := Pass(runner.model, runner.cfg.blockSize, Rows(items), pages).1;
      assert hidden[..|Rows(items)|] == hidden;
    }
  }

  lemma {:induction false} NoPadding(cfg: Config, items: seq<Item>)
    requires !CanReplay(cfg, items) || items == []
    ensures Rows(items) + PaddingOf(cfg, items) == Rows(items)
  {
  }
}
