// One layer's attention over the paged cache, whole forward passes and a step's execution, as the runner
// performs them on its arrays.
module Attention {
  import opened Basics
  import opened Paging
  import opened BlockPool
  import opened Transformer
  import opened Streaming
  import opened Scheduling
  import opened Memory
  import opened Forward
  import opened Execute
  import opened EngineRun
  import opened Layout
  import opened Sequences
  import opened Mirrors
  import opened Caches
  import opened Runner
  import KvKept

  // --- the mask --------------------------------------------------------------------------------------------------------

  /** The keys that query row i of tq may see, picked one by one by the mask. */
  method VisibleKeys(keys: seq<KV>, tq: nat, i: nat) returns (visible: seq<KV>)
    requires i < tq <= |keys|
    ensures visible == keys[..|keys| - tq + i + 1]
  {
    visible := [];
    var start, j: nat := |keys| - tq, 0;
    while j < |keys|
      invariant j <= |keys| && visible == keys[..if j <= start + i + 1 then j else start + i + 1]
    {
      ChunkSees(start, tq, start + i, j);
      if Sees(tq, |keys|, i, j) {
        visible := visible + [keys[j]];
      }
      j := j + 1;
    }
  }

  /** The queries are the last of the sequence's positions; each attends over what the mask lets it see. */
  method CausalAttention(model: Model, l: nat, q: seq<Hidden>, keys: seq<KV>) returns (out: seq<Hidden>)
    requires |q| <= |keys|
    ensures |out| == |q| && forall i :: 0 <= i < |q| ==> out[i] == model.attend(l, q[i], keys[..|keys| - |q| + i + 1])
  {
    out := [];
    var i: nat := 0;
    while i < |q|
      invariant i <= |q| && |out| == i
      invariant forall k :: 0 <= k < i ==> out[k] == model.attend(l, q[k], keys[..|keys| - |q| + k + 1])
    {
      var visible := VisibleKeys(keys, |q|, i);
      out := out + [model.attend(l, q[i], visible)];
      i := i + 1;
    }
  }

  // --- gathering -------------------------------------------------------------------------------------------------------

  /** A position's slot holds what its page table says. */
  lemma {:induction false} FlatIs(cache: KVCache, l: nat, table: seq<Block>, len: nat, p: nat)
    requires cache.Shaped() && l < cache.layers && Covers(cache.blockSize, table, len) && p < len
    requires forall k :: 0 <= k < |table| ==> 0 <= table[k] < cache.numPages
    ensures Page(cache.blockSize, p) < |table| && SlotNumber(cache.blockSize, table, p) >= 0
    ensures SlotNumber(cache.blockSize, table, p) / cache.blockSize < cache.numPages
    ensures LayerOf(At(cache.blockSize, cache.View(), table, p), l) == [cache.Flat(l, SlotNumber(cache.blockSize, table, p))]
  {
    SlotParts(cache.blockSize, cache.numPages, table, len, p);
  }

  /** What a sequence's slots hold, in order, is its layer gathered through its table. */
  lemma {:induction false} GatheredIs(cache: KVCache, l: nat, table: seq<Block>, full: nat, len: nat, kvs: seq<KV>)
    requires cache.Shaped() && l < cache.layers && Covers(cache.blockSize, table, full) && len <= full == |kvs|
    requires forall k :: 0 <= k < |table| ==> 0 <= table[k] < cache.numPages
    requires forall p: nat :: p < full ==> HoldsSlot(cache, l, table, p, kvs[p])
    ensures kvs[..len] == GatherLayer(cache.blockSize, cache.View(), table, len, l)
    decreases len
  {
    hide Page, Offset, BlocksFor, KVCache.View, KVCache.Flat, Cell;
    if len > 0 {
      GatheredIs(cache, l, table, full, len - 1, kvs);
      FlatIs(cache, l, table, full, len - 1);
      assert HoldsSlot(cache, l, table, len - 1, kvs[len - 1]);
      assert kvs[..len] == kvs[..len - 1] + [kvs[len - 1]];
    }
  }

  ghost predicate HoldsSlot(cache: KVCache, l: nat, table: seq<Block>, p: nat, kv: KV)
    requires cache.Shaped()
    reads cache.data
  {
    var bs := cache.blockSize;
    Page(bs, p) < |table| && SlotNumber(bs, table, p) >= 0 && l < cache.layers && SlotNumber(bs, table, p) / bs < cache.numPages
    && kv == cache.Flat(l, SlotNumber(bs, table, p))
  }

  /** The cached keys of one sequence, in position order: any prefix of them is the prefix of its layer. */
  method GatherKeys(cache: KVCache, l: nat, ghost it: Item, lo: nat, hi: nat, kvSlots: seq<nat>) returns (keys: seq<KV>)
    requires cache.Shaped() && l < cache.layers && Ready(cache.blockSize, cache.numPages, it) && Own(cache.blockSize, it, lo, hi, kvSlots)
    ensures |keys| == it.s.computed + it.n
    ensures forall len :: 0 <= len <= |keys| ==> keys[..len] == GatherLayer(cache.blockSize, cache.View(), it.s.table, len, l)
  {
    hide Page, Offset, BlocksFor, KVCache.View, KVCache.Flat;
    ghost var full := it.s.computed + it.n;
    var slots := kvSlots[lo..hi];
    forall p: nat | p < full ensures slots[p] / cache.blockSize < cache.numPages && slots[p] == SlotNumber(cache.blockSize, it.s.table, p) {
      FlatIs(cache, l, it.s.table, full, p);
    }
    keys := cache.Gather(l, slots);
    forall p: nat | p < full ensures HoldsSlot(cache, l, it.s.table, p, keys[p]) {
      FlatIs(cache, l, it.s.table, full, p);
    }
    forall len | 0 <= len <= |keys| ensures keys[..len] == GatherLayer(cache.blockSize, cache.View(), it.s.table, len, l) {
      GatheredIs(cache, l, it.s.table, full, len, keys);
    }
  }

  // --- one layer -------------------------------------------------------------------------------------------------------

  /** The slot array names the slots of the rows. */
  ghost predicate SlotsOf(bs: nat, pages: nat, rows: seq<Row>, slots: seq<nat>)
    requires bs > 0
  {
    |slots| == |rows| && forall r :: 0 <= r < |rows| ==> slots[r] / bs < pages && SlotOf(bs, rows[r]) == (slots[r] / bs, slots[r] % bs)
  }

  lemma {:induction false} FilledSlots(bs: nat, pages: nat, items: seq<Item>, ids: seq<Token>, positions: seq<nat>,
                                       slots: seq<nat>)
    requires bs > 0 && AllReady(bs, pages, items) && |slots| == |Rows(items)|
    requires Filled(bs, Rows(items), 0, |Rows(items)|, ids, positions, slots)
    ensures SlotsOf(bs, pages, Rows(items), slots)
  {
    hide Page, Offset, BlocksFor, Ready, SlotAt, SlotNumber;
    forall r | 0 <= r < |Rows(items)| ensures slots[r] / bs < pages && SlotOf(bs, Rows(items)[r]) == (slots[r] / bs, slots[r] % bs) {
      assert RowIs(bs, Rows(items)[r], ids[r], positions[r], slots[r]);
      var i, j := RowOfItem(items, r);
      RowsAt(items, i, j);
      ReadyAt(bs, pages, items, i);
      RowSlot(bs, pages, items[i], j);
    }
  }

  lemma {:induction false} RowSlot(bs: nat, pages: nat, it: Item, j: nat)
    requires bs > 0 && Ready(bs, pages, it) && j < it.n
    ensures var p := it.s.computed + j;
      && Page(bs, p) < |it.s.table| && SlotNumber(bs, it.s.table, p) >= 0 && SlotNumber(bs, it.s.table, p) / bs < pages
      && SlotAt(bs, it.s.table, p) == (SlotNumber(bs, it.s.table, p) / bs, SlotNumber(bs, it.s.table, p) % bs)
  {
    hide BlocksFor;
    SlotParts(bs, pages, it.s.table, it.s.computed + it.n, it.s.computed + j);
  }

  /** The layer's activations of the first i items' rows. */
  ghost predicate AttendedUpTo(model: Model, l: nat, items: seq<Item>, i: nat, bs: nat, pages: seq<PageData>,
                               hidden: seq<Hidden>, out: seq<Hidden>)
    requires bs > 0 && i <= |items| && |hidden| == |Rows(items)|
  {
    |out| == RowStart(items, i) <= |hidden| && out == Attended(model, bs, pages, Rows(items), hidden, l)[..|out|]
  }

  lemma {:induction false} AttendedNext(model: Model, l: nat, items: seq<Item>, i: nat, bs: nat,
                                        pages: seq<PageData>, hidden: seq<Hidden>, out: seq<Hidden>, own: seq<Hidden>)
    requires bs > 0 && i < |items| && |hidden| == |Rows(items)| && AttendedUpTo(model, l, items, i, bs, pages, hidden, out) && |own| == items[i].n
    requires RowStart(items, i + 1) == RowStart(items, i) + items[i].n <= |hidden|
    requires forall j :: 0 <= j < items[i].n ==>
      own[j] == model.attend(l, hidden[RowStart(items, i) + j], GatherLayer(bs, pages, items[i].s.table, items[i].s.computed + j + 1, l))
    ensures AttendedUpTo(model, l, items, i + 1, bs, pages, hidden, out + own)
  {
    hide Rows, GatherLayer;
    var all, lo := Attended(model, bs, pages, Rows(items), hidden, l), RowStart(items, i);
    forall r | 0 <= r < |out + own| ensures (out + own)[r] == all[r] {
      if r >= lo {
        RowsAt(items, i, r - lo);
      } else {
        assert out[r] == all[..|out|][r];
      }
    }
  }

  /** One layer's attention call: write the new K/V, then each sequence attends over its own pages. It leaves the
      cache and gives the activations that the forward pass on pages says. */
  method AttendLayer(model: Model, cache: KVCache, l: nat, slots: seq<nat>, meta: Metadata, hidden: seq<Hidden>,
                     ghost items: seq<Item>)
    returns (out: seq<Hidden>)
    requires cache.Shaped() && cache.layers == model.layers && l < model.layers && AllReady(cache.blockSize, cache.numPages, items)
    requires |hidden| == |Rows(items)| && SlotsOf(cache.blockSize, cache.numPages, Rows(items), slots)
    requires Starts(items, meta.queryStart) && Owns(cache.blockSize, items, |items|, meta.kvStart, meta.kvSlots)
    modifies cache.data
    ensures var rows := Rows(items);
      && cache.View() == Scatter(old(cache.View()), Slots(cache.blockSize, rows), Projected(model, hidden, l), l)
      && out == Attended(model, cache.blockSize, cache.View(), rows, hidden, l)
  {
    hide Rows, Scatter, Ready, AllReady, AttendedUpTo, Own, KVCache.View, RowStart, SlotAt, GatherLayer, Attended;
    var kvs := Projected(model, hidden, l);
    cache.Write(l, slots, kvs, Slots(cache.blockSize, Rows(items)));
    ghost var written := cache.View();
    out := [];
    var i: nat := 0;
    NothingAttended(model, l, items, cache.blockSize, cache.View(), hidden);
    while i < |meta.queryStart| - 1
      invariant i <= |items| && cache.View() == written && AttendedUpTo(model, l, items, i, cache.blockSize, cache.View(), hidden, out)
    {
      var lo, hi := meta.queryStart[i], meta.queryStart[i + 1];
      ReadyAt(cache.blockSize, cache.numPages, items, i);
      StartsGrow(items, i);
      StartsGrow(items, i + 1);
      var keys := GatherKeys(cache, l, items[i], meta.kvStart[i], meta.kvStart[i + 1], meta.kvSlots);
      var own := CausalAttention(model, l, hidden[lo..hi], keys);
      AttendedNext(model, l, items, i, cache.blockSize, cache.View(), hidden, out, own);
      out := out + own;
      i := i + 1;
    }
    AllAttended(model, l, items, cache.blockSize, cache.View(), hidden, out);
  }

  lemma {:induction false} NothingAttended(model: Model, l: nat, items: seq<Item>, bs: nat, pages: seq<PageData>,
                                           hidden: seq<Hidden>)
    requires bs > 0 && |hidden| == |Rows(items)|
    ensures AttendedUpTo(model, l, items, 0, bs, pages, hidden, [])
  {
    hide Rows;
  }

  lemma {:induction false} AllAttended(model: Model, l: nat, items: seq<Item>, bs: nat, pages: seq<PageData>,
                                       hidden: seq<Hidden>, out: seq<Hidden>)
    requires bs > 0 && |hidden| == |Rows(items)| && AttendedUpTo(model, l, items, |items|, bs, pages, hidden, out)
    ensures out == Attended(model, bs, pages, Rows(items), hidden, l)
  {
    RowsTotal(items);
    hide Rows, GatherLayer;
  }

  // --- the pass --------------------------------------------------------------------------------------------------------

  method Embed(model: Model, ids: array<Token>, positions: array<nat>, total: nat, ghost bs: nat,
               ghost rows: seq<Row>, ghost slots: seq<nat>)
    returns (hidden: seq<Hidden>)
    requires bs > 0 && total == |rows| && Filled(bs, rows, 0, |rows|, ids[..], positions[..], slots)
    ensures hidden == Embedded(model, rows)
  {
    hidden := [];
    var r: nat := 0;
    while r < total
      invariant r <= total && |hidden| == r && forall k :: 0 <= k < r ==> hidden[k] == Embedded(model, rows)[k]
    {
      assert RowIs(bs, rows[r], ids[..][r], positions[..][r], slots[r]);
      hidden := hidden + [model.embed(ids[r], positions[r])];
      r := r + 1;
    }
  }

  /** All layers in turn. */
  method ForwardPass(model: Model, cache: KVCache, slots: seq<nat>, meta: Metadata, embedded: seq<Hidden>,
                     ghost items: seq<Item>) returns (hidden: seq<Hidden>)
    requires cache.Shaped() && cache.layers == model.layers && AllReady(cache.blockSize, cache.numPages, items)
    requires SlotsOf(cache.blockSize, cache.numPages, Rows(items), slots) && embedded == Embedded(model, Rows(items))
    requires Starts(items, meta.queryStart) && Owns(cache.blockSize, items, |items|, meta.kvStart, meta.kvSlots)
    modifies cache.data
    ensures (cache.View(), hidden) == Pass(model, cache.blockSize, Rows(items), old(cache.View()))
  {
    hide Rows, AllReady, Starts, Owns, SlotsOf, KVCache.View;
    hidden := embedded;
    var l: nat := 0;
    while l < model.layers
      invariant l <= model.layers && |hidden| == |Rows(items)|
      invariant Layers(model, cache.blockSize, Rows(items), cache.View(), hidden, l) == Pass(model, cache.blockSize, Rows(items), old(cache.View()))
    {
      hidden := AttendLayer(model, cache, l, slots, meta, hidden, items);
      l := l + 1;
    }
  }

  // --- the runner ------------------------------------------------------------------------------------------------------

  class ModelRunner {
    const cfg: Config
    const model: Model
    /** Device pages; the last is a scratch page that no table names. */
    const gpu: KVCache
    /** Host pages of swapped-out requests. */
    const cpu: KVCache

    constructor (cfg: Config, model: Model)
      requires cfg.blockSize > 0
      ensures this.cfg == cfg && this.model == model && Valid() && fresh(gpu.data) && fresh(cpu.data)
    {
      this.cfg, this.model := cfg, model;
      gpu := new KVCache(model.layers, cfg.numBlocks + 1, cfg.blockSize);
      cpu := new KVCache(model.layers, cfg.numCpuBlocks, cfg.blockSize);
    }

    predicate Valid() {
      && gpu.Shaped() && cpu.Shaped() && gpu.data != cpu.data
      && gpu.layers == cpu.layers == model.layers && gpu.blockSize == cpu.blockSize == cfg.blockSize
      && gpu.numPages == cfg.numBlocks + 1 && cpu.numPages == cfg.numCpuBlocks
    }

    /** Both caches as pages. */
    ghost function View(): Mem
      requires Valid()
      reads gpu.data, cpu.data
    {
      Mem(gpu.View(), cpu.View())
    }

    lemma {:induction false} ViewShape()
      requires Valid()
      ensures KvKept.MemShape(cfg, model, View())
    {
      gpu.ViewShape();
      cpu.ViewShape();
    }

    /** Copies within the two caches. */
    ghost predicate CopiesOk(outs: seq<(Block, Block)>, ins: seq<(Block, Block)>) {
      && (forall i :: 0 <= i < |outs| ==> 0 <= outs[i].0 < gpu.numPages && 0 <= outs[i].1 < cpu.numPages)
      && (forall i :: 0 <= i < |ins| ==> 0 <= ins[i].0 < cpu.numPages && 0 <= ins[i].1 < gpu.numPages)
    }

    /** A step's swaps: victims leave before anybody comes back. */
    method Swap(outs: seq<(Block, Block)>, ins: seq<(Block, Block)>)
      requires Valid() && CopiesOk(outs, ins)
      modifies gpu.data, cpu.data
      ensures View() == Swapped(old(View()), outs, ins)
    {
      hide CopyPages, KVCache.View;
      if outs != [] {
        CopyBlocks(gpu, cpu, outs);
      } else {
        KvKept.NoCopies(gpu.View(), cpu.View());
      }
      if ins != [] {
        CopyBlocks(cpu, gpu, ins);
      } else {
        KvKept.NoCopies(cpu.View(), gpu.View());
      }
    }

    /** One forward pass over all the tokens of a batch; the samples come in batch order. */
    method Compute(seqs: seq<Sequence>, ns: seq<nat>, doSample: seq<bool>, ghost items: seq<Item>) returns (sampled: seq<Token>)
      requires Valid() && Carries(seqs, ns, items) && AllReady(cfg.blockSize, cfg.numBlocks + 1, items)
      requires |doSample| == |items| && forall i :: 0 <= i < |items| ==> doSample[i] == Samples(items[i])
      modifies gpu.data
      ensures var r := Pass(model, cfg.blockSize, Rows(items), old(gpu.View()));
        gpu.View() == r.0 && sampled == SampleFrom(model, items, r.1)
    {
      hide AllReady, Rows, Samples, KVCache.View, SampleFrom, Filled, Starts, Owns, SlotsOf, LogitsIndices, Layers, SlotAt;
      var ids, positions, slots, logits, meta := Prepare(cfg.blockSize, gpu.numPages, seqs, ns, doSample, items);
      FilledShape(cfg.blockSize, Rows(items), ids[..], positions[..], slots[..]);
      FilledSlots(cfg.blockSize, gpu.numPages, items, ids[..], positions[..], slots[..]);
      var hidden := Embed(model, ids, positions, ids.Length, cfg.blockSize, Rows(items), slots[..]);
      hidden := ForwardPass(model, gpu, slots[..], meta, hidden, items);
      SampledRows(model, items, hidden);
      if true !in doSample {
        assert forall i :: 0 <= i < |items| ==> doSample[i] in doSample && !Samples(items[i]);
        NoneSampled(model, items, hidden);
        return [];
      }
      sampled := seq(|logits|, k requires 0 <= k < |logits| => model.next(hidden[logits[k]]));
    }

    /** Run a batch: its swaps, then the forward pass. */
    method Execute(seqs: seq<Sequence>, ns: seq<nat>, doSample: seq<bool>, outs: seq<(Block, Block)>,
                   ins: seq<(Block, Block)>, ghost items: seq<Item>)
      returns (sampled: seq<Token>)
      requires Valid() && CopiesOk(outs, ins) && Carries(seqs, ns, items) && AllReady(cfg.blockSize, cfg.numBlocks + 1, items)
      requires |doSample| == |items| && forall i :: 0 <= i < |items| ==> doSample[i] == Samples(items[i])
      modifies gpu.data, cpu.data
      ensures var now := Swapped(old(View()), outs, ins);
        var r := Pass(model, cfg.blockSize, Rows(items), now.gpu);
        View() == Mem(r.0, now.cpu) && sampled == SampleFrom(model, items, r.1)
    {
      hide AllReady, Rows, Samples, KVCache.View, Swapped, SampleFrom, Layers;
      Swap(outs, ins);
      if seqs == [] {
        NobodyRuns(model, cfg.blockSize, items, gpu.View());
        return [];
      }
      sampled := Compute(seqs, ns, doSample, items);
    }
  }

  lemma {:induction false} NoneSampled(model: Model, items: seq<Item>, hidden: seq<Hidden>)
    requires |hidden| == |Rows(items)| && forall i :: 0 <= i < |items| ==> !Samples(items[i])
    ensures SampleFrom(model, items, hidden) == []
    decreases |items|
  {
    hide Samples;
    if items != [] {
      assert Rows(items) == RowsOf(items[0]) + Rows(items[1..]);
      NoneSampled(model, items[1..], hidden[items[0].n..]);
    }
  }

  lemma {:induction false} FilledShape(bs: nat, rows: seq<Row>, ids: seq<Token>, positions: seq<nat>, slots: seq<nat>)
    requires bs > 0 && |ids| == |rows| && Filled(bs, rows, 0, |rows|, ids, positions, slots)
    ensures |positions| == |slots| == |rows|
  {
  }

  /** A pass over no rows leaves the pages as they are. */
  lemma {:induction false} NobodyRuns(model: Model, bs: nat, items: seq<Item>, pages: seq<PageData>)
    requires bs > 0 && items == []
    ensures Pass(model, bs, Rows(items), pages) == (pages, []) && SampleFrom(model, items, []) == []
  {
    assert Rows(items) == [] && Embedded(model, []) == [];
    NoLayers(model, bs, pages, 0);
  }

  lemma {:induction false} NoLayers(model: Model, bs: nat, pages: seq<PageData>, l: nat)
    requires bs > 0
    ensures Layers(model, bs, [], pages, [], l) == (pages, [])
    decreases model.layers - l
  {
    if l < model.layers {
      var slots, kvs := Slots(bs, []), Projected(model, [], l);
      assert slots == [] && kvs == [];
      assert Attended(model, bs, pages, [], [], l) == [];
      NoLayers(model, bs, pages, l + 1);
    }
  }
}
