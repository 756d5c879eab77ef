// Decode steps replayed from a captured graph: the batch is padded to one of a few sizes, and the padding rows
// compute on a scratch page. Over whole runs this changes neither outputs nor states, and of the pages only that one.
module Padding {
  import opened Basics
  import opened Paging
  import opened BlockPool
  import opened Transformer
  import opened Streaming
  import opened Scheduling
  import opened Planning
  import opened Stepping
  import opened Memory
  import opened Forward
  import opened KvKept
  import opened Execute
  import opened EngineRun
  import opened Requests
  import opened Results
  import Swaps

  // --- pages that differ in one place --------------------------------------------------------------------------------

  /** The same pages, but for one. */
  ghost predicate SameBut(a: seq<PageData>, b: seq<PageData>, spare: Block) {
    |a| == |b| && forall c :: 0 <= c < |a| && c != spare ==> a[c] == b[c]
  }

  lemma {:induction false} PutSame(a: seq<PageData>, b: seq<PageData>, spare: Block, c: Block, o: int, l: nat, kv: KV)
    requires SameBut(a, b, spare)
    ensures c != spare ==> SameBut(PutKV(a, c, o, l, kv), PutKV(b, c, o, l, kv), spare)
    ensures c == spare ==> SameBut(a, PutKV(b, c, o, l, kv), spare)
  {
  }

  /** Writes to the spare page besides the others. */
  lemma {:induction false} ScatterSame(a: seq<PageData>, b: seq<PageData>, spare: Block, slots: seq<(Block, int)>, kvs: seq<KV>,
                                       slots': seq<(Block, int)>, kvs': seq<KV>, l: nat)
    requires SameBut(a, b, spare) && |slots| == |kvs| && |slots'| == |kvs'| && slots <= slots' && kvs <= kvs'
    requires forall i :: 0 <= i < |slots'| ==> (slots'[i].0 == spare <==> i >= |slots|)
    ensures SameBut(Scatter(a, slots, kvs, l), Scatter(b, slots', kvs', l), spare)
    decreases |slots'|
  {
    hide SameBut, PutKV;
    if slots' != [] {
      var last := |slots'| - 1;
      var b1 := Scatter(b, slots'[..last], kvs'[..last], l);
      if |slots| == |slots'| {
        ScatterSame(a, b, spare, slots[..last], kvs[..last], slots'[..last], kvs'[..last], l);
        PutSame(Scatter(a, slots[..last], kvs[..last], l), b1, spare, slots'[last].0, slots'[last].1, l, kvs'[last]);
      } else {
        ScatterSame(a, b, spare, slots, kvs, slots'[..last], kvs'[..last], l);
        PutSame(Scatter(a, slots, kvs, l), b1, spare, slots'[last].0, slots'[last].1, l, kvs'[last]);
      }
    }
  }

  lemma {:induction false} GatherSame(bs: nat, a: seq<PageData>, b: seq<PageData>, spare: Block, table: seq<Block>,
                                      len: nat, l: nat)
    requires bs > 0 && SameBut(a, b, spare) && spare !in table
    ensures GatherLayer(bs, a, table, len, l) == GatherLayer(bs, b, table, len, l)
  {
    if len > 0 {
      GatherSame(bs, a, b, spare, table, len - 1, l);
      hide Page, Offset;
      var k := Page(bs, len - 1);
      if k < |table| {
        assert table[k] != spare;
      }
    }
  }

  lemma {:induction false} CopiesSame(src: seq<PageData>, src': seq<PageData>, dst: seq<PageData>,
                                      dst': seq<PageData>, spare: Block, pairs: seq<(Block, Block)>)
    requires SameBut(src, src', spare) && SameBut(dst, dst', spare)
    requires forall i :: 0 <= i < |pairs| ==> pairs[i].0 != spare || src == src'
    ensures SameBut(CopyPages(src, dst, pairs), CopyPages(src', dst', pairs), spare)
    ensures dst == dst' ==> CopyPages(src, dst, pairs) == CopyPages(src', dst', pairs)
    decreases |pairs|
  {
    if pairs != [] {
      CopiesSame(src, src', CopyPage(src, dst, pairs[0]), CopyPage(src', dst', pairs[0]), spare, pairs[1..]);
    }
  }

  // --- padding rows ------------------------------------------------------------------------------------------------------

  /** What a padding row computes: token 0 at position 0, on the spare page. */
  function PadItem(spare: Block): Item {
    Item(Seq(-1, Params(1, [], false), 0.0, None, Gen(1, [0], None, "", 0, []), [spare], [], 0, [], 0, Waiting, None), 1)
  }

  function Pads(n: nat, spare: Block): (r: seq<Item>)
    ensures |r| == n && forall i :: 0 <= i < n ==> r[i] == PadItem(spare)
  {
    seq(n, _ => PadItem(spare))
  }

  lemma {:induction false} PadRows(n: nat, spare: Block)
    ensures |Rows(Pads(n, spare))| == n
    ensures forall i :: 0 <= i < n ==> Rows(Pads(n, spare))[i] == Row(PadItem(spare), 0)
    decreases n
  {
    if n == 0 {
      assert Pads(n, spare) == [];
    } else {
      assert Pads(n, spare)[1..] == Pads(n - 1, spare);
      PadRows(n - 1, spare);
      assert RowsOf(PadItem(spare)) == [Row(PadItem(spare), 0)];
    }
  }

  /** No row's pages include the spare one. */
  ghost predicate Avoid(rows: seq<Row>, spare: Block) {
    forall r :: 0 <= r < |rows| ==> spare !in rows[r].it.s.table
  }

  /** Rows that write only the spare page. */
  ghost predicate OnSpare(bs: nat, pads: seq<Row>, spare: Block)
    requires bs > 0
  {
    forall r :: 0 <= r < |pads| ==> SlotOf(bs, pads[r]).0 == spare
  }

  lemma {:induction false} SlotsApart(bs: nat, rows: seq<Row>, pads: seq<Row>, spare: Block)
    requires bs > 0 && spare >= 0 && Avoid(rows, spare) && OnSpare(bs, pads, spare)
    ensures Slots(bs, rows) <= Slots(bs, rows + pads)
    ensures forall i :: 0 <= i < |rows + pads| ==> (Slots(bs, rows + pads)[i].0 == spare <==> i >= |rows|)
  {
    hide Page, Offset;
    var slots := Slots(bs, rows + pads);
    forall i | 0 <= i < |rows + pads| ensures slots[i].0 == spare <==> i >= |rows| {
      if i < |rows| {
        assert slots[i] == SlotOf(bs, rows[i]);
      } else {
        assert slots[i] == SlotOf(bs, pads[i - |rows|]);
      }
    }
  }

  /** From any layer on, padded rows leave the others' activations and every page but the spare one as they are. */
  lemma {:induction false} LayersSame(m: Model, bs: nat, rows: seq<Row>, pads: seq<Row>, spare: Block,
                                      a: seq<PageData>, b: seq<PageData>, ha: seq<Hidden>, hb: seq<Hidden>, l: nat)
    requires bs > 0 && spare >= 0 && Avoid(rows, spare) && OnSpare(bs, pads, spare) && SameBut(a, b, spare)
    requires |ha| == |rows| && |hb| == |rows + pads| && ha <= hb
    ensures var ra, rb := Layers(m, bs, rows, a, ha, l), Layers(m, bs, rows + pads, b, hb, l);
      SameBut(ra.0, rb.0, spare) && ra.1 <= rb.1
    decreases m.layers - l
  {
    hide SameBut, Scatter, Avoid, OnSpare, SlotOf;
    if l < m.layers {
      var kvs, kvs' := Projected(m, ha, l), Projected(m, hb, l);
      SlotsApart(bs, rows, pads, spare);
      assert kvs <= kvs';
      ScatterSame(a, b, spare, Slots(bs, rows), kvs, Slots(bs, rows + pads), kvs', l);
      var a1, b1 := Scatter(a, Slots(bs, rows), kvs, l), Scatter(b, Slots(bs, rows + pads), kvs', l);
      AttendedSame(m, bs, rows, pads, spare, a1, b1, ha, hb, l);
      LayersSame(m, bs, rows, pads, spare, a1, b1, Attended(m, bs, a1, rows, ha, l), Attended(m, bs, b1, rows + pads, hb, l), l + 1);
    }
  }

  lemma {:induction false} AttendedSame(m: Model, bs: nat, rows: seq<Row>, pads: seq<Row>, spare: Block,
                                        a: seq<PageData>, b: seq<PageData>, ha: seq<Hidden>, hb: seq<Hidden>, l: nat)
    requires bs > 0 && Avoid(rows, spare) && SameBut(a, b, spare) && |ha| == |rows| && |hb| == |rows + pads| && ha <= hb
    ensures Attended(m, bs, a, rows, ha, l) <= Attended(m, bs, b, rows + pads, hb, l)
  {
    hide SameBut, GatherLayer;
    forall i | 0 <= i < |rows| ensures Attended(m, bs, a, rows, ha, l)[i] == Attended(m, bs, b, rows + pads, hb, l)[i] {
      GatherSame(bs, a, b, spare, rows[i].it.s.table, rows[i].p + 1, l);
    }
  }

  /** Padding is harmless. */
  lemma {:induction false} PassSame(m: Model, bs: nat, rows: seq<Row>, pads: seq<Row>, spare: Block,
                                    a: seq<PageData>, b: seq<PageData>)
    requires bs > 0 && spare >= 0 && Avoid(rows, spare) && OnSpare(bs, pads, spare) && SameBut(a, b, spare)
    ensures var ra, rb := Pass(m, bs, rows, a), Pass(m, bs, rows + pads, b);
      SameBut(ra.0, rb.0, spare) && ra.1 <= rb.1
  {
    hide SameBut, Avoid, OnSpare, Layers;
    assert Embedded(m, rows) <= Embedded(m, rows + pads);
    LayersSame(m, bs, rows, pads, spare, a, b, Embedded(m, rows), Embedded(m, rows + pads), 0);
  }

  // --- the sizes -----------------------------------------------------------------------------------------------------------

  const SIZES: seq<nat> := [1, 2, 4, 8, 16, 24, 32, 48, 64, 96, 128, 160, 192, 224, 256, 320, 384, 448, 512]

  function Below(sizes: seq<nat>, max: nat): seq<nat> {
    if sizes == [] then [] else (if sizes[0] < max then [sizes[0]] else []) + Below(sizes[1..], max)
  }

  /** The batch sizes that graphs are captured for. */
  function Buckets(max: nat): seq<nat> {
    Below(SIZES, max) + [max]
  }

  /** The first size with room for n. */
  function BucketFor(buckets: seq<nat>, n: nat): nat {
    if buckets == [] then 0 else if buckets[0] >= n then buckets[0] else BucketFor(buckets[1..], n)
  }

  /** Sizes that grow, but never to more than twice the one before. */
  ghost predicate Climbs(sizes: seq<nat>) {
    forall i :: 0 <= i < |sizes| - 1 ==> sizes[i] < sizes[i + 1] <= 2 * sizes[i]
  }

  lemma {:induction false} AllLarger(sizes: seq<nat>, max: nat)
    requires Climbs(sizes) && sizes != [] && sizes[0] >= max
    ensures Below(sizes, max) == []
    decreases |sizes|
  {
    if |sizes| > 1 {
      assert sizes[0] < sizes[0 + 1];
      AllLarger(sizes[1..], max);
    }
  }

  lemma {:induction false} FirstFit(sizes: seq<nat>, max: nat, n: nat, prev: nat)
    requires Climbs(sizes) && prev < n <= max && (sizes != [] ==> sizes[0] <= 2 * prev + 1)
    ensures var all := Below(sizes, max) + [max];
      var b := BucketFor(all, n);
      && n <= b <= max && b in all && (b < 2 * n || b == max)
      && forall c :: c in all && c >= n ==> b <= c
    decreases |sizes|
  {
    var all := Below(sizes, max) + [max];
    if sizes == [] {
      assert all == [max];
    } else if sizes[0] >= max {
      AllLarger(sizes, max);
      assert all == [max];
    } else {
      var rest := Below(sizes[1..], max) + [max];
      assert all == [sizes[0]] + rest && all[1..] == rest;
      BelowMax(sizes[1..], max);
      if sizes[0] >= n {
        Ascending(sizes[1..], max, sizes[0]);
      } else {
        FirstFit(sizes[1..], max, n, sizes[0]);
      }
    }
  }

  lemma {:induction false} BelowMax(sizes: seq<nat>, max: nat)
    ensures forall c :: c in Below(sizes, max) ==> c < max
  {
    if sizes != [] {
      BelowMax(sizes[1..], max);
    }
  }

  lemma {:induction false} Ascending(sizes: seq<nat>, max: nat, least: nat)
    requires Climbs(sizes) && (sizes != [] ==> least < sizes[0])
    ensures forall c :: c in Below(sizes, max) ==> least <= c
    decreases |sizes|
  {
    if |sizes| == 1 {
      assert Below(sizes[1..], max) == [];
    } else if |sizes| > 1 {
      assert sizes[0] < sizes[0 + 1];
      Ascending(sizes[1..], max, least);
    }
  }

  /** There is always a size, it is the least with room, and less than twice what is needed unless it is the
      largest. */
  lemma {:induction false} BucketFits(max: nat, n: nat)
    requires 1 <= n <= max
    ensures var b := BucketFor(Buckets(max), n);
      && n <= b <= max && b in Buckets(max) && (b < 2 * n || b == max)
      && forall c :: c in Buckets(max) && c >= n ==> b <= c
  {
    SizesClimb();
    FirstFit(SIZES, max, n, 0);
  }

  lemma {:induction false} SizesClimb()
    ensures Climbs(SIZES) && SIZES[0] == 1
  {
    FirstSizes();
    LastSizes();
    hide SIZES;
  }

  lemma {:induction false} FirstSizes()
    ensures |SIZES| == 19 && SIZES[0] == 1 && forall i :: 0 <= i < 9 ==> SIZES[i] < SIZES[i + 1] <= 2 * SIZES[i]
  {
  }

  lemma {:induction false} LastSizes()
    ensures |SIZES| == 19 && forall i :: 9 <= i < 18 ==> SIZES[i] < SIZES[i + 1] <= 2 * SIZES[i]
  {
  }

  // --- whole runs ------------------------------------------------------------------------------------------------------------

  /** Only decodes: every batched request computes its last token, and there is a size for them. */
  ghost predicate CanReplay(cfg: Config, items: seq<Item>) {
    1 <= |Rows(items)| <= cfg.maxNumSeqs && forall i :: 0 <= i < |items| ==> items[i].n == 0 || (items[i].n == 1 && Samples(items[i]))
  }

  /** The rows a batch is padded with. */
  ghost function PaddingOf(cfg: Config, items: seq<Item>): seq<Row> {
    if CanReplay(cfg, items) then
      BucketFits(cfg.maxNumSeqs, |Rows(items)|);
      Rows(Pads(BucketFor(Buckets(cfg.maxNumSeqs), |Rows(items)|) - |Rows(items)|, cfg.numBlocks))
    else []
  }

  /** RunBatch, with graphs for decode-only batches. */
  ghost function ReplayBatch(cfg: Config, model: Model, mem: Mem, m: Mid): (Mem, seq<Token>)
    requires cfg.blockSize > 0
  {
    var mem1 := Swapped(mem, m.swapOut, m.swapIn);
    var (gpu, hidden) := Pass(model, cfg.blockSize, Rows(m.items) + PaddingOf(cfg, m.items), mem1.gpu);
    (Mem(gpu, mem1.cpu), SampleFrom(model, m.items, hidden[..|Rows(m.items)|]))
  }

  ghost function ReplayStep(cfg: Config, model: Model, e: Engine): Outcome
    requires cfg.blockSize > 0
  {
    var m := Schedule(cfg, e.st);
    if BatchEmpty(m) then
      if m.outputs == [] && HasWork(Planned(m)) then Stuck else Done(Engine(Planned(m), e.mem), m.outputs)
    else
      var (mem, sampled) := ReplayBatch(cfg, model, e.mem, m);
      var (st, outputs) := Update(cfg, m, sampled);
      Done(Engine(st, mem), outputs)
  }

  ghost function ReplayRun(cfg: Config, model: Model, e: Engine, events: seq<Event>): Outcome
    requires cfg.blockSize > 0
    decreases |events|
  {
    if events == [] then Done(e, [])
    else
      match if events[0].Step? then ReplayStep(cfg, model, e) else Next(cfg, model, e, events[0])
      case Stuck => Stuck
      case Done(e1, outs) =>
        match ReplayRun(cfg, model, e1, events[1..])
        case Stuck => Stuck
        case Done(e2, more) => Done(e2, outs + more)
  }

  /** The same engine, but for the scratch page. */
  ghost predicate Twins(cfg: Config, e: Engine, g: Engine) {
    e.st == g.st && e.mem.cpu == g.mem.cpu && SameBut(e.mem.gpu, g.mem.gpu, cfg.numBlocks)
  }

  ghost predicate SameOutcome(cfg: Config, r: Outcome, r': Outcome) {
    r.Done? == r'.Done? && (r.Done? ==> r.outputs == r'.outputs && Twins(cfg, r.e, r'.e))
  }

  lemma {:induction false} SwappedSame(cfg: Config, a: Mem, b: Mem, m: Mid)
    requires a.cpu == b.cpu && SameBut(a.gpu, b.gpu, cfg.numBlocks) && Swaps.Inside(cfg, m)
    ensures var a1, b1 := Swapped(a, m.swapOut, m.swapIn), Swapped(b, m.swapOut, m.swapIn);
      a1.cpu == b1.cpu && SameBut(a1.gpu, b1.gpu, cfg.numBlocks)
  {
    assert SameBut(a.cpu, b.cpu, cfg.numBlocks);
    hide SameBut, CopyPages;
    CopiesSame(a.gpu, b.gpu, a.cpu, b.cpu, cfg.numBlocks, m.swapOut);
    var cpu := CopyPages(a.gpu, a.cpu, m.swapOut);
    SameAsItself(cpu, cfg.numBlocks);
    CopiesSame(cpu, cpu, a.gpu, b.gpu, cfg.numBlocks, m.swapIn);
  }

  lemma {:induction false} SameAsItself(a: seq<PageData>, spare: Block)
    ensures SameBut(a, a, spare)
  {
  }

  /** No request's table names the scratch page. */
  lemma {:induction false} RowsAvoid(cfg: Config, m: Mid)
    requires cfg.blockSize > 0 && MidOk(cfg, m)
    ensures Avoid(Rows(m.items), cfg.numBlocks)
  {
    hide MidOk;
    var rows := Rows(m.items);
    forall r | 0 <= r < |rows| ensures cfg.numBlocks !in rows[r].it.s.table {
      RowComesFrom(m.items, rows[r]);
      var i :| 0 <= i < |m.items| && rows[r].it == m.items[i] && m.items[i].s.computed <= rows[r].p < m.items[i].s.computed + m.items[i].n;
      InPool(cfg, m, i);
    }
  }

  lemma {:induction false} PadsOnSpare(cfg: Config, items: seq<Item>)
    requires cfg.blockSize > 0
    ensures OnSpare(cfg.blockSize, PaddingOf(cfg, items), cfg.numBlocks)
  {
    if CanReplay(cfg, items) {
      BucketFits(cfg.maxNumSeqs, |Rows(items)|);
      var n := BucketFor(Buckets(cfg.maxNumSeqs), |Rows(items)|) - |Rows(items)|;
      hide BucketFor, Buckets, CanReplay;
      PadRows(n, cfg.numBlocks);
      PageOf(cfg.blockSize, 0, 0);
      hide Page;
    }
  }

  lemma {:induction false} BatchSame(cfg: Config, model: Model, a: Mem, b: Mem, m: Mid)
    requires cfg.blockSize > 0 && MidOk(cfg, m) && Swaps.Inside(cfg, m) && a.cpu == b.cpu && SameBut(a.gpu, b.gpu, cfg.numBlocks)
    ensures var r, r' := RunBatch(cfg, model, a, m), ReplayBatch(cfg, model, b, m);
      r.1 == r'.1 && r.0.cpu == r'.0.cpu && SameBut(r.0.gpu, r'.0.gpu, cfg.numBlocks)
  {
    hide MidOk, Swaps.Inside, SameBut, Swapped, Pass, Rows, PaddingOf, Avoid, OnSpare, SampleFrom;
    SwappedSame(cfg, a, b, m);
    RowsAvoid(cfg, m);
    PadsOnSpare(cfg, m.items);
    PassSame(model, cfg.blockSize, Rows(m.items), PaddingOf(cfg, m.items), cfg.numBlocks,
             Swapped(a, m.swapOut, m.swapIn).gpu, Swapped(b, m.swapOut, m.swapIn).gpu);
    var h := Pass(model, cfg.blockSize, Rows(m.items), Swapped(a, m.swapOut, m.swapIn).gpu).1;
    var h' := Pass(model, cfg.blockSize, Rows(m.items) + PaddingOf(cfg, m.items), Swapped(b, m.swapOut, m.swapIn).gpu).1;
    assert h'[..|Rows(m.items)|] == h;
  }

  lemma {:induction false} StepSame(cfg: Config, model: Model, e: Engine, g: Engine)
    requires cfg.blockSize > 0 && StateOk(cfg, e.st) && Twins(cfg, e, g)
    ensures SameOutcome(cfg, StepEngine(cfg, model, e), ReplayStep(cfg, model, g))
  {
    hide StateOk, MidOk, Schedule, RunBatch, ReplayBatch, Update, HasWork, BatchEmpty, SameBut, Swaps.Inside;
    var m := Schedule(cfg, e.st);
    ScheduleOk(cfg, e.st);
    Swaps.ScheduleInside(cfg, e.st);
    BatchSame(cfg, model, e.mem, g.mem, m);
  }

  /** Replaying graphs changes nothing a client sees: over any run the outputs and the states are the same, and of the
      pages only the scratch page may differ. */
  lemma {:induction false} ReplaysAgree(cfg: Config, model: Model, e: Engine, g: Engine, events: seq<Event>)
    requires cfg.blockSize > 0 && EngineOk(cfg, model, e) && Twins(cfg, e, g)
    ensures SameOutcome(cfg, Run(cfg, model, e, events), ReplayRun(cfg, model, g, events))
    decreases |events|
  {
    hide StateOk, KvOk, AllOnCourse, AllSettled, StepEngine, ReplayStep, AddRequest, AbortRequest, SameBut;
    if events != [] {
      NextSame(cfg, model, e, g, events[0]);
      var r := Next(cfg, model, e, events[0]);
      if r.Done? {
        NextOk(cfg, model, e, events[0]);
        var r' := if events[0].Step? then ReplayStep(cfg, model, g) else Next(cfg, model, g, events[0]);
        ReplaysAgree(cfg, model, r.e, r'.e, events[1..]);
      }
    }
  }

  lemma {:induction false} NextSame(cfg: Config, model: Model, e: Engine, g: Engine, ev: Event)
    requires cfg.blockSize > 0 && StateOk(cfg, e.st) && Twins(cfg, e, g)
    ensures SameOutcome(cfg, Next(cfg, model, e, ev), if ev.Step? then ReplayStep(cfg, model, g) else Next(cfg, model, g, ev))
  {
    hide StateOk, StepEngine, ReplayStep, FindId, LiveSeqs, DropId, Enqueue, Acceptable, FreeTable, SameBut;
    if ev.Step? {
      StepSame(cfg, model, e, g);
    }
  }
}
