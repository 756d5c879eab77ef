// Running a planned batch: every write goes to a private, unpublished page, and afterwards every
// scheduled position holds its K/V and every sampled row's activations are the reference's.
module Execute {
  import opened Basics
  import opened Paging
  import opened BlockPool
  import opened Transformer
  import opened Streaming
  import opened Scheduling
  import opened Accounting
  import opened Planning
  import opened Memory
  import opened KvKept
  import opened Forward

  // --- the rows of a batch -----------------------------------------------------------------------------------

  lemma {:induction false} RowComesFrom(items: seq<Item>, row: Row)
    ensures row in Rows(items) <==>
      exists i :: 0 <= i < |items| && row.it == items[i] && items[i].s.computed <= row.p < items[i].s.computed + items[i].n
  {
    if items != [] {
      RowComesFrom(items[1..], row);
      var it, tail := items[0], items[1..];
      assert row in Rows(items) <==> row in RowsOf(it) || row in Rows(tail);
      if row in RowsOf(it) {
        assert row.it == items[0];
      }
      if row in Rows(tail) {
        var i :| 0 <= i < |tail| && row.it == tail[i] && tail[i].s.computed <= row.p < tail[i].s.computed + tail[i].n;
        assert items[i + 1] == tail[i];
      }
      forall i | 0 <= i < |items| && row.it == items[i] && items[i].s.computed <= row.p < items[i].s.computed + items[i].n
        ensures row in Rows(items)
      {
        if i == 0 {
          assert RowsOf(it)[row.p - it.s.computed] == row;
        } else {
          assert tail[i - 1] == items[i];
        }
      }
    }
  }

  lemma {:induction false} RowsDistinct(items: seq<Item>)
    requires Distinct(items)
    ensures Distinct(Rows(items))
  {
    if items != [] {
      var it, tail := items[0], items[1..];
      RowsDistinct(tail);
      forall i, j | 0 <= i < |RowsOf(it)| && 0 <= j < |Rows(tail)| ensures RowsOf(it)[i] != Rows(tail)[j] {
        RowComesFrom(tail, Rows(tail)[j]);
        assert it !in tail;
      }
    }
  }

  lemma {:induction false} TotalTwo<T>(seqs: seq<Seq>, i: nat, j: nat, f: Seq -> multiset<T>)
    requires i < j < |seqs|
    ensures f(seqs[i]) + f(seqs[j]) <= Total(seqs, f)
  {
    if i == 0 {
      TotalHas(seqs[1..], j - 1, f);
    } else {
      TotalTwo(seqs[1..], i - 1, j - 1, f);
    }
  }

  lemma {:induction false} ItemsDistinct(cfg: Config, m: Mid)
    requires cfg.blockSize > 0 && MidOk(cfg, m)
    ensures Distinct(m.items)
  {
    hide Valid, CpuValid, ItemsOk, TodosOk, QueuesOk, Total;
    forall i, j | 0 <= i < j < |m.items| ensures m.items[i] != m.items[j] {
      TotalTwo(Seqs(m.items), i, j, IdOf);
      var id := m.items[i].s.id;
      assert Ids(m)[id] <= 1;
      assert IdOf(m.items[i].s)[id] == 1;
      assert IdOf(m.items[j].s)[id] == (if m.items[j].s.id == id then 1 else 0);
      assert Total(Seqs(m.items), IdOf)[id] <= Ids(m)[id];
      assert (IdOf(Seqs(m.items)[i]) + IdOf(Seqs(m.items)[j]))[id] <= Total(Seqs(m.items), IdOf)[id];
    }
  }

  // --- writes are private --------------------------------------------------------------------------------------

  /** The page a new position lies on. */
  lemma {:induction false} NewPositionPage(cfg: Config, p: Pool, it: Item, q: nat)
    requires cfg.blockSize > 0 && ItemOk(cfg, p, it) && q < it.s.computed + it.n
    ensures Page(cfg.blockSize, q) < |it.s.table| && q < NumTokens(it.s)
    ensures it.s.computed <= q ==> HashOf(p, it.s.table[Page(cfg.blockSize, q)]) == None
    ensures Distinct(it.s.table)
  {
    PageInRange(cfg.blockSize, q, it.s.computed + it.n);
    if it.s.computed <= q {
      PageMono(cfg.blockSize, q, it.s.computed);
    }
    hide RequestOk, HashOf, BlocksFor, OwnBlock;
  }

  /** A page a step writes has one holder, no published hash, and is in no other running table. */
  lemma {:induction false} WritesArePrivate(cfg: Config, m: Mid, i: nat, q: nat)
    requires cfg.blockSize > 0 && MidOk(cfg, m) && m.todo == [] && i < |m.items|
    requires m.items[i].s.computed <= q < m.items[i].s.computed + m.items[i].n
    ensures Page(cfg.blockSize, q) < |m.items[i].s.table|
    ensures var b := m.items[i].s.table[Page(cfg.blockSize, q)];
      && 0 <= b < cfg.numBlocks && RefsOf(m.pool, b) == 1 && HashOf(m.pool, b) == None
      && (forall j :: 0 <= j < |m.items| && j != i ==> b !in m.items[j].s.table)
  {
    var it := m.items[i];
    assert ItemOk(cfg, m.pool, it);
    NewPositionPage(cfg, m.pool, it, q);
    hide CpuValid, ItemsOk, TodosOk, QueuesOk, Total, Unique, ItemOk, Listed, Page, HashOf;
    var b := it.s.table[Page(cfg.blockSize, q)];
    var held := Held(m.items, m.todo);
    assert b in multiset(it.s.table);
    TotalHas(Seqs(m.items), i, TableOf);
    assert held[b] == RefsOf(m.pool, b) && held[b] <= 1;
    forall j | 0 <= j < |m.items| && j != i ensures b !in m.items[j].s.table {
      if j < i {
        TotalTwo(Seqs(m.items), j, i, TableOf);
      } else {
        TotalTwo(Seqs(m.items), i, j, TableOf);
      }
      var other := multiset(m.items[j].s.table);
      assert (multiset(it.s.table) + other)[b] <= held[b];
      assert other[b] == 0;
    }
  }

  /** A slot a step writes is the slot of no other position, written or read. */
  lemma {:induction false} SlotsApart(cfg: Config, m: Mid, i: nat, q: nat, j: nat, p: nat)
    requires cfg.blockSize > 0 && MidOk(cfg, m) && m.todo == [] && i < |m.items| && j < |m.items|
    requires q < m.items[i].s.computed + m.items[i].n
    requires m.items[j].s.computed <= p < m.items[j].s.computed + m.items[j].n
    requires SlotAt(cfg.blockSize, m.items[i].s.table, q) == SlotAt(cfg.blockSize, m.items[j].s.table, p)
    ensures i == j && q == p
  {
    WritesArePrivate(cfg, m, j, p);
    assert ItemOk(cfg, m.pool, m.items[i]);
    NewPositionPage(cfg, m.pool, m.items[i], q);
    hide MidOk, ItemOk, Page, Offset, HashOf;
    var table := m.items[i].s.table;
    assert table[Page(cfg.blockSize, q)] in table;
    if q != p {
      PositionsDiffer(cfg.blockSize, q, p);
    }
  }

  lemma {:induction false} InPool(cfg: Config, m: Mid, i: nat)
    requires cfg.blockSize > 0 && MidOk(cfg, m) && i < |m.items|
    ensures forall k :: 0 <= k < |m.items[i].s.table| ==> 0 <= m.items[i].s.table[k] < cfg.numBlocks
  {
    hide CpuValid, ItemsOk, TodosOk, QueuesOk, Unique, Total, Valid;
    TotalHas(Seqs(m.items), i, TableOf);
    HeldInRange(cfg.numBlocks, m.pool, Held(m.items, m.todo), m.items[i].s.table);
  }

  lemma {:induction false} RowInRangeOk(cfg: Config, m: Mid, row: Row)
    requires cfg.blockSize > 0 && MidOk(cfg, m) && m.todo == [] && row in Rows(m.items)
    ensures RowInRange(cfg.blockSize, row, cfg.numBlocks + 1)
  {
    RowComesFrom(m.items, row);
    var i :| 0 <= i < |m.items| && row.it == m.items[i] && m.items[i].s.computed <= row.p < m.items[i].s.computed + m.items[i].n;
    InPool(cfg, m, i);
    assert ItemOk(cfg, m.pool, m.items[i]);
    hide MidOk, ItemOk, Page, Rows;
    forall q: nat | q <= row.p
      ensures 0 <= SlotAt(cfg.blockSize, row.it.s.table, q).0 < cfg.numBlocks + 1 && Page(cfg.blockSize, q) < |row.it.s.table|
    {
      NewPositionPage(cfg, m.pool, m.items[i], q);
    }
    NewPositionPage(cfg, m.pool, m.items[i], row.p);
  }

  lemma {:induction false} RowsApart(cfg: Config, m: Mid, a: Row, q: nat, b: Row)
    requires cfg.blockSize > 0 && MidOk(cfg, m) && m.todo == [] && a in Rows(m.items) && b in Rows(m.items)
    requires q <= a.p && SlotAt(cfg.blockSize, a.it.s.table, q) == SlotOf(cfg.blockSize, b)
    ensures b == Row(a.it, q)
  {
    hide MidOk, Rows, SlotAt;
    RowComesFrom(m.items, a);
    RowComesFrom(m.items, b);
    var i :| 0 <= i < |m.items| && a.it == m.items[i] && m.items[i].s.computed <= a.p < m.items[i].s.computed + m.items[i].n;
    var j :| 0 <= j < |m.items| && b.it == m.items[j] && m.items[j].s.computed <= b.p < m.items[j].s.computed + m.items[j].n;
    SlotsApart(cfg, m, i, q, j, b.p);
  }

  lemma {:induction false} RowsComplete(items: seq<Item>, row: Row, q: nat)
    requires row in Rows(items) && row.it.s.computed <= q <= row.p
    ensures Row(row.it, q) in Rows(items)
  {
    RowComesFrom(items, row);
    RowComesFrom(items, Row(row.it, q));
  }

  /** The rows of a planned batch are in range, complete and pairwise apart. */
  lemma {:induction false} RowsAreOk(cfg: Config, m: Mid)
    requires cfg.blockSize > 0 && MidOk(cfg, m) && m.todo == []
    ensures RowsOk(cfg.blockSize, Rows(m.items), cfg.numBlocks + 1)
  {
    hide MidOk, Rows, SlotAt, RowInRange, Distinct;
    var bs, rows := cfg.blockSize, Rows(m.items);
    ItemsDistinct(cfg, m);
    RowsDistinct(m.items);
    forall r | 0 <= r < |rows| ensures RowInRange(bs, rows[r], cfg.numBlocks + 1) {
      RowInRangeOk(cfg, m, rows[r]);
    }
    forall r, q: nat | 0 <= r < |rows| && rows[r].it.s.computed <= q <= rows[r].p ensures Row(rows[r].it, q) in rows {
      RowsComplete(m.items, rows[r], q);
    }
    forall r, q: nat, t | 0 <= r < |rows| && 0 <= t < |rows| && q <= rows[r].p
                          && SlotAt(bs, rows[r].it.s.table, q) == SlotOf(bs, rows[t])
      ensures rows[t] == Row(rows[r].it, q)
    {
      RowsApart(cfg, m, rows[r], q, rows[t]);
    }
  }

  // --- before and after the pass -----------------------------------------------------------------------------

  lemma {:induction false} EntryLayer(m: Model, bs: nat, pages: seq<PageData>, s: Seq, q: nat)
    requires bs > 0 && q < NumTokens(s)
    ensures At(bs, pages, s.table, q) == EntryAt(m, s.gen.tokens, q)
      ==> forall l: nat :: l < m.layers ==> LayerKV(m, bs, pages, s, q, l)
    ensures |At(bs, pages, s.table, q)| == m.layers && (forall l: nat :: l < m.layers ==> LayerKV(m, bs, pages, s, q, l))
      ==> At(bs, pages, s.table, q) == EntryAt(m, s.gen.tokens, q)
  {
    hide At, KVAt;
    var e := At(bs, pages, s.table, q);
    if |e| == m.layers && forall l: nat :: l < m.layers ==> LayerKV(m, bs, pages, s, q, l) {
      forall l | 0 <= l < m.layers ensures e[l] == EntryAt(m, s.gen.tokens, q)[l] {
        assert LayerKV(m, bs, pages, s, q, l);
      }
      assert e == EntryAt(m, s.gen.tokens, q);
    }
  }

  /** Before the pass, positions computed earlier hold every layer. */
  lemma {:induction false} BeforePass(cfg: Config, model: Model, pages: seq<PageData>, m: Mid)
    requires cfg.blockSize > 0 && MidOk(cfg, m) && m.todo == [] && OnDevice(cfg, model, pages, Seqs(m.items))
    requires forall r :: 0 <= r < |Rows(m.items)| ==> Rows(m.items)[r].p < NumTokens(Rows(m.items)[r].it.s)
    ensures PagesDone(model, cfg.blockSize, pages, Rows(m.items), 0)
  {
    var rows := Rows(m.items);
    hide MidOk, Rows, LayerKV, At;
    forall r, q: nat, l: nat | 0 <= r < |rows| && q <= rows[r].p && l < model.layers && (q < rows[r].it.s.computed || l < 0)
      ensures LayerKV(model, cfg.blockSize, pages, rows[r].it.s, q, l)
    {
      RowComesFrom(m.items, rows[r]);
      var i :| 0 <= i < |m.items| && rows[r].it == m.items[i];
      var s := Seqs(m.items)[i];
      assert SeqKV(model, cfg.blockSize, pages, s.table, s.gen.tokens, s.computed);
      assert At(cfg.blockSize, pages, s.table, q) == EntryAt(model, s.gen.tokens, q);
      EntryLayer(model, cfg.blockSize, pages, s, q);
    }
  }

  /** Every item's positions, old and new, hold their K/V. */
  ghost predicate Executed(cfg: Config, model: Model, pages: seq<PageData>, items: seq<Item>)
    requires cfg.blockSize > 0
  {
    forall i :: 0 <= i < |items| ==>
      SeqKV(model, cfg.blockSize, pages, items[i].s.table, items[i].s.gen.tokens, items[i].s.computed + items[i].n)
  }

  lemma {:induction false} AtHasLayers(cfg: Config, model: Model, pages: seq<PageData>, table: seq<Block>, q: nat)
    requires cfg.blockSize > 0 && PagesShape(pages, cfg.numBlocks + 1, cfg.blockSize, model.layers)
    requires Page(cfg.blockSize, q) < |table| && 0 <= table[Page(cfg.blockSize, q)] < cfg.numBlocks
    ensures |At(cfg.blockSize, pages, table, q)| == model.layers
  {
  }

  lemma {:induction false} AfterItem(cfg: Config, model: Model, pages: seq<PageData>, pages': seq<PageData>, m: Mid, i: nat)
    requires cfg.blockSize > 0 && MidOk(cfg, m) && m.todo == [] && i < |m.items|
    requires OnDevice(cfg, model, pages, Seqs(m.items))
    requires PagesShape(pages', cfg.numBlocks + 1, cfg.blockSize, model.layers)
    requires forall r :: 0 <= r < |Rows(m.items)| ==> Rows(m.items)[r].p < NumTokens(Rows(m.items)[r].it.s)
    requires PagesDone(model, cfg.blockSize, pages', Rows(m.items), model.layers)
    requires forall c, u :: (c, u) !in Slots(cfg.blockSize, Rows(m.items)) ==> Cell(pages', c, u) == Cell(pages, c, u)
    ensures SeqKV(model, cfg.blockSize, pages', m.items[i].s.table, m.items[i].s.gen.tokens, m.items[i].s.computed + m.items[i].n)
  {
    var it, bs := m.items[i], cfg.blockSize;
    var rows := Rows(m.items);
    assert ItemOk(cfg, m.pool, it);
    InPool(cfg, m, i);
    hide MidOk, ItemOk, Rows, LayerKV, At, Page, PagesShape, EntryAt;
    RunWithinItem(cfg, m.pool, it);
    forall q: nat | q < it.s.computed + it.n ensures At(bs, pages', it.s.table, q) == EntryAt(model, it.s.gen.tokens, q) {
      NewPositionPage(cfg, m.pool, it, q);
      if it.s.computed <= q {
        RowComesFrom(m.items, Row(it, q));
        var r :| 0 <= r < |rows| && rows[r] == Row(it, q);
        forall l: nat | l < model.layers ensures LayerKV(model, bs, pages', it.s, q, l) {
          assert LayerKV(model, bs, pages', rows[r].it.s, q, l);
        }
        AtHasLayers(cfg, model, pages', it.s.table, q);
        EntryLayer(model, bs, pages', it.s, q);
      } else {
        OldSlotStays(cfg, m, i, q);
        assert Seqs(m.items)[i] == it.s;
        assert SeqKV(model, bs, pages, it.s.table, it.s.gen.tokens, it.s.computed);
        AtIsCell(bs, pages, it.s.table, q);
        AtIsCell(bs, pages', it.s.table, q);
      }
    }
  }

  lemma {:induction false} RunWithinItem(cfg: Config, p: Pool, it: Item)
    requires cfg.blockSize > 0 && ItemOk(cfg, p, it)
    ensures it.s.computed + it.n <= NumTokens(it.s)
  {
  }

  lemma {:induction false} AtIsCell(bs: nat, pages: seq<PageData>, table: seq<Block>, q: nat)
    requires bs > 0
    ensures At(bs, pages, table, q) == Cell(pages, SlotAt(bs, table, q).0, SlotAt(bs, table, q).1)
  {
  }

  lemma {:induction false} OldSlotStays(cfg: Config, m: Mid, i: nat, q: nat)
    requires cfg.blockSize > 0 && MidOk(cfg, m) && m.todo == [] && i < |m.items| && q < m.items[i].s.computed
    ensures SlotAt(cfg.blockSize, m.items[i].s.table, q) !in Slots(cfg.blockSize, Rows(m.items))
  {
    var bs, rows := cfg.blockSize, Rows(m.items);
    var slot := SlotAt(bs, m.items[i].s.table, q);
    hide MidOk, SlotAt, Rows;
    forall t | 0 <= t < |rows| ensures Slots(bs, rows)[t] != slot {
      RowComesFrom(m.items, rows[t]);
      var j :| 0 <= j < |m.items| && rows[t].it == m.items[j] && m.items[j].s.computed <= rows[t].p < m.items[j].s.computed + m.items[j].n;
      if SlotAt(bs, m.items[j].s.table, rows[t].p) == slot {
        SlotsApart(cfg, m, i, q, j, rows[t].p);
      }
    }
  }

  /** Published pages are not written. */
  lemma {:induction false} CacheStays(cfg: Config, model: Model, pages: seq<PageData>, pages': seq<PageData>, m: Mid)
    requires cfg.blockSize > 0 && MidOk(cfg, m) && m.todo == [] && CacheKV(model, cfg.blockSize, pages, m.pool)
    requires forall c, u :: (c, u) !in Slots(cfg.blockSize, Rows(m.items)) ==> Cell(pages', c, u) == Cell(pages, c, u)
    ensures CacheKV(model, cfg.blockSize, pages', m.pool)
  {
    var bs, rows := cfg.blockSize, Rows(m.items);
    hide MidOk, Cell, Rows, HashOf, SlotAt, EntryAt;
    forall b: Block | HashOf(m.pool, b).Some? ensures HashKV(model, bs, pages', b, HashOf(m.pool, b).value) {
      forall o ensures (b, o) !in Slots(bs, rows) {
        forall t | 0 <= t < |rows| ensures Slots(bs, rows)[t] != (b, o) {
          WrittenUnpublished(cfg, m, rows[t]);
        }
      }
      assert HashKV(model, bs, pages, b, HashOf(m.pool, b).value);
    }
  }

  lemma {:induction false} WrittenUnpublished(cfg: Config, m: Mid, row: Row)
    requires cfg.blockSize > 0 && MidOk(cfg, m) && m.todo == [] && row in Rows(m.items)
    ensures HashOf(m.pool, SlotOf(cfg.blockSize, row).0) == None
  {
    RowComesFrom(m.items, row);
    var j :| 0 <= j < |m.items| && row.it == m.items[j] && m.items[j].s.computed <= row.p < m.items[j].s.computed + m.items[j].n;
    WritesArePrivate(cfg, m, j, row.p);
  }

  // --- the pass ------------------------------------------------------------------------------------------------

  /** The token sampled for each item whose chunk reaches its last token, read off that row. */
  function SampleFrom(m: Model, items: seq<Item>, hidden: seq<Hidden>): seq<Token>
    requires |hidden| == |Rows(items)|
  {
    if items == [] then []
    else
      var it := items[0];
      (if Samples(it) then [m.next(hidden[it.n - 1])] else []) + SampleFrom(m, items[1..], hidden[it.n..])
  }

  /** What lone runs would sample next. */
  function Expected(m: Model, items: seq<Item>): seq<Token> {
    if items == [] then []
    else
      (if Samples(items[0]) && items[0].s.gen.tokens != [] then [NextToken(m, items[0].s.gen.tokens)] else [])
      + Expected(m, items[1..])
  }

  lemma {:induction false} SamplesExpected(m: Model, items: seq<Item>, hidden: seq<Hidden>)
    requires |hidden| == |Rows(items)| && HiddenOk(m, Rows(items), hidden, m.layers)
    ensures SampleFrom(m, items, hidden) == Expected(m, items)
    ensures |Expected(m, items)| == NumSampled(items)
  {
    if items != [] {
      var it, tail := items[0], items[1..];
      RowsTail(m, items, hidden);
      SamplesExpected(m, tail, hidden[it.n..]);
      hide HiddenAt;
      if Samples(it) {
        assert Rows(items)[it.n - 1] == Row(it, it.s.computed + it.n - 1);
        assert hidden[it.n - 1] == HiddenAt(m, it.s.gen.tokens, it.s.computed + it.n - 1, m.layers);
      }
    }
  }

  lemma {:induction false} RowsTail(m: Model, items: seq<Item>, hidden: seq<Hidden>)
    requires items != [] && |hidden| == |Rows(items)| && HiddenOk(m, Rows(items), hidden, m.layers)
    ensures |Rows(items)| == items[0].n + |Rows(items[1..])|
    ensures HiddenOk(m, Rows(items[1..]), hidden[items[0].n..], m.layers)
  {
    hide HiddenAt;
    var rows, tail := Rows(items), Rows(items[1..]);
    forall r | 0 <= r < |tail| ensures rows[items[0].n + r] == tail[r] {
    }
  }

  /** A planned batch run on pages that represent its sequences: every position it schedules holds
      its K/V afterwards, published pages are untouched, and the sampled tokens are those of lone runs. */
  lemma {:induction false} PassOk(cfg: Config, model: Model, mem: Mem, m: Mid)
    requires cfg.blockSize > 0 && MidOk(cfg, m) && m.todo == [] && KvOk(cfg, model, mem, m)
    ensures var (pages, hidden) := Pass(model, cfg.blockSize, Rows(m.items), mem.gpu);
      && PagesShape(pages, cfg.numBlocks + 1, cfg.blockSize, model.layers)
      && Executed(cfg, model, pages, m.items)
      && CacheKV(model, cfg.blockSize, pages, m.pool)
      && |hidden| == |Rows(m.items)|
      && SampleFrom(model, m.items, hidden) == Expected(model, m.items)
      && |Expected(model, m.items)| == NumSampled(m.items)
  {
    hide MidOk, Rows, OnHost, OnDevice, CacheKV, PagesShape, RowsOk, HiddenOk, PagesDone, SeqKV, Layers, Cell,
      SampleFrom, Expected;
    var bs, rows, n := cfg.blockSize, Rows(m.items), cfg.numBlocks + 1;
    RowsAreOk(cfg, m);
    RowsInRange(bs, rows, n);
    EmbedOk(model, rows);
    BeforePass(cfg, model, mem.gpu, m);
    LayersOk(model, bs, rows, mem.gpu, Embedded(model, rows), 0, n);
    var (pages, hidden) := Pass(model, bs, rows, mem.gpu);
    forall i | 0 <= i < |m.items|
      ensures SeqKV(model, bs, pages, m.items[i].s.table, m.items[i].s.gen.tokens, m.items[i].s.computed + m.items[i].n)
    {
      AfterItem(cfg, model, mem.gpu, pages, m, i);
    }
    CacheStays(cfg, model, mem.gpu, pages, m);
    SamplesExpected(model, m.items, hidden);
  }
}
