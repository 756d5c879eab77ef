// One forward pass over a flat batch: layer by layer, every row's new K/V is scattered into its
// slot, then each row attends over the pages of its own sequence up to its own position.
module Forward {
  import opened Basics
  import opened Paging
  import opened BlockPool
  import opened Transformer
  import opened Streaming
  import opened Scheduling
  import opened Memory

  /** One token of the flat batch: position p of the item's sequence. */
  datatype Row = Row(it: Item, p: nat)

  function RowsOf(it: Item): (r: seq<Row>)
    ensures |r| == it.n && forall j :: 0 <= j < it.n ==> r[j] == Row(it, it.s.computed + j)
  {
    seq(it.n, j requires 0 <= j => Row(it, it.s.computed + j))
  }

  /** The batch flattened in order; skipped sequences contribute no row. */
  function Rows(items: seq<Item>): seq<Row> {
    if items == [] then [] else RowsOf(items[0]) + Rows(items[1..])
  }

  /** Where a row's K/V is written, as page and offset. */
  function SlotOf(bs: nat, row: Row): (Block, int)
    requires bs > 0
  {
    SlotAt(bs, row.it.s.table, row.p)
  }

  function SlotAt(bs: nat, table: seq<Block>, p: nat): (Block, int)
    requires bs > 0
  {
    if Page(bs, p) < |table| then (table[Page(bs, p)], Offset(bs, p)) else (-1, 0)
  }

  function LayerOf(e: Entry, l: nat): seq<KV> {
    if l < |e| then [e[l]] else []
  }

  function PutKV(pages: seq<PageData>, b: Block, o: int, l: nat, kv: KV): seq<PageData> {
    if 0 <= b < |pages| && 0 <= o < |pages[b]| then pages[b := pages[b][o := SetAt(pages[b][o], l, kv)]] else pages
  }

  /** Scatter one layer's K/V into the slots, in row order. */
  function Scatter(pages: seq<PageData>, slots: seq<(Block, int)>, kvs: seq<KV>, l: nat): seq<PageData>
    requires |slots| == |kvs|
  {
    if slots == [] then pages
    else
      var last := |slots| - 1;
      PutKV(Scatter(pages, slots[..last], kvs[..last], l), slots[last].0, slots[last].1, l, kvs[last])
  }

  function Slots(bs: nat, rows: seq<Row>): (r: seq<(Block, int)>)
    requires bs > 0
    ensures |r| == |rows| && forall i :: 0 <= i < |rows| ==> r[i] == SlotOf(bs, rows[i])
  {
    seq(|rows|, i requires 0 <= i < |rows| => SlotOf(bs, rows[i]))
  }

  /** One layer's K/V of the first `len` positions of a table, in position order. */
  function GatherLayer(bs: nat, pages: seq<PageData>, table: seq<Block>, len: nat, l: nat): seq<KV>
    requires bs > 0
  {
    if len == 0 then [] else GatherLayer(bs, pages, table, len - 1, l) + LayerOf(At(bs, pages, table, len - 1), l)
  }

  function TokenAt(s: Seq, p: nat): Token {
    if p < NumTokens(s) then s.gen.tokens[p] else 0
  }

  function Embedded(m: Model, rows: seq<Row>): (r: seq<Hidden>)
    ensures |r| == |rows|
    ensures forall i :: 0 <= i < |rows| ==> r[i] == m.embed(TokenAt(rows[i].it.s, rows[i].p), rows[i].p)
  {
    seq(|rows|, i requires 0 <= i < |rows| => m.embed(TokenAt(rows[i].it.s, rows[i].p), rows[i].p))
  }

  function Projected(m: Model, hidden: seq<Hidden>, l: nat): (r: seq<KV>)
    ensures |r| == |hidden| && forall i :: 0 <= i < |hidden| ==> r[i] == m.project(l, hidden[i])
  {
    seq(|hidden|, i requires 0 <= i < |hidden| => m.project(l, hidden[i]))
  }

  function Attended(m: Model, bs: nat, pages: seq<PageData>, rows: seq<Row>, hidden: seq<Hidden>, l: nat): (r: seq<Hidden>)
    requires bs > 0 && |hidden| == |rows|
    ensures |r| == |rows|
    ensures forall i :: 0 <= i < |rows| ==>
      r[i] == m.attend(l, hidden[i], GatherLayer(bs, pages, rows[i].it.s.table, rows[i].p + 1, l))
  {
    seq(|rows|, i requires 0 <= i < |rows| =>
      m.attend(l, hidden[i], GatherLayer(bs, pages, rows[i].it.s.table, rows[i].p + 1, l)))
  }

  /** Layers l .. m.layers of the forward pass. */
  function Layers(m: Model, bs: nat, rows: seq<Row>, pages: seq<PageData>, hidden: seq<Hidden>,
                  l: nat): (r: (seq<PageData>, seq<Hidden>))
    requires bs > 0 && |hidden| == |rows|
    ensures |r.1| == |rows|
    decreases m.layers - l
  {
    if m.layers <= l then (pages, hidden)
    else
      var pages1 := Scatter(pages, Slots(bs, rows), Projected(m, hidden, l), l);
      Layers(m, bs, rows, pages1, Attended(m, bs, pages1, rows, hidden, l), l + 1)
  }

  /** The whole pass: the pages it leaves and the final activations of every row. */
  function Pass(m: Model, bs: nat, rows: seq<Row>, pages: seq<PageData>): (r: (seq<PageData>, seq<Hidden>))
    requires bs > 0
    ensures |r.1| == |rows|
  {
    Layers(m, bs, rows, pages, Embedded(m, rows), 0)
  }

  // --- scattering ----------------------------------------------------------------------------------------------

  ghost predicate InPages(pages: seq<PageData>, slot: (Block, int)) {
    0 <= slot.0 < |pages| && 0 <= slot.1 < |pages[slot.0]|
  }

  lemma {:induction false} PutKVCells(pages: seq<PageData>, b: Block, o: int, l: nat, kv: KV)
    requires InPages(pages, (b, o)) && l < |pages[b][o]|
    ensures var r := PutKV(pages, b, o, l, kv);
      && |r| == |pages| && (forall c :: 0 <= c < |pages| ==> |r[c]| == |pages[c]|)
      && Cell(r, b, o) == Cell(pages, b, o)[l := kv]
      && (forall c, u :: (c, u) != (b, o) ==> Cell(r, c, u) == Cell(pages, c, u))
  {
  }

  /** With distinct slots, each slot's layer l becomes its row's K/V; nothing else changes. */
  lemma {:induction false} ScatterOk(pages: seq<PageData>, slots: seq<(Block, int)>, kvs: seq<KV>, l: nat, n: nat,
                                     bs: nat, layers: nat)
    requires |slots| == |kvs| && l < layers && PagesShape(pages, n, bs, layers)
    requires Distinct(slots) && forall i :: 0 <= i < |slots| ==> 0 <= slots[i].0 < n && 0 <= slots[i].1 < bs
    ensures var r := Scatter(pages, slots, kvs, l);
      && PagesShape(r, n, bs, layers)
      && (forall i :: 0 <= i < |slots| ==>
            Cell(r, slots[i].0, slots[i].1) == SetAt(Cell(pages, slots[i].0, slots[i].1), l, kvs[i]))
      && (forall c, u :: (c, u) !in slots ==> Cell(r, c, u) == Cell(pages, c, u))
    decreases |slots|
  {
    if slots != [] {
      var last := |slots| - 1;
      var before := slots[..last];
      ScatterOk(pages, before, kvs[..last], l, n, bs, layers);
      var r1 := Scatter(pages, before, kvs[..last], l);
      var (b, o) := slots[last];
      assert (b, o) !in before;
      PutKVCells(r1, b, o, l, kvs[last]);
      PutKVShape(r1, b, o, l, kvs[last], n, bs, layers);
      hide PutKV, Cell, PagesShape, Distinct, InPages;
      var r := PutKV(r1, b, o, l, kvs[last]);
      forall i | 0 <= i < |slots|
        ensures Cell(r, slots[i].0, slots[i].1) == SetAt(Cell(pages, slots[i].0, slots[i].1), l, kvs[i])
      {
        if i < last {
          assert before[i] == slots[i] && kvs[..last][i] == kvs[i];
          assert slots[i] in before;
        }
      }
      forall c, u | (c, u) !in slots ensures Cell(r, c, u) == Cell(pages, c, u) {
        assert (c, u) !in before && (c, u) != slots[last];
      }
    }
  }

  lemma {:induction false} PutKVShape(pages: seq<PageData>, b: Block, o: int, l: nat, kv: KV, n: nat, bs: nat, layers: nat)
    requires PagesShape(pages, n, bs, layers) && 0 <= b < n && 0 <= o < bs
    ensures PagesShape(PutKV(pages, b, o, l, kv), n, bs, layers)
  {
  }

  // --- the pass computes what the reference computes ---------------------------------------------------------

  /** What the rows of a batch need: in range, complete from each sequence's first new position, and
      written nowhere that any row reads, except its own position. */
  ghost predicate RowsOk(bs: nat, rows: seq<Row>, n: nat)
    requires bs > 0
  {
    && (forall r :: 0 <= r < |rows| ==> RowInRange(bs, rows[r], n))
    && (forall r, q: nat :: 0 <= r < |rows| && rows[r].it.s.computed <= q <= rows[r].p ==> Row(rows[r].it, q) in rows)
    && (forall r, q: nat, t ::
          (0 <= r < |rows| && 0 <= t < |rows| && q <= rows[r].p && SlotAt(bs, rows[r].it.s.table, q) == SlotOf(bs, rows[t]))
          ==> rows[t] == Row(rows[r].it, q))
    && Distinct(rows)
  }

  ghost predicate RowInRange(bs: nat, row: Row, n: nat)
    requires bs > 0
  {
    && row.it.s.computed <= row.p < NumTokens(row.it.s)
    && (forall q: nat :: q <= row.p ==> 0 <= SlotAt(bs, row.it.s.table, q).0 < n && Page(bs, q) < |row.it.s.table|)
  }

  /** Activations entering layer l are the reference's. */
  ghost predicate HiddenOk(m: Model, rows: seq<Row>, hidden: seq<Hidden>, l: nat)
    requires |hidden| == |rows|
  {
    forall r :: 0 <= r < |rows| ==>
      rows[r].p < NumTokens(rows[r].it.s) && hidden[r] == HiddenAt(m, rows[r].it.s.gen.tokens, rows[r].p, l)
  }

  /** In layer l, the slot of position q holds the reference's K/V. */
  ghost predicate LayerKV(m: Model, bs: nat, pages: seq<PageData>, s: Seq, q: nat, l: nat)
    requires bs > 0 && q < NumTokens(s)
  {
    LayerOf(At(bs, pages, s.table, q), l) == [KVAt(m, s.gen.tokens, q, l)]
  }

  /** Old positions hold every layer, new ones the layers done. */
  ghost predicate PagesDone(m: Model, bs: nat, pages: seq<PageData>, rows: seq<Row>, done: nat)
    requires bs > 0
    requires forall r :: 0 <= r < |rows| ==> rows[r].p < NumTokens(rows[r].it.s)
  {
    forall r, q: nat, l: nat ::
      (0 <= r < |rows| && q <= rows[r].p && l < m.layers && (q < rows[r].it.s.computed || l < done))
      ==> LayerKV(m, bs, pages, rows[r].it.s, q, l)
  }

  lemma {:induction false} RowsInRange(bs: nat, rows: seq<Row>, n: nat)
    requires bs > 0 && RowsOk(bs, rows, n)
    ensures forall r :: 0 <= r < |rows| ==> rows[r].it.s.computed <= rows[r].p < NumTokens(rows[r].it.s)
  {
    forall r | 0 <= r < |rows| ensures rows[r].it.s.computed <= rows[r].p < NumTokens(rows[r].it.s) {
      assert RowInRange(bs, rows[r], n);
    }
  }

  lemma {:induction false} SlotsDistinct(bs: nat, rows: seq<Row>, n: nat)
    requires bs > 0 && RowsOk(bs, rows, n)
    ensures Distinct(Slots(bs, rows))
    ensures forall i :: 0 <= i < |rows| ==> 0 <= Slots(bs, rows)[i].0 < n && 0 <= Slots(bs, rows)[i].1 < bs
  {
    forall i | 0 <= i < |rows| ensures 0 <= Slots(bs, rows)[i].0 < n && 0 <= Slots(bs, rows)[i].1 < bs {
      assert RowInRange(bs, rows[i], n);
      var p := rows[i].p;
      assert 0 <= SlotAt(bs, rows[i].it.s.table, p).0 < n;
    }
    forall i, j | 0 <= i < j < |rows| ensures Slots(bs, rows)[i] != Slots(bs, rows)[j] {
      var q := rows[i].p;
      assert SlotAt(bs, rows[i].it.s.table, q) == SlotOf(bs, rows[i]);
      assert rows[i] == Row(rows[i].it, q);
    }
  }

  /** The slots' layer l holds the new K/V; nothing else changed. */
  ghost predicate ScatterEffect(pages: seq<PageData>, pages1: seq<PageData>, slots: seq<(Block, int)>, kvs: seq<KV>, l: nat)
    requires |slots| == |kvs|
  {
    && (forall i :: 0 <= i < |slots| ==>
          Cell(pages1, slots[i].0, slots[i].1) == SetAt(Cell(pages, slots[i].0, slots[i].1), l, kvs[i]))
    && (forall c, u :: (c, u) !in slots ==> Cell(pages1, c, u) == Cell(pages, c, u))
  }

  /** Scattering layer l makes it right for the new positions and leaves the rest. */
  lemma {:induction false} ScatterLayerOk(m: Model, bs: nat, rows: seq<Row>, pages: seq<PageData>,
                                          hidden: seq<Hidden>, l: nat, n: nat)
    requires bs > 0 && |hidden| == |rows| && l < m.layers && RowsOk(bs, rows, n) && PagesShape(pages, n, bs, m.layers)
    requires forall r :: 0 <= r < |rows| ==> rows[r].it.s.computed <= rows[r].p < NumTokens(rows[r].it.s)
    requires HiddenOk(m, rows, hidden, l) && PagesDone(m, bs, pages, rows, l)
    ensures var pages1 := Scatter(pages, Slots(bs, rows), Projected(m, hidden, l), l);
      PagesShape(pages1, n, bs, m.layers) && PagesDone(m, bs, pages1, rows, l + 1)
  {
    hide Scatter, Cell, Distinct, RowsOk, PagesShape, HiddenOk, LayerKV;
    var slots, kvs := Slots(bs, rows), Projected(m, hidden, l);
    SlotsDistinct(bs, rows, n);
    ScatterOk(pages, slots, kvs, l, n, bs, m.layers);
    var pages1 := Scatter(pages, slots, kvs, l);
    forall r, q: nat, k: nat | 0 <= r < |rows| && q <= rows[r].p && k < m.layers && (q < rows[r].it.s.computed || k < l + 1)
      ensures LayerKV(m, bs, pages1, rows[r].it.s, q, k)
    {
      if q < rows[r].it.s.computed {
        OldStays(m, bs, rows, pages, pages1, kvs, l, n, r, q, k);
      } else {
        NewWritten(m, bs, rows, pages, pages1, hidden, l, n, r, q, k);
      }
    }
  }

  /** No row writes a position computed before. */
  lemma {:induction false} OldStays(m: Model, bs: nat, rows: seq<Row>, pages: seq<PageData>, pages1: seq<PageData>,
                                    kvs: seq<KV>, l: nat, n: nat, r: int, q: nat, k: nat)
    requires bs > 0 && |kvs| == |rows| && RowsOk(bs, rows, n)
    requires ScatterEffect(pages, pages1, Slots(bs, rows), kvs, l)
    requires 0 <= r < |rows| && q <= rows[r].p && q < rows[r].it.s.computed && q < NumTokens(rows[r].it.s)
    requires LayerKV(m, bs, pages, rows[r].it.s, q, k)
    ensures LayerKV(m, bs, pages1, rows[r].it.s, q, k)
  {
    hide Cell, Distinct, Page, Offset, KVAt;
    var s := rows[r].it.s;
    var slot := SlotAt(bs, s.table, q);
    forall t | 0 <= t < |rows| ensures Slots(bs, rows)[t] != slot {
      assert RowInRange(bs, rows[t], n);
    }
    assert RowInRange(bs, rows[r], n);
  }

  lemma {:induction false} NewWritten(m: Model, bs: nat, rows: seq<Row>, pages: seq<PageData>, pages1: seq<PageData>,
                                      hidden: seq<Hidden>, l: nat, n: nat, r: int, q: nat, k: nat)
    requires bs > 0 && |hidden| == |rows| && l < m.layers && RowsOk(bs, rows, n) && PagesShape(pages, n, bs, m.layers)
    requires HiddenOk(m, rows, hidden, l)
    requires ScatterEffect(pages, pages1, Slots(bs, rows), Projected(m, hidden, l), l)
    requires 0 <= r < |rows| && rows[r].it.s.computed <= q <= rows[r].p && q < NumTokens(rows[r].it.s) && k <= l
    requires k < l ==> LayerKV(m, bs, pages, rows[r].it.s, q, k)
    ensures LayerKV(m, bs, pages1, rows[r].it.s, q, k)
  {
    hide Distinct, Page, Offset, HiddenAt;
    var s := rows[r].it.s;
    assert Row(rows[r].it, q) in rows;
    var t :| 0 <= t < |rows| && rows[t] == Row(rows[r].it, q);
    assert RowInRange(bs, rows[r], n) && RowInRange(bs, rows[t], n);
    var slot := SlotAt(bs, s.table, q);
    assert Slots(bs, rows)[t] == slot;
    assert |Cell(pages, slot.0, slot.1)| == m.layers;
    assert hidden[t] == HiddenAt(m, s.gen.tokens, q, l);
  }

  /** Gathering a layer that is right gives the reference's visible K/V. */
  lemma {:induction false} GatherOk(m: Model, bs: nat, pages: seq<PageData>, s: Seq, p: nat, len: nat, l: nat)
    requires bs > 0 && p < NumTokens(s) && len <= p + 1
    requires forall q: nat :: q <= p ==> LayerKV(m, bs, pages, s, q, l)
    ensures GatherLayer(bs, pages, s.table, len, l) == VisibleKV(m, s.gen.tokens, p, l)[..len]
  {
    if len > 0 {
      GatherOk(m, bs, pages, s, p, len - 1, l);
      assert LayerKV(m, bs, pages, s, len - 1, l);
      var v := VisibleKV(m, s.gen.tokens, p, l);
      assert v[..len] == v[..len - 1] + [v[len - 1]];
    }
  }

  lemma {:induction false} AttendOk(m: Model, bs: nat, rows: seq<Row>, pages: seq<PageData>, hidden: seq<Hidden>, l: nat)
    requires bs > 0 && |hidden| == |rows| && l < m.layers
    requires forall r :: 0 <= r < |rows| ==> rows[r].it.s.computed <= rows[r].p < NumTokens(rows[r].it.s)
    requires HiddenOk(m, rows, hidden, l) && PagesDone(m, bs, pages, rows, l + 1)
    ensures HiddenOk(m, rows, Attended(m, bs, pages, rows, hidden, l), l + 1)
  {
    var out := Attended(m, bs, pages, rows, hidden, l);
    forall r | 0 <= r < |rows| ensures out[r] == HiddenAt(m, rows[r].it.s.gen.tokens, rows[r].p, l + 1) {
      var s, p := rows[r].it.s, rows[r].p;
      forall q: nat | q <= p ensures LayerKV(m, bs, pages, s, q, l) {
      }
      GatherOk(m, bs, pages, s, p, p + 1, l);
      var v := VisibleKV(m, s.gen.tokens, p, l);
      assert v[..p + 1] == v;
    }
  }

  /** Layer by layer, the pass computes the reference's activations and K/V, and writes only its rows' slots. */
  lemma {:induction false} LayersOk(m: Model, bs: nat, rows: seq<Row>, pages: seq<PageData>, hidden: seq<Hidden>, l: nat, n: nat)
    requires bs > 0 && |hidden| == |rows| && l <= m.layers && RowsOk(bs, rows, n) && PagesShape(pages, n, bs, m.layers)
    requires forall r :: 0 <= r < |rows| ==> rows[r].it.s.computed <= rows[r].p < NumTokens(rows[r].it.s)
    requires HiddenOk(m, rows, hidden, l) && PagesDone(m, bs, pages, rows, l)
    ensures var (pages', hidden') := Layers(m, bs, rows, pages, hidden, l);
      && PagesShape(pages', n, bs, m.layers) && |hidden'| == |rows|
      && HiddenOk(m, rows, hidden', m.layers) && PagesDone(m, bs, pages', rows, m.layers)
      && (forall c, u :: (c, u) !in Slots(bs, rows) ==> Cell(pages', c, u) == Cell(pages, c, u))
    decreases m.layers - l
  {
    hide RowsOk, PagesShape, HiddenOk, PagesDone, Scatter, Cell;
    if l < m.layers {
      var pages1 := Scatter(pages, Slots(bs, rows), Projected(m, hidden, l), l);
      ScatterLayerOk(m, bs, rows, pages, hidden, l, n);
      SlotsDistinct(bs, rows, n);
      ScatterOk(pages, Slots(bs, rows), Projected(m, hidden, l), l, n, bs, m.layers);
      AttendOk(m, bs, rows, pages1, hidden, l);
      LayersOk(m, bs, rows, pages1, Attended(m, bs, pages1, rows, hidden, l), l + 1, n);
    }
  }

  lemma {:induction false} EmbedOk(m: Model, rows: seq<Row>)
    requires forall r :: 0 <= r < |rows| ==> rows[r].p < NumTokens(rows[r].it.s)
    ensures HiddenOk(m, rows, Embedded(m, rows), 0)
  {
  }
}
