// Index arithmetic of the flat batch: where rows start, which slot a position has, and that the two ways
// of naming a sequence's cached slots name the same ones in the same order.
module Layout {
  import opened Basics
  import opened Paging
  import opened BlockPool
  import opened Transformer
  import opened Scheduling
  import opened Forward
  import opened Execute

  /** The flat number of the slot a position is kept in: its page's first slot plus its offset in the page. */
  function SlotNumber(bs: nat, table: seq<Block>, p: nat): int
    requires bs > 0 && Page(bs, p) < |table|
  {
    table[Page(bs, p)] * bs + Offset(bs, p)
  }

  /** The table covers len positions. */
  predicate Covers(bs: nat, table: seq<Block>, len: nat)
    requires bs > 0
  {
    BlocksFor(bs, len) <= |table|
  }

  lemma {:induction false} CoveredPage(bs: nat, table: seq<Block>, len: nat, p: nat)
    requires bs > 0 && Covers(bs, table, len) && p < len
    ensures Page(bs, p) < |table|
  {
    PageInRange(bs, p, len);
  }

  /** Every cached slot of a sequence, in position order. */
  ghost function NaiveSlots(bs: nat, table: seq<Block>, len: nat): (r: seq<int>)
    requires bs > 0 && Covers(bs, table, len)
    ensures |r| == len && forall p: nat :: p < len ==> Page(bs, p) < |table| && r[p] == SlotNumber(bs, table, p)
  {
    assert forall p: nat {:trigger Page(bs, p)} :: p < len ==> Page(bs, p) < |table| by {
      forall p: nat | p < len {
        CoveredPage(bs, table, len, p);
      }
    }
    seq(len, p requires 0 <= p < len => SlotNumber(bs, table, p))
  }

  // --- the compressed form -----------------------------------------------------------------------------------------

  function PageSlots(bs: nat, b: Block, n: nat): (r: seq<int>)
    ensures |r| == n && forall o :: 0 <= o < n ==> r[o] == b * bs + o
  {
    seq(n, o requires 0 <= o => b * bs + o)
  }

  /** The slots that whole pages and the last page's length name. */
  function CsrSlots(bs: nat, pages: seq<Block>, last: nat): seq<int> {
    if pages == [] then []
    else if |pages| == 1 then PageSlots(bs, pages[0], last)
    else PageSlots(bs, pages[0], bs) + CsrSlots(bs, pages[1..], last)
  }

  lemma {:induction false} LastPage(bs: nat, pages: nat, len: nat)
    requires bs > 0 && len > 0 && pages == BlocksFor(bs, len)
    ensures pages >= 1 && 1 <= len - (pages - 1) * bs <= bs
  {
    BlocksForBounds(bs, len);
    BlocksForMono(bs, len, len);
    assert (pages - 1) * bs == pages * bs - bs;
  }

  lemma {:induction false} OnePageLess(bs: nat, len: nat)
    requires bs > 0 && len > bs
    ensures BlocksFor(bs, len - bs) == BlocksFor(bs, len) - 1
  {
    var k := BlocksFor(bs, len);
    BlocksForMono(bs, len, len);
    BlocksForBounds(bs, len);
    assert (k - 1) * bs == k * bs - bs && (k - 2) * bs == k * bs - 2 * bs;
    BlocksForLeast(bs, len - bs, k - 1);
    if k >= 2 {
      BlocksForLeast(bs, len - bs, k - 2);
    }
  }

  lemma {:induction false} NextPagePosition(bs: nat, p: nat)
    requires bs > 0
    ensures Page(bs, p + bs) == Page(bs, p) + 1 && Offset(bs, p + bs) == Offset(bs, p)
  {
    PageSplit(bs, p);
    PageOf(bs, Page(bs, p) + 1, Offset(bs, p));
    assert (Page(bs, p) + 1) * bs == Page(bs, p) * bs + bs;
  }

  /** The compressed form names the same slots in the same order, its last page holding 1 to bs tokens. */
  lemma {:induction false} CsrIsNaive(bs: nat, table: seq<Block>, len: nat)
    requires bs > 0 && len > 0 && |table| == BlocksFor(bs, len)
    ensures 1 <= len - (|table| - 1) * bs <= bs
    ensures CsrSlots(bs, table, len - (|table| - 1) * bs) == NaiveSlots(bs, table, len)
    decreases |table|
  {
    hide Page, Offset, BlocksFor, SlotNumber;
    LastPage(bs, |table|, len);
    var slots, last := NaiveSlots(bs, table, len), len - (|table| - 1) * bs;
    if |table| == 1 {
      forall o: nat | o < last ensures slots[o] == table[0] * bs + o {
        FirstPageSlot(bs, table, o);
      }
    } else {
      SeveralPages(bs, |table|, len);
      OnePageLess(bs, len);
      var rest := len - bs;
      CsrIsNaive(bs, table[1..], rest);
      var first, later := PageSlots(bs, table[0], bs), NaiveSlots(bs, table[1..], rest);
      forall p: nat | p < len ensures slots[p] == (first + later)[p] {
        if p < bs {
          FirstPageSlot(bs, table, p);
        } else {
          LaterPageSlot(bs, table, p);
        }
      }
      assert slots == first + later;
    }
  }

  lemma {:induction false} FirstPageSlot(bs: nat, table: seq<Block>, p: nat)
    requires p < bs && table != []
    ensures Page(bs, p) < |table| && SlotNumber(bs, table, p) == table[0] * bs + p
  {
    PageOf(bs, 0, p);
  }

  lemma {:induction false} LaterPageSlot(bs: nat, table: seq<Block>, p: nat)
    requires 0 < bs <= p && table != [] && (Page(bs, p) < |table| || Page(bs, p - bs) < |table[1..]|)
    ensures Page(bs, p) < |table| && Page(bs, p - bs) < |table[1..]| && SlotNumber(bs, table, p) == SlotNumber(bs, table[1..], p - bs)
  {
    NextPagePosition(bs, p - bs);
    hide Page, Offset;
    assert table[1..][Page(bs, p - bs)] == table[Page(bs, p)];
  }

  lemma {:induction false} SeveralPages(bs: nat, pages: nat, len: nat)
    requires bs > 0 && pages == BlocksFor(bs, len) && pages >= 2
    ensures len > bs && len - bs - (pages - 2) * bs == len - (pages - 1) * bs
  {
    BlocksForLeast(bs, len, 1);
    assert (pages - 1) * bs == (pages - 2) * bs + bs;
  }

  // --- rows ------------------------------------------------------------------------------------------------------------

  /** Where item i's rows start in the flat batch. */
  function RowStart(items: seq<Item>, i: nat): nat
    requires i <= |items|
  {
    if i == 0 then 0 else RowStart(items, i - 1) + items[i - 1].n
  }

  lemma {:induction false} RowStartTail(items: seq<Item>, i: nat)
    requires 1 <= i <= |items|
    ensures RowStart(items, i) == items[0].n + RowStart(items[1..], i - 1)
  {
    if i > 1 {
      RowStartTail(items, i - 1);
    }
  }

  /** Item i's rows stand at its start, one for each of its new positions in order. */
  lemma {:induction false} RowsAt(items: seq<Item>, i: nat, j: nat)
    requires i < |items| && j < items[i].n
    ensures RowStart(items, i) + j < |Rows(items)|
    ensures Rows(items)[RowStart(items, i) + j] == Row(items[i], items[i].s.computed + j)
    decreases |items|
  {
    if i > 0 {
      RowStartTail(items, i);
      RowsAt(items[1..], i - 1, j);
    }
  }

  lemma {:induction false} RowsTotal(items: seq<Item>)
    ensures |Rows(items)| == RowStart(items, |items|)
    decreases |items|
  {
    if items != [] {
      RowsTotal(items[1..]);
      RowStartTail(items, |items|);
    }
  }

  /** Every row belongs to an item. */
  lemma {:induction false} RowOfItem(items: seq<Item>, r: nat) returns (i: nat, j: nat)
    requires r < |Rows(items)|
    ensures i < |items| && j < items[i].n && r == RowStart(items, i) + j
    decreases |items|
  {
    if r < items[0].n {
      i, j := 0, r;
    } else {
      i, j := RowOfItem(items[1..], r - items[0].n);
      i := i + 1;
      RowStartTail(items, i);
    }
  }

  /** The rows of the flat batch whose activations are sampled: each sampling item's last. */
  function LogitsIndices(items: seq<Item>, i: nat): seq<nat>
    requires i <= |items|
  {
    if i == 0 then []
    else LogitsIndices(items, i - 1) + LastRow(items, i)
  }

  /** Item i - 1's last row, if it samples. */
  function LastRow(items: seq<Item>, i: nat): (r: seq<nat>)
    requires 1 <= i <= |items|
    ensures |r| <= 1 && (r != [] ==> r[0] == RowStart(items, i) - 1 && RowStart(items, i - 1) < RowStart(items, i))
  {
    if Samples(items[i - 1]) then [RowStart(items, i) - 1] else []
  }

  /** Shifting the logits rows by the first item's. */
  lemma {:induction false} LogitsTail(items: seq<Item>, i: nat)
    requires 1 <= i <= |items|
    ensures LogitsIndices(items, i) == LastRow(items, 1) + Shifted(LogitsIndices(items[1..], i - 1), items[0].n)
    decreases i
  {
    hide LastRow;
    if i == 1 {
      NoLogits(items);
      NoLogits(items[1..]);
      assert [] + LastRow(items, 1) == LastRow(items, 1) + [];
    } else {
      LogitsTail(items, i - 1);
      LastRowTail(items, i);
      var a, b := LogitsIndices(items[1..], i - 2), LastRow(items[1..], i - 1);
      LogitsStep(items, i);
      LogitsStep(items[1..], i - 1);
      hide LogitsIndices;
      ShiftedConcat(a, b, items[0].n);
      var first, x, y := LastRow(items, 1), Shifted(a, items[0].n), Shifted(b, items[0].n);
      assert (first + x) + y == first + (x + y);
    }
  }

  lemma {:induction false} LogitsStep(items: seq<Item>, i: nat)
    requires 1 <= i <= |items|
    ensures LogitsIndices(items, i) == LogitsIndices(items, i - 1) + LastRow(items, i)
  {
    hide LastRow;
  }

  lemma {:induction false} LastRowTail(items: seq<Item>, i: nat)
    requires 2 <= i <= |items|
    ensures LastRow(items, i) == Shifted(LastRow(items[1..], i - 1), items[0].n)
  {
    RowStartTail(items, i);
    assert items[1..][i - 2] == items[i - 1];
  }

  lemma {:induction false} ShiftedConcat(a: seq<nat>, b: seq<nat>, d: nat)
    ensures Shifted(a + b, d) == Shifted(a, d) + Shifted(b, d)
  {
  }

  function Shifted(ks: seq<nat>, d: nat): (r: seq<nat>)
    ensures |r| == |ks| && forall k :: 0 <= k < |ks| ==> r[k] == ks[k] + d
  {
    seq(|ks|, k requires 0 <= k < |ks| => ks[k] + d)
  }

  lemma {:induction false} LogitsBelow(items: seq<Item>, i: nat)
    requires i <= |items|
    ensures forall k :: 0 <= k < |LogitsIndices(items, i)| ==> LogitsIndices(items, i)[k] < RowStart(items, i)
  {
    hide Samples, LastRow;
    if i > 0 {
      LogitsBelow(items, i - 1);
    }
  }

  /** The activations of some rows, each turned into a token. */
  function Picked(m: Model, hidden: seq<Hidden>, rows: seq<nat>): (r: seq<Token>)
    requires forall k :: 0 <= k < |rows| ==> rows[k] < |hidden|
    ensures |r| == |rows| && forall k :: 0 <= k < |rows| ==> r[k] == m.next(hidden[rows[k]])
  {
    seq(|rows|, k requires 0 <= k < |rows| => m.next(hidden[rows[k]]))
  }

  /** Sampling reads exactly the activations that the logits indices select. */
  lemma {:induction false} SampledRows(m: Model, items: seq<Item>, hidden: seq<Hidden>)
    requires |hidden| == |Rows(items)|
    ensures forall k :: 0 <= k < |LogitsIndices(items, |items|)| ==> LogitsIndices(items, |items|)[k] < |hidden|
    ensures SampleFrom(m, items, hidden) == Picked(m, hidden, LogitsIndices(items, |items|))
    decreases |items|
  {
    hide Samples, LogitsIndices, RowStart, LastRow;
    LogitsBelow(items, |items|);
    RowsTotal(items);
    if items == [] {
      NoLogits(items);
    } else {
      var tail, n := items[1..], items[0].n;
      assert Rows(items) == RowsOf(items[0]) + Rows(tail);
      SampledRows(m, tail, hidden[n..]);
      LogitsTail(items, |items|);
      FirstLogit(items);
      hide Rows;
      var later := LogitsIndices(tail, |tail|);
      PickedShifted(m, hidden, later, n);
      SampleNeedsRow(items[0]);
    }
  }

  lemma {:induction false} NoLogits(items: seq<Item>)
    ensures LogitsIndices(items, 0) == []
  {
  }

  lemma {:induction false} FirstLogit(items: seq<Item>)
    requires items != []
    ensures LastRow(items, 1) == if Samples(items[0]) then [items[0].n - 1] else []
  {
    assert RowStart(items, 1) == items[0].n;
  }

  lemma {:induction false} SampleNeedsRow(it: Item)
    ensures Samples(it) ==> it.n > 0
  {
  }

  lemma {:induction false} PickedShifted(m: Model, hidden: seq<Hidden>, rows: seq<nat>, d: nat)
    requires d <= |hidden| && forall k :: 0 <= k < |rows| ==> rows[k] < |hidden| - d
    ensures forall k :: 0 <= k < |rows| ==> Shifted(rows, d)[k] < |hidden|
    ensures Picked(m, hidden[d..], rows) == Picked(m, hidden, Shifted(rows, d))
  {
  }

  // --- the mask --------------------------------------------------------------------------------------------------------

  /** What causal_attention lets query row i of tq see of tk keys. */
  predicate Sees(tq: nat, tk: nat, i: nat, j: nat) {
    j < tk && (tq > 1 ==> j <= i + (tk - tq))
  }

  /** However a prefill is cut into chunks, the query at position p sees exactly the keys 0..p. */
  lemma {:induction false} ChunkSees(start: nat, tq: nat, p: nat, j: nat)
    requires start <= p < start + tq
    ensures Sees(tq, start + tq, p - start, j) <==> j <= p
  {
  }
}
