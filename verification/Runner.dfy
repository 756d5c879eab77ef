// The runner's array code: a batch laid out flat, swaps, and paged attention over cache slots layer by layer,
// proved to do what the forward pass on pages says.
module Runner {
  import opened Basics
  import opened Paging
  import opened BlockPool
  import opened Streaming
  import opened Scheduling
  import opened Forward
  import opened EngineRun
  import opened Layout
  import opened Sequences
  import opened Mirrors

  // --- what the runner reads ---------------------------------------------------------------------------------------

  /** An item whose tokens and pages are there for all it computes. */
  ghost predicate Ready(bs: nat, pages: nat, it: Item)
    requires bs > 0
  {
    && it.s.computed + it.n <= NumTokens(it.s) && Covers(bs, it.s.table, it.s.computed + it.n)
    && forall k :: 0 <= k < |it.s.table| ==> 0 <= it.s.table[k] < pages
  }

  ghost predicate AllReady(bs: nat, pages: nat, items: seq<Item>)
    requires bs > 0
  {
    forall i :: 0 <= i < |items| ==> Ready(bs, pages, items[i])
  }

  // --- slots -----------------------------------------------------------------------------------------------------------

  /** A position's slot names its page and offset. */
  lemma {:induction false} SlotParts(bs: nat, pages: nat, table: seq<Block>, len: nat, p: nat)
    requires bs > 0 && Covers(bs, table, len) && p < len && forall k :: 0 <= k < |table| ==> 0 <= table[k] < pages
    ensures Page(bs, p) < |table| && SlotNumber(bs, table, p) >= 0
    ensures var slot := SlotNumber(bs, table, p);
      slot / bs == table[Page(bs, p)] < pages && slot % bs == Offset(bs, p) && (slot / bs, slot % bs) == SlotAt(bs, table, p)
  {
    CoveredPage(bs, table, len, p);
    PageOf(bs, table[Page(bs, p)], Offset(bs, p));
  }

  /** Only the pages that cover the length matter. */
  lemma {:induction false} TrimmedTable(bs: nat, table: seq<Block>, len: nat)
    requires bs > 0 && Covers(bs, table, len)
    ensures 0 <= BlocksFor(bs, len) <= |table| && Covers(bs, table[..BlocksFor(bs, len)], len)
    ensures NaiveSlots(bs, table[..BlocksFor(bs, len)], len) == NaiveSlots(bs, table, len)
  {
    BlocksForBounds(bs, len);
    var k := BlocksFor(bs, len);
    hide BlocksFor, Page, Offset;
    forall p: nat | p < len ensures NaiveSlots(bs, table[..k], len)[p] == NaiveSlots(bs, table, len)[p] {
      CoveredPage(bs, table[..k], len, p);
    }
  }

  /** The slots of a whole number of pages, in order. */
  lemma {:induction false} WholePages(bs: nat, table: seq<Block>, k: nat)
    requires bs > 0 && k < |table|
    ensures 0 <= k * bs && Covers(bs, table[..k], k * bs) && Covers(bs, table[..k + 1], (k + 1) * bs) && (k + 1) * bs == k * bs + bs
    ensures NaiveSlots(bs, table[..k + 1], (k + 1) * bs) == NaiveSlots(bs, table[..k], k * bs) + PageSlots(bs, table[k], bs)
  {
    BlocksForWhole(bs, k);
    BlocksForWhole(bs, k + 1);
    hide BlocksFor;
    var all, first := NaiveSlots(bs, table[..k + 1], (k + 1) * bs), NaiveSlots(bs, table[..k], k * bs);
    assert |all| == |first| + bs;
    forall p: nat | p < (k + 1) * bs ensures all[p] == (first + PageSlots(bs, table[k], bs))[p] {
      PagePosition(bs, table, k, p);
    }
  }

  lemma {:induction false} PagePosition(bs: nat, table: seq<Block>, k: nat, p: nat)
    requires bs > 0 && k < |table| && p < k * bs + bs
    ensures Page(bs, p) <= k
    ensures p < k * bs ==> Page(bs, p) < k && SlotNumber(bs, table[..k + 1], p) == SlotNumber(bs, table[..k], p)
    ensures k * bs <= p ==> SlotNumber(bs, table[..k + 1], p) == table[k] * bs + (p - k * bs)
  {
    if p < k * bs {
      WithinPages(bs, k, p);
    } else {
      PageOf(bs, k, p - k * bs);
    }
  }

  /** Every cached slot of one sequence: its pages written out, cut at its length. */
  method TableSlots(bs: nat, pages: nat, table: seq<Block>, len: nat) returns (slots: seq<nat>)
    requires bs > 0 && |table| == BlocksFor(bs, len) && Covers(bs, table, len) && forall k :: 0 <= k < |table| ==> 0 <= table[k] < pages
    ensures slots == NaiveSlots(bs, table, len)
  {
    hide Page, Offset;
    BlocksForBounds(bs, len);
    BlocksForWhole(bs, 0);
    var whole: seq<nat> := [];
    var k: nat := 0;
    while k < |table|
      invariant k <= |table| && Covers(bs, table[..k], k * bs) && 0 <= k * bs && whole == NaiveSlots(bs, table[..k], k * bs)
    {
      WholePages(bs, table, k);
      Natural(bs, table[k]);
      whole := whole + seq(bs, o requires 0 <= o < bs => table[k] * bs + o);
      k := k + 1;
    }
    assert table[..k] == table;
    slots := whole[..len];
    hide BlocksFor;
    forall p: nat | p < len ensures slots[p] == NaiveSlots(bs, table, len)[p] {
      CoveredPage(bs, table, len, p);
    }
  }

  lemma {:induction false} Natural(bs: nat, b: nat)
    ensures 0 <= b * bs
  {
  }

  // --- the flat layout -------------------------------------------------------------------------------------------------

  /** One row's entries in the index arrays. */
  ghost predicate RowIs(bs: nat, row: Row, id: Token, position: nat, slot: nat)
    requires bs > 0
  {
    && id == TokenAt(row.it.s, row.p) && position == row.p
    && Page(bs, row.p) < |row.it.s.table| && slot == SlotNumber(bs, row.it.s.table, row.p)
  }

  /** Rows lo up to hi of the arrays are filled in. */
  ghost predicate Filled(bs: nat, rows: seq<Row>, lo: nat, hi: nat, ids: seq<Token>, positions: seq<nat>, slots: seq<nat>)
    requires bs > 0
  {
    && hi <= |rows| <= |ids| && |ids| == |positions| == |slots|
    && forall r :: lo <= r < hi ==> RowIs(bs, rows[r], ids[r], positions[r], slots[r])
  }

  /** Fill one sequence's rows of the index arrays. */
  method FillRows(bs: nat, pages: nat, tokens: seq<Token>, table: seq<Block>, start: nat, lo: nat, hi: nat,
                  ids: array<Token>, positions: array<nat>, slots: array<nat>, ghost items: seq<Item>, ghost i: nat)
    requires bs > 0 && i < |items| && Ready(bs, pages, items[i])
    requires tokens == items[i].s.gen.tokens && start == items[i].s.computed && |Rows(items)| <= ids.Length
    requires lo == RowStart(items, i) && hi == RowStart(items, i + 1) <= |Rows(items)|
    requires BlocksFor(bs, start + (hi - lo)) >= 0 && table == items[i].s.table[..BlocksFor(bs, start + (hi - lo))]
    requires ids.Length == positions.Length == slots.Length
    requires ids != positions as object && ids != slots as object && positions != slots
    modifies ids, positions, slots
    ensures Filled(bs, Rows(items), lo, hi, ids[..], positions[..], slots[..])
    ensures forall r :: 0 <= r < lo ==> ids[r] == old(ids[r]) && positions[r] == old(positions[r]) && slots[r] == old(slots[r])
  {
    hide BlocksFor, Page, Offset, RowIs, Rows;
    var r := lo;
    while r < hi
      invariant lo <= r <= hi
      invariant forall k :: lo <= k < r ==> RowIs(bs, Rows(items)[k], ids[k], positions[k], slots[k])
      invariant forall k :: 0 <= k < lo ==> ids[k] == old(ids[k]) && positions[k] == old(positions[k]) && slots[k] == old(slots[k])
    {
      var p := start + (r - lo);
      PositionSlot(bs, pages, items, i, r - lo);
      ids[r] := tokens[p];
      positions[r] := p;
      slots[r] := table[Page(bs, p)] * bs + Offset(bs, p);
      r := r + 1;
    }
  }

  /** What belongs in a row of item i. */
  lemma {:induction false} PositionSlot(bs: nat, pages: nat, items: seq<Item>, i: nat, j: nat)
    requires bs > 0 && i < |items| && Ready(bs, pages, items[i]) && j < items[i].n && BlocksFor(bs, items[i].s.computed + items[i].n) >= 0
    ensures BlocksFor(bs, items[i].s.computed + items[i].n) <= |items[i].s.table|
    ensures var it, p := items[i], items[i].s.computed + j;
      var table := it.s.table[..BlocksFor(bs, it.s.computed + it.n)];
      && Page(bs, p) < |table| && p < NumTokens(it.s) && RowStart(items, i) + j < |Rows(items)|
      && table[Page(bs, p)] * bs + Offset(bs, p) >= 0
      && RowIs(bs, Rows(items)[RowStart(items, i) + j], it.s.gen.tokens[p], p, table[Page(bs, p)] * bs + Offset(bs, p))
    ensures RowStart(items, i + 1) == RowStart(items, i) + items[i].n
  {
    var it := items[i];
    var p, len := it.s.computed + j, it.s.computed + it.n;
    RowsAt(items, i, j);
    TrimmedTable(bs, it.s.table, len);
    hide BlocksFor, Rows, RowStart;
    CoveredPage(bs, it.s.table[..BlocksFor(bs, len)], len, p);
    SlotParts(bs, pages, it.s.table, len, p);
  }

  lemma {:induction false} StartsGrow(items: seq<Item>, i: nat)
    requires i <= |items|
    ensures RowStart(items, i) <= |Rows(items)| && (i < |items| ==> RowStart(items, i + 1) == RowStart(items, i) + items[i].n)
    decreases |items| - i
  {
    if i == |items| {
      RowsTotal(items);
    } else {
      StartsGrow(items, i + 1);
    }
  }

  /** Where the sequences of a batch lie: their first rows, and their cached slots one sequence after another. */
  datatype Metadata = Metadata(queryStart: seq<nat>, kvStart: seq<nat>, kvSlots: seq<nat>)

  ghost predicate Starts(items: seq<Item>, queryStart: seq<nat>) {
    |queryStart| == |items| + 1 && forall i :: 0 <= i <= |items| ==> queryStart[i] == RowStart(items, i)
  }

  /** Sequence i's cached slots, in position order. */
  ghost predicate Own(bs: nat, it: Item, lo: nat, hi: nat, kvSlots: seq<nat>)
    requires bs > 0
  {
    && lo <= hi <= |kvSlots| && Covers(bs, it.s.table, it.s.computed + it.n)
    && kvSlots[lo..hi] == NaiveSlots(bs, it.s.table, it.s.computed + it.n)
  }

  ghost predicate Owns(bs: nat, items: seq<Item>, upTo: nat, kvStart: seq<nat>, kvSlots: seq<nat>)
    requires bs > 0 && upTo <= |items|
  {
    && |kvStart| == upTo + 1 && kvStart[upTo] == |kvSlots|
    && forall i :: 0 <= i < upTo ==> Own(bs, items[i], kvStart[i], kvStart[i + 1], kvSlots)
  }

  lemma {:induction false} OwnsNext(bs: nat, items: seq<Item>, i: nat, kvStart: seq<nat>, kvSlots: seq<nat>, own: seq<nat>)
    requires bs > 0 && i < |items| && Owns(bs, items, i, kvStart, kvSlots) && Covers(bs, items[i].s.table, items[i].s.computed + items[i].n)
    requires own == NaiveSlots(bs, items[i].s.table, items[i].s.computed + items[i].n)
    ensures Owns(bs, items, i + 1, kvStart + [|kvSlots + own|], kvSlots + own)
  {
    hide Covers;
    var starts, all := kvStart + [|kvSlots + own|], kvSlots + own;
    forall k | 0 <= k < i + 1 ensures Own(bs, items[k], starts[k], starts[k + 1], all) {
      if k < i {
        assert Own(bs, items[k], kvStart[k], kvStart[k + 1], kvSlots);
        assert all[kvStart[k]..kvStart[k + 1]] == kvSlots[kvStart[k]..kvStart[k + 1]];
      } else {
        assert all[starts[k]..starts[k + 1]] == own;
      }
    }
  }

  method QueryStart(ns: seq<nat>, ghost items: seq<Item>) returns (queryStart: seq<nat>)
    requires |ns| == |items| && forall i :: 0 <= i < |ns| ==> ns[i] == items[i].n
    ensures Starts(items, queryStart)
  {
    queryStart := [0];
    var i: nat := 0;
    while i < |ns|
      invariant i <= |ns| && |queryStart| == i + 1
      invariant forall k :: 0 <= k <= i ==> queryStart[k] == RowStart(items, k)
    {
      queryStart := queryStart + [queryStart[i] + ns[i]];
      i := i + 1;
    }
  }

  /** Lay the batch out flat: one row per new token, with the slot its K/V goes to. */
  method Prepare(bs: nat, pages: nat, seqs: seq<Sequence>, ns: seq<nat>, doSample: seq<bool>, ghost items: seq<Item>)
    returns (ids: array<Token>, positions: array<nat>, slots: array<nat>, logits: seq<nat>, meta: Metadata)
    requires bs > 0 && Carries(seqs, ns, items) && AllReady(bs, pages, items)
    requires |doSample| == |items| && forall i :: 0 <= i < |items| ==> doSample[i] == Samples(items[i])
    ensures fresh(ids) && fresh(positions) && fresh(slots) && ids.Length == |Rows(items)|
    ensures Filled(bs, Rows(items), 0, |Rows(items)|, ids[..], positions[..], slots[..])
    ensures logits == LogitsIndices(items, |items|)
    ensures Starts(items, meta.queryStart) && Owns(bs, items, |items|, meta.kvStart, meta.kvSlots)
  {
    hide Ready, Filled, Rows, RowStart, Samples, BlocksFor, Own, Owns, Covers, LogitsIndices, AllReady;
    var queryStart := QueryStart(ns, items);
    var total := queryStart[|seqs|];
    RowsTotal(items);
    ids, positions, slots := new Token[total], new nat[total], new nat[total];
    logits := [];
    var kvStart: seq<nat>, kvSlots: seq<nat> := [0], [];
    NothingFilled(bs, items, ids[..], positions[..], slots[..]);
    var i: nat := 0;
    while i < |seqs|
      invariant i <= |seqs| && Starts(items, queryStart) && ids.Length == positions.Length == slots.Length == total
      invariant Filled(bs, Rows(items), 0, RowStart(items, i), ids[..], positions[..], slots[..])
      invariant logits == LogitsIndices(items, i) && Owns(bs, items, i, kvStart, kvSlots)
    {
      ReadyAt(bs, pages, items, i);
      ghost var ids0, positions0, slots0 := ids[..], positions[..], slots[..];
      var lo, hi, start := queryStart[i], queryStart[i + 1], seqs[i].numComputedTokens;
      StartsGrow(items, i);
      StartsGrow(items, i + 1);
      var kvLen := start + ns[i];
      Trims(bs, pages, items[i]);
      var table := seqs[i].blockTable[..BlocksFor(bs, kvLen)];
      FillRows(bs, pages, seqs[i].tokenIds, table, start, lo, hi, ids, positions, slots, items, i);
      FilledMore(bs, Rows(items), lo, hi, ids0, positions0, slots0, ids[..], positions[..], slots[..]);
      var own := TableSlots(bs, pages, table, kvLen);
      OwnsNext(bs, items, i, kvStart, kvSlots, own);
      kvSlots := kvSlots + own;
      kvStart := kvStart + [|kvSlots|];
      LogitsMore(items, i);
      if doSample[i] {
        logits := logits + [hi - 1];
      }
      i := i + 1;
    }
    meta := Metadata(queryStart, kvStart, kvSlots);
  }

  lemma {:induction false} ReadyAt(bs: nat, pages: nat, items: seq<Item>, i: nat)
    requires bs > 0 && i < |items| && AllReady(bs, pages, items)
    ensures Ready(bs, pages, items[i])
  {
  }

  lemma {:induction false} NothingFilled(bs: nat, items: seq<Item>, ids: seq<Token>, positions: seq<nat>, slots: seq<nat>)
    requires bs > 0 && |ids| == |positions| == |slots| == |Rows(items)|
    ensures Filled(bs, Rows(items), 0, RowStart(items, 0), ids, positions, slots)
    ensures LogitsIndices(items, 0) == [] && Owns(bs, items, 0, [0], [])
  {
    hide Rows;
  }

  lemma {:induction false} Trims(bs: nat, pages: nat, it: Item)
    requires bs > 0 && Ready(bs, pages, it)
    ensures var len := it.s.computed + it.n;
      && 0 <= BlocksFor(bs, len) <= |it.s.table| && Covers(bs, it.s.table, len) && Covers(bs, it.s.table[..BlocksFor(bs, len)], len)
      && NaiveSlots(bs, it.s.table[..BlocksFor(bs, len)], len) == NaiveSlots(bs, it.s.table, len)
      && forall k :: 0 <= k < |it.s.table| ==> 0 <= it.s.table[k] < pages
  {
    TrimmedTable(bs, it.s.table, it.s.computed + it.n);
    hide BlocksFor;
  }

  lemma {:induction false} FilledMore(bs: nat, rows: seq<Row>, lo: nat, hi: nat, ids: seq<Token>,
                                      positions: seq<nat>, slots: seq<nat>,
                                      ids': seq<Token>, positions': seq<nat>, slots': seq<nat>)
    requires bs > 0 && lo <= hi && |ids| == |ids'| && Filled(bs, rows, 0, lo, ids, positions, slots) && Filled(bs, rows, lo, hi, ids', positions', slots')
    requires forall r :: 0 <= r < lo ==> ids'[r] == ids[r] && positions'[r] == positions[r] && slots'[r] == slots[r]
    ensures Filled(bs, rows, 0, hi, ids', positions', slots')
  {
    hide RowIs;
    forall r | 0 <= r < hi ensures RowIs(bs, rows[r], ids'[r], positions'[r], slots'[r]) {
      if r < lo {
        assert RowIs(bs, rows[r], ids[r], positions[r], slots[r]);
      }
    }
  }

  lemma {:induction false} LogitsMore(items: seq<Item>, i: nat)
    requires i < |items|
    ensures LogitsIndices(items, i + 1) == LogitsIndices(items, i) + (if Samples(items[i]) then [RowStart(items, i + 1) - 1] else [])
    ensures Samples(items[i]) ==> RowStart(items, i + 1) > 0
  {
  }

  // --- compressed block tables -----------------------------------------------------------------------------------------

  /** Block tables in compressed form. */
  method PagedKvIndex(bs: nat, tables: seq<seq<Block>>, kvLens: seq<nat>) returns (indptr: seq<nat>,
                      indices: seq<Block>, last: seq<nat>)
    requires bs > 0 && |tables| == |kvLens|
    requires forall i :: 0 <= i < |tables| ==> kvLens[i] > 0 && |tables[i]| == BlocksFor(bs, kvLens[i])
    ensures |indptr| == |tables| + 1 && |last| == |tables| && indptr[0] == 0 && indptr[|tables|] == |indices|
    ensures forall i :: 0 <= i < |tables| ==> CsrNames(bs, tables[i], kvLens[i], indptr[i], indptr[i + 1], indices, last[i])
  {
    hide BlocksFor, CsrNames;
    indptr, indices, last := [0], [], [];
    var i: nat := 0;
    while i < |tables|
      invariant i <= |tables| && |indptr| == i + 1 && |last| == i && indptr[0] == 0 && indptr[i] == |indices|
      invariant forall k :: 0 <= k < i ==> CsrNames(bs, tables[k], kvLens[k], indptr[k], indptr[k + 1], indices, last[k])
    {
      CsrIsNaive(bs, tables[i], kvLens[i]);
      CsrKept(bs, tables, kvLens, indptr, indices, last, i, tables[i]);
      indices := indices + tables[i];
      indptr := indptr + [|indices|];
      last := last + [kvLens[i] - (|tables[i]| - 1) * bs];
      CsrNew(bs, tables[i], kvLens[i], indptr[i], indices);
      i := i + 1;
    }
  }

  /** A sequence's part of the compressed form: its own pages, a last page of 1 to bs tokens, and so the
      very slots the other form lists. */
  ghost predicate CsrNames(bs: nat, table: seq<Block>, len: nat, lo: nat, hi: nat, indices: seq<Block>, last: nat)
    requires bs > 0
  {
    && lo <= hi <= |indices| && indices[lo..hi] == table
    && 1 <= last <= bs && Covers(bs, table, len) && CsrSlots(bs, indices[lo..hi], last) == NaiveSlots(bs, table, len)
  }

  lemma {:induction false} CsrKept(bs: nat, tables: seq<seq<Block>>, kvLens: seq<nat>, indptr: seq<nat>,
                                   indices: seq<Block>, last: seq<nat>, n: nat, more: seq<Block>)
    requires bs > 0 && n <= |tables| && |kvLens| == |tables| && |indptr| == n + 1 && |last| == n
    requires forall k :: 0 <= k < n ==> CsrNames(bs, tables[k], kvLens[k], indptr[k], indptr[k + 1], indices, last[k])
    ensures forall k :: 0 <= k < n ==> CsrNames(bs, tables[k], kvLens[k], indptr[k], indptr[k + 1], indices + more, last[k])
  {
    hide BlocksFor;
    forall k | 0 <= k < n ensures CsrNames(bs, tables[k], kvLens[k], indptr[k], indptr[k + 1], indices + more, last[k]) {
      assert CsrNames(bs, tables[k], kvLens[k], indptr[k], indptr[k + 1], indices, last[k]);
      assert (indices + more)[indptr[k]..indptr[k + 1]] == indices[indptr[k]..indptr[k + 1]];
    }
  }

  lemma {:induction false} CsrNew(bs: nat, table: seq<Block>, len: nat, lo: nat, indices: seq<Block>)
    requires bs > 0 && len > 0 && |table| == BlocksFor(bs, len) && lo <= |indices| && indices[lo..] == table
    ensures len - (|table| - 1) * bs >= 0 && CsrNames(bs, table, len, lo, |indices|, indices, len - (|table| - 1) * bs)
  {
    CsrIsNaive(bs, table, len);
    hide BlocksFor;
    assert indices[lo..|indices|] == indices[lo..];
  }
}
