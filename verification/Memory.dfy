// Device and host pages: what a page table addresses, and how swaps copy pages.
module Memory {
  import opened Basics
  import opened Paging
  import opened BlockPool
  import opened Transformer

  type PageData = seq<Entry>

  datatype Mem = Mem(gpu: seq<PageData>, cpu: seq<PageData>)

  /** `count` pages of `bs` slots, each slot with one K/V per layer. */
  ghost predicate PagesShape(pages: seq<PageData>, count: nat, bs: nat, layers: nat) {
    && |pages| == count
    && (forall b :: 0 <= b < count ==> |pages[b]| == bs)
    && (forall b, o :: 0 <= b < count && 0 <= o < bs && |pages[b]| == bs ==> |pages[b][o]| == layers)
  }

  function Cell(pages: seq<PageData>, b: Block, o: int): Entry {
    if 0 <= b < |pages| && 0 <= o < |pages[b]| then pages[b][o] else []
  }

  /** What is kept for position p: the table names its page, the remainder its place in the page. */
  function At(bs: nat, pages: seq<PageData>, table: seq<Block>, p: nat): Entry
    requires bs > 0
  {
    if Page(bs, p) < |table| then Cell(pages, table[Page(bs, p)], Offset(bs, p)) else []
  }

  // --- copying pages ---------------------------------------------------------------------------------------

  function CopyPage(src: seq<PageData>, dst: seq<PageData>, pair: (Block, Block)): seq<PageData> {
    if 0 <= pair.0 < |src| then SetAt(dst, pair.1, src[pair.0]) else dst
  }

  /** Copy pages one by one, in order. */
  function CopyPages(src: seq<PageData>, dst: seq<PageData>, pairs: seq<(Block, Block)>): seq<PageData>
    decreases |pairs|
  {
    if pairs == [] then dst else CopyPages(src, CopyPage(src, dst, pairs[0]), pairs[1..])
  }

  lemma {:induction false} CopyPagesConcat(src: seq<PageData>, dst: seq<PageData>, a: seq<(Block, Block)>, b: seq<(Block, Block)>)
    ensures CopyPages(src, dst, a + b) == CopyPages(src, CopyPages(src, dst, a), b)
    decreases |a|
  {
    if a == [] {
      assert a + b == b;
    } else {
      assert (a + b)[1..] == a[1..] + b;
      CopyPagesConcat(src, CopyPage(src, dst, a[0]), a[1..], b);
    }
  }

  /** Pages that are no destination keep their content; with distinct destinations each destination
      gets its source's page. */
  lemma {:induction false} CopyPagesOk(src: seq<PageData>, dst: seq<PageData>, from: seq<Block>, onto: seq<Block>,
                                       pairs: seq<(Block, Block)>)
    requires |from| == |onto| == |pairs| && forall i :: 0 <= i < |pairs| ==> pairs[i] == (from[i], onto[i])
    requires forall i :: 0 <= i < |from| ==> 0 <= from[i] < |src| && 0 <= onto[i] < |dst|
    requires Distinct(onto)
    ensures var r := CopyPages(src, dst, pairs);
      && |r| == |dst|
      && (forall i :: 0 <= i < |onto| ==> r[onto[i]] == src[from[i]])
      && (forall b :: 0 <= b < |dst| && b !in onto ==> r[b] == dst[b])
    decreases |pairs|
  {
    if pairs != [] {
      var d1 := CopyPage(src, dst, pairs[0]);
      CopyPagesOk(src, d1, from[1..], onto[1..], pairs[1..]);
      var r := CopyPages(src, d1, pairs[1..]);
      assert onto[0] !in onto[1..];
      forall i | 0 <= i < |onto| ensures r[onto[i]] == src[from[i]] {
        if i > 0 {
          assert onto[i] == onto[1..][i - 1] && from[i] == from[1..][i - 1];
        }
      }
      forall b | 0 <= b < |dst| && b !in onto ensures r[b] == dst[b] {
        assert b !in onto[1..] && b != onto[0];
      }
    }
  }

  lemma {:induction false} CopyPagesShape(src: seq<PageData>, dst: seq<PageData>, pairs: seq<(Block, Block)>, n: nat,
                                          count: nat, bs: nat, layers: nat)
    requires PagesShape(src, n, bs, layers) && PagesShape(dst, count, bs, layers)
    ensures PagesShape(CopyPages(src, dst, pairs), count, bs, layers)
    decreases |pairs|
  {
    if pairs != [] {
      CopyPagesShape(src, CopyPage(src, dst, pairs[0]), pairs[1..], n, count, bs, layers);
    }
  }

  /** The runner's swaps, performed together just before the forward pass: all swap-outs read the
      device, then all swap-ins read the host. */
  function Swapped(mem: Mem, outs: seq<(Block, Block)>, ins: seq<(Block, Block)>): Mem {
    var cpu := CopyPages(mem.gpu, mem.cpu, outs);
    Mem(CopyPages(cpu, mem.gpu, ins), cpu)
  }

  /** Deciding more swap-outs while nothing has been swapped in: copying them at the moment of the
      decision gives the memory that copying everything at the end gives. */
  lemma {:induction false} LaterSwapOut(mem: Mem, outs: seq<(Block, Block)>, more: seq<(Block, Block)>)
    ensures var now := Swapped(mem, outs, []);
      Swapped(mem, outs + more, []) == Mem(now.gpu, CopyPages(now.gpu, now.cpu, more))
  {
    CopyPagesConcat(mem.gpu, mem.cpu, outs, more);
  }

  lemma {:induction false} LaterSwapIn(mem: Mem, outs: seq<(Block, Block)>, ins: seq<(Block, Block)>, more: seq<(Block, Block)>)
    ensures var now := Swapped(mem, outs, ins);
      Swapped(mem, outs, ins + more) == Mem(CopyPages(now.cpu, now.gpu, more), now.cpu)
  {
    CopyPagesConcat(CopyPages(mem.gpu, mem.cpu, outs), mem.gpu, ins, more);
  }

  // --- what pages must hold ----------------------------------------------------------------------------------

  /** The first `computed` positions of `tokens`, addressed through `table`, hold their K/V. */
  ghost predicate SeqKV(m: Model, bs: nat, pages: seq<PageData>, table: seq<Block>, tokens: seq<Token>, computed: nat)
    requires bs > 0
  {
    computed <= |tokens| && forall p: nat :: p < computed ==> At(bs, pages, table, p) == EntryAt(m, tokens, p)
  }

  /** A page published under a hash holds the K/V of the last block of the tokens the hash stands for. */
  ghost predicate HashKV(m: Model, bs: nat, pages: seq<PageData>, b: Block, h: Hash) {
    var tokens := HashTokens(h);
    && bs <= |tokens|
    && forall o :: 0 <= o < bs ==> Cell(pages, b, o) == EntryAt(m, tokens, |tokens| - bs + o)
  }

  ghost predicate CacheKV(m: Model, bs: nat, pages: seq<PageData>, p: Pool) {
    forall b: Block :: HashOf(p, b).Some? ==> HashKV(m, bs, pages, b, HashOf(p, b).value)
  }

  /** SeqKV reads only the pages that hold the computed positions. */
  lemma {:induction false} SeqKVSame(m: Model, bs: nat, pages: seq<PageData>, pages': seq<PageData>,
                                     table: seq<Block>, table': seq<Block>, tokens: seq<Token>, computed: nat)
    requires bs > 0 && SeqKV(m, bs, pages, table, tokens, computed)
    requires BlocksFor(bs, computed) <= |table| && |table| <= |table'|
    requires forall i, o :: 0 <= i < |table| && 0 <= o < bs ==> Cell(pages', table'[i], o) == Cell(pages, table[i], o)
    ensures SeqKV(m, bs, pages', table', tokens, computed)
  {
    hide Cell, EntryAt, Page, Offset, BlocksFor;
    forall p: nat | p < computed ensures At(bs, pages', table', p) == EntryAt(m, tokens, p) {
      PageInRange(bs, p, computed);
      assert At(bs, pages, table, p) == EntryAt(m, tokens, p);
    }
  }

  /** Appending tokens does not touch the K/V of the positions before them. */
  lemma {:induction false} SeqKVAppend(m: Model, bs: nat, pages: seq<PageData>, table: seq<Block>,
                                       tokens: seq<Token>, more: seq<Token>, computed: nat)
    requires bs > 0 && SeqKV(m, bs, pages, table, tokens, computed)
    ensures SeqKV(m, bs, pages, table, tokens + more, computed)
  {
    hide At, EntryAt;
    forall p: nat | p < computed ensures At(bs, pages, table, p) == EntryAt(m, tokens + more, p) {
      assert (tokens + more)[..p + 1] == tokens[..p + 1];
      EntryPrefix(m, tokens, tokens + more, p);
      assert At(bs, pages, table, p) == EntryAt(m, tokens, p);
    }
  }
}
