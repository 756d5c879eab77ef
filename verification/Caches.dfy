// The K/V cache as the runner holds it: one array per cache, indexed by layer, block and offset, with a flat
// view by slot number. Writes, gathers and block copies do to its pages what the functions on pages say.
module Caches {
  import opened Basics
  import opened BlockPool
  import opened Transformer
  import opened Memory
  import opened Forward

  class KVCache {
    const layers: nat
    const numPages: nat
    const blockSize: nat
    const data: array3<KV>

    constructor (layers: nat, numPages: nat, blockSize: nat)
      requires blockSize > 0
      ensures this.layers == layers && this.numPages == numPages && this.blockSize == blockSize && Shaped() && fresh(data)
    {
      this.layers, this.numPages, this.blockSize := layers, numPages, blockSize;
      data := new KV[layers, numPages, blockSize];
    }

    predicate Shaped() {
      blockSize > 0 && data.Length0 == layers && data.Length1 == numPages && data.Length2 == blockSize
    }

    /** What one cache slot holds, in every layer. */
    function EntryAt(b: nat, o: nat): (e: Entry)
      requires Shaped() && b < numPages && o < blockSize
      reads data
      ensures |e| == layers && forall l :: 0 <= l < layers ==> e[l] == data[l, b, o]
    {
      seq(layers, l requires 0 <= l < layers reads data => data[l, b, o])
    }

    function PageAt(b: nat): (p: PageData)
      requires Shaped() && b < numPages
      reads data
      ensures |p| == blockSize && forall o :: 0 <= o < blockSize ==> p[o] == EntryAt(b, o)
    {
      seq(blockSize, o requires 0 <= o < blockSize reads data => EntryAt(b, o))
    }

    /** The cache as pages. */
    ghost function View(): (v: seq<PageData>)
      requires Shaped()
      reads data
      ensures |v| == numPages && forall b :: 0 <= b < numPages ==> v[b] == PageAt(b)
    {
      seq(numPages, b requires 0 <= b < numPages reads data => PageAt(b))
    }

    lemma {:induction false} ViewShape()
      requires Shaped()
      ensures PagesShape(View(), numPages, blockSize, layers)
    {
    }

    /** Pages that hold, slot by slot and layer by layer, what the cache holds are its pages. */
    lemma {:induction false} ViewIs(pages: seq<PageData>)
      requires Shaped() && PagesShape(pages, numPages, blockSize, layers)
      requires forall b, o, l :: 0 <= b < numPages && 0 <= o < blockSize && 0 <= l < layers ==> pages[b][o][l] == data[l, b, o]
      ensures View() == pages
    {
      forall b | 0 <= b < numPages ensures View()[b] == pages[b] {
        forall o | 0 <= o < blockSize ensures PageAt(b)[o] == pages[b][o] {
          assert EntryAt(b, o) == pages[b][o];
        }
      }
    }

    // --- by slot number ----------------------------------------------------------------------------------------------

    /** One layer's K/V in the flat view: slot block * blockSize + offset. */
    function Flat(l: nat, slot: nat): KV
      requires Shaped() && l < layers && slot / blockSize < numPages
      reads data
    {
      data[l, slot / blockSize, slot % blockSize]
    }

    method Put(l: nat, slot: nat, kv: KV)
      requires Shaped() && l < layers && slot / blockSize < numPages
      modifies data
      ensures View() == PutKV(old(View()), slot / blockSize, slot % blockSize, l, kv)
    {
      ghost var pages := View();
      ghost var b, o := slot / blockSize, slot % blockSize;
      ViewShape();
      PutKVShape(pages, b, o, l, kv, numPages, blockSize, layers);
      data[l, slot / blockSize, slot % blockSize] := kv;
      ViewIs(PutKV(pages, b, o, l, kv));
    }

    /** One scatter puts all the new K/V of a layer in place. */
    method Write(l: nat, slots: seq<nat>, kvs: seq<KV>, ghost pairs: seq<(Block, int)>)
      requires Shaped() && l < layers && |slots| == |kvs| == |pairs|
      requires forall i :: 0 <= i < |slots| ==> slots[i] / blockSize < numPages && pairs[i] == (slots[i] / blockSize, slots[i] % blockSize)
      modifies data
      ensures View() == Scatter(old(View()), pairs, kvs, l)
    {
      hide PutKV;
      var i := 0;
      while i < |slots|
        invariant 0 <= i <= |slots| && View() == Scatter(old(View()), pairs[..i], kvs[..i], l)
      {
        assert pairs[..i + 1][..i] == pairs[..i] && kvs[..i + 1][..i] == kvs[..i];
        Put(l, slots[i], kvs[i]);
        i := i + 1;
      }
      assert pairs[..i] == pairs && kvs[..i] == kvs;
    }

    /** The K/V of some slots, in the order they are named. */
    method Gather(l: nat, slots: seq<nat>) returns (kvs: seq<KV>)
      requires Shaped() && l < layers && forall i :: 0 <= i < |slots| ==> slots[i] / blockSize < numPages
      ensures |kvs| == |slots| && forall i :: 0 <= i < |slots| ==> kvs[i] == Flat(l, slots[i])
    {
      kvs := [];
      var i := 0;
      while i < |slots|
        invariant 0 <= i <= |slots| && |kvs| == i && forall k :: 0 <= k < i ==> kvs[k] == Flat(l, slots[k])
      {
        kvs := kvs + [Flat(l, slots[i])];
        i := i + 1;
      }
    }

    // --- by block ------------------------------------------------------------------------------------------------------

    /** Every layer of one block at once. */
    method SetPage(b: nat, page: PageData)
      requires Shaped() && b < numPages && |page| == blockSize && forall o :: 0 <= o < blockSize ==> |page[o]| == layers
      modifies data
      ensures View() == SetAt(old(View()), b, page)
    {
      ghost var pages := View();
      ViewShape();
      forall l, o | 0 <= l < layers && 0 <= o < blockSize {
        data[l, b, o] := page[o][l];
      }
      ViewIs(pages[b := page]);
    }
  }

  /** Copy blocks from one cache to another: everything is read before anything is written. */
  method CopyBlocks(src: KVCache, dst: KVCache, pairs: seq<(Block, Block)>)
    requires src.Shaped() && dst.Shaped() && src.data != dst.data && src.layers == dst.layers && src.blockSize == dst.blockSize
    requires forall i :: 0 <= i < |pairs| ==> 0 <= pairs[i].0 < src.numPages && 0 <= pairs[i].1 < dst.numPages
    modifies dst.data
    ensures dst.View() == CopyPages(src.View(), old(dst.View()), pairs)
  {
    var staged: seq<PageData> := [];
    var i := 0;
    while i < |pairs|
      invariant 0 <= i <= |pairs| && |staged| == i
      invariant forall j :: 0 <= j < i ==> staged[j] == src.PageAt(pairs[j].0)
    {
      staged := staged + [src.PageAt(pairs[i].0)];
      i := i + 1;
    }
    i := 0;
    assert pairs[0..] == pairs;
    while i < |pairs|
      invariant 0 <= i <= |pairs| && src.View() == old(src.View())
      invariant CopyPages(src.View(), dst.View(), pairs[i..]) == CopyPages(src.View(), old(dst.View()), pairs)
    {
      assert pairs[i..][0] == pairs[i] && pairs[i..][1..] == pairs[i + 1..];
      dst.SetPage(pairs[i].1, staged[i]);
      i := i + 1;
    }
  }
}
