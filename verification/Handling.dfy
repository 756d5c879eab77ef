// What the scheduler does to one request at a time: its object and the block manager change together, as
// the functions on values say.
module Handling {
  import opened Basics
  import opened Paging
  import opened BlockPool
  import opened Streaming
  import opened Scheduling
  import opened Accounting
  import opened Planning
  import opened Sequences
  import opened Allocator
  import opened Mirrors

  function PoolWithout(p: Pool, v: Seq): Pool {
    var q := FreeTable(p, v.table);
    q.(cpuFree := q.cpuFree + v.cpuTable)
  }

  function Dropped(v: Seq): Seq {
    v.(table := [], cpuTable := [], registered := 0, status := Finished, reason := Some(Error))
  }

  /** Give up a request for good: whatever blocks it has go back to their pools, and the client is told. */
  method Drop(bm: BlockManager, s: Sequence, ghost v: Seq, ghost decode: seq<Token> -> string) returns (out: Output)
    requires bm.Valid() && s.Is(v, decode) && multiset(v.table) <= bm.held && (v.table == [] ==> v.registered == 0)
    modifies bm, s`blockTable, s`cpuBlockTable, s`numRegisteredBlocks, s`status, s`finishReason
    ensures bm.Valid()
    ensures bm.View() == PoolWithout(old(bm.View()), v) && s.Is(Dropped(v), decode)
    ensures out == FailureOutput(v) && s.detokenizer == old(s.detokenizer)
  {
    hide FreeTable, BlockManager.Valid;
    ghost var p := bm.View();
    NothingToFree(p);
    assert p.cpuFree + [] == p.cpuFree && FreeTable(p, v.table).cpuFree + [] == FreeTable(p, v.table).cpuFree;
    if s.blockTable != [] {
      bm.Free(s);
    }
    if s.cpuBlockTable != [] {
      bm.FreeCpu(s);
    }
    s.status := Finished;
    s.finishReason := Some(Error);
    out := Output(s.id, [], "", true, Some(Error), |s.promptTokenIds|, s.NumOutputTokens());
  }

  lemma {:induction false} NothingToFree(p: Pool)
    ensures FreeTable(p, []) == p
  {
  }

  /** A new request, with a detokenizer of its own when there is a tokenizer. */
  method Create(cfg: Config, id: int, prompt: seq<Token>, params: Params, arrival: real,
                priority: Option<real>) returns (s: Sequence)
    ensures fresh(s) && (s.detokenizer != null ==> fresh(s.detokenizer)) && fresh(ObjectsOf(s)) && s.id == id
    ensures s.Is(NewSeq(cfg, id, prompt, params, arrival, priority), cfg.serving.decode)
  {
    s := new Sequence(id, prompt, params, arrival, priority);
    if cfg.hasTokenizer {
      s.detokenizer := new IncrementalDetokenizer(cfg.serving.decode, s);
    }
  }

  method Enlist(s: Sequence, ghost v: Seq, ghost decode: seq<Token> -> string)
    requires s.Is(v, decode) && v.status == Waiting
    modifies s`status
    ensures s.Is(v, decode)
  {
    s.status := Waiting;
  }

  function Discarded(v: Seq): Seq {
    v.(table := [], cpuTable := [], registered := if v.status == Running then 0 else v.registered, status := Aborted)
  }

  /** Give up a request that nobody wants any more. */
  method Discard(bm: BlockManager, s: Sequence, ghost v: Seq, ghost decode: seq<Token> -> string)
    requires bm.Valid() && s.Is(v, decode) && multiset(v.table) <= bm.held
    requires (v.status == Running ==> v.cpuTable == []) && (v.status != Running ==> v.table == [])
    modifies bm, s`blockTable, s`cpuBlockTable, s`numRegisteredBlocks, s`status
    ensures bm.Valid() && bm.View() == PoolWithout(old(bm.View()), v) && s.Is(Discarded(v), decode)
  {
    hide FreeTable, BlockManager.Valid;
    ghost var p := bm.View();
    NothingToFree(p);
    assert p.cpuFree + [] == p.cpuFree && FreeTable(p, v.table).cpuFree + [] == FreeTable(p, v.table).cpuFree;
    if s.status == Running {
      bm.Free(s);
    } else if s.cpuBlockTable != [] {
      bm.FreeCpu(s);
    }
    s.status := Aborted;
  }

  /** A guard on the object is the guard on what it stands for. */
  lemma {:induction false} SameBlocks(s: Sequence, v: Seq, decode: seq<Token> -> string, p: Pool)
    requires s.Is(v, decode)
    ensures Scheduling.CanSwapOut(p, s.View()) == Scheduling.CanSwapOut(p, v)
  {
  }

  /** Park a victim's blocks on the host. */
  method Park(bm: BlockManager, s: Sequence, ghost v: Seq,
              ghost decode: seq<Token> -> string) returns (copies: seq<(Block, Block)>)
    requires bm.Valid() && s.Is(v, decode) && multiset(v.table) <= bm.held && Scheduling.CanSwapOut(bm.View(), v)
    modifies bm, s`blockTable, s`cpuBlockTable, s`numRegisteredBlocks, s`status
    ensures bm.Valid()
    ensures var r := Scheduling.SwapOut(old(bm.View()), v.(status := Preempted));
      bm.View() == r.0 && s.Is(r.1, decode) && copies == r.2
  {
    hide FreeTable, BlockManager.Valid, Zip;
    s.status := Preempted;
    copies := bm.SwapOut(s);
  }

  /** Drop a victim's blocks; it starts over later. */
  method Unload(bm: BlockManager, s: Sequence, ghost v: Seq, ghost decode: seq<Token> -> string)
    requires bm.Valid() && s.Is(v, decode) && multiset(v.table) <= bm.held
    modifies bm, s`blockTable, s`numRegisteredBlocks, s`numComputedTokens, s`status
    ensures bm.Valid()
    ensures var r := FreeSeq(old(bm.View()), v.(status := Preempted)); bm.View() == r.0 && s.Is(r.1.(computed := 0), decode)
  {
    hide FreeTable, BlockManager.Valid;
    s.status := Preempted;
    bm.Free(s);
    s.numComputedTokens := 0;
  }

  /** Room for n more tokens. */
  method Extend(cfg: Config, bm: BlockManager, s: Sequence, n: nat, ghost v: Seq, ghost decode: seq<Token> -> string)
    requires cfg.blockSize > 0 && bm.cfg == cfg && bm.Valid() && s.Is(v, decode) && Scheduling.CanAppend(cfg, bm.View(), v, n)
    modifies bm, s`blockTable
    ensures bm.Valid()
    ensures var r := Scheduling.AppendSlots(cfg, old(bm.View()), v, n); bm.View() == r.0 && s.Is(r.1, decode)
  {
    hide BlockPool.Grow, BlockManager.Valid;
    bm.AppendSlots(s, n);
  }

  function Resumed(cfg: Config, p: Pool, v: Seq, n: nat): (Pool, Seq, seq<(Block, Block)>)
    requires cfg.blockSize > 0
  {
    var r := Scheduling.SwapIn(p, v);
    var q := Scheduling.AppendSlots(cfg, r.0, r.1, n);
    (q.0, q.1.(status := Running), r.2)
  }

  /** Back from the host, with room for n more tokens, and running. */
  method Resume(cfg: Config, bm: BlockManager, s: Sequence, n: nat, ghost v: Seq, ghost decode: seq<Token> -> string)
    returns (copies: seq<(Block, Block)>)
    requires cfg.blockSize > 0 && bm.cfg == cfg && bm.Valid() && s.Is(v, decode) && v.table == [] && |v.cpuTable| == BlocksFor(cfg.blockSize, v.computed)
    requires BlocksFor(cfg.blockSize, v.computed + n) <= NumFree(bm.View())
    modifies bm, s`blockTable, s`cpuBlockTable, s`numRegisteredBlocks, s`status
    ensures bm.Valid()
    ensures var r := Resumed(cfg, old(bm.View()), v, n); bm.View() == r.0 && s.Is(r.1, decode) && copies == r.2
  {
    hide Scheduling.SwapIn, Scheduling.AppendSlots, BlockManager.Valid, BlocksFor, NumFree;
    ResumeFits(cfg, bm.View(), v, n);
    copies := bm.SwapIn(s);
    bm.AppendSlots(s, n);
    s.status := Running;
  }

  /** What is still missing after the parked blocks are back. */
  lemma {:induction false} ResumeFits(cfg: Config, p: Pool, v: Seq, n: nat)
    requires cfg.blockSize > 0 && v.table == [] && |v.cpuTable| == BlocksFor(cfg.blockSize, v.computed)
    ensures |v.cpuTable| <= BlocksFor(cfg.blockSize, v.computed + n)
    ensures Needed(cfg, Scheduling.SwapIn(p, v).1, n) == BlocksFor(cfg.blockSize, v.computed + n) - |v.cpuTable|
  {
    hide BlocksFor, BlockPool.Grow;
    BlocksForMono(cfg.blockSize, v.computed, v.computed + n);
    GrowLength(p, |v.cpuTable|);
  }

  /** A lookup in the prefix cache; it memoises the request's hashes. */
  method Lookup(cfg: Config, bm: BlockManager, s: Sequence, ghost v: Seq,
                ghost decode: seq<Token> -> string) returns (cached: seq<Block>)
    requires cfg.blockSize > 0 && bm.cfg == cfg && bm.Valid() && s.Is(v, decode) && NumTokens(v) > 0
    modifies s`blockHashes
    ensures bm.Valid() && bm.View() == old(bm.View())
    ensures var r := Scheduling.CachedPrefix(cfg, bm.View(), v); s.Is(r.0, decode) && cached == r.1
  {
    hide BlockPool.ExtendHashes, Hits, BlockManager.Valid;
    cached := bm.CachedPrefix(s);
  }

  /** A first table, behind the cached prefix, with room for n tokens; the request runs. */
  method Admit(cfg: Config, bm: BlockManager, s: Sequence, n: nat, cached: seq<Block>, ghost v: Seq, ghost wm: bool,
               ghost decode: seq<Token> -> string)
    requires cfg.blockSize > 0 && bm.cfg == cfg && bm.Valid() && s.Is(v, decode) && v.table == [] && Distinct(cached)
    requires forall i :: 0 <= i < |cached| ==> 0 <= cached[i] < cfg.numBlocks && HashOf(bm.View(), cached[i]).Some?
    requires Scheduling.CanAllocate(cfg, bm.View(), n, cached, wm)
    modifies bm, s`blockTable, s`numComputedTokens, s`numRegisteredBlocks, s`status
    ensures bm.Valid()
    ensures var r := Scheduling.Allocate(cfg, old(bm.View()), v, n, cached); bm.View() == r.0 && s.Is(r.1.(status := Running), decode)
  {
    hide BlockPool.Grow, PinAll, Pinned, BlocksFor, Distinct, HashOf;
    bm.Allocate(s, n, cached);
    s.status := Running;
  }

  /** The tokens of a step are computed; blocks that have become full are published. */
  method Step(cfg: Config, bm: BlockManager, s: Sequence, n: nat, ghost v: Seq, ghost decode: seq<Token> -> string)
    requires cfg.blockSize > 0 && bm.cfg == cfg && bm.Valid() && s.Is(v, decode) && multiset(v.table) <= bm.held
    requires ItemOk(cfg, bm.View(), Item(v, n))
    modifies bm, s`numComputedTokens, s`blockHashes, s`numRegisteredBlocks
    ensures bm.Valid() && bm.held == old(bm.held)
    ensures var (q, v') := Advance(cfg, old(bm.View()), Item(v, n));
      bm.View() == q && s.Is(v', decode) && v'.table == v.table && v'.status == Running && v'.id == v.id
  {
    hide Scheduling.CacheFullBlocks, RunOk, RequestOk, BlockManager.Valid;
    AdvanceTableOk(cfg, bm.View(), v, n);
    SameRequestOk(cfg, v, v.(computed := v.computed + n));
    IsRunning(cfg, bm.View(), v, n);
    s.numComputedTokens := s.numComputedTokens + n;
    bm.CacheFullBlocks(s);
  }

  lemma {:induction false} IsRunning(cfg: Config, p: Pool, s: Seq, n: nat)
    requires cfg.blockSize > 0 && RunOk(cfg, p, s, n)
    ensures s.status == Running
  {
  }

  /** A sampled token: the request goes on, or finishes and gives its blocks back. */
  method Sample(cfg: Config, bm: BlockManager, s: Sequence, token: Token, ghost v: Seq) returns (out: Output)
    requires bm.Valid() && s.Is(v, cfg.serving.decode) && multiset(v.table) <= bm.held && v.status == Running
    modifies bm, s, s.detokenizer
    ensures bm.Valid() && s.detokenizer == old(s.detokenizer)
    ensures var u := TakeToken(cfg, old(bm.View()), v, token);
      && bm.View() == u.pool && u.outputs == [out]
      && |u.running + u.retired| == 1 && s.Is((u.running + u.retired)[0], cfg.serving.decode)
      && (u.running != [] <==> s.status == Running)
  {
    hide FreeTable, AppendToken, BlockManager.Valid;
    var text, finish := AppendSampled(s, token, cfg.serving);
    if finish.Some? {
      s.status := Finished;
      s.finishReason := finish;
      bm.Free(s);
    }
    out := Output(s.id, [token], text, finish.Some?, finish, |s.promptTokenIds|, s.NumOutputTokens());
  }

  /** One request's result. */
  method Take(cfg: Config, bm: BlockManager, s: Sequence, n: nat, doSample: bool, token: Token,
              ghost v: Seq) returns (outs: seq<Output>)
    requires cfg.blockSize > 0 && bm.cfg == cfg && bm.Valid() && s.Is(v, cfg.serving.decode) && multiset(v.table) <= bm.held
    requires n > 0 && doSample == Samples(Item(v, n)) && ItemOk(cfg, bm.View(), Item(v, n))
    modifies bm, s, s.detokenizer
    ensures bm.Valid() && s.detokenizer == old(s.detokenizer)
    ensures var u := UpdateItem(cfg, old(bm.View()), Item(v, n), if doSample then [token] else []);
      && bm.View() == u.pool && outs == u.outputs
      && |u.running + u.retired| == 1 && s.Is((u.running + u.retired)[0], cfg.serving.decode)
      && (u.running != [] <==> s.status == Running)
  {
    hide Advance, TakeToken, ItemOk, Sequence.Valid, BlockManager.Valid;
    ghost var p := bm.View();
    Step(cfg, bm, s, n, v, cfg.serving.decode);
    if !doSample {
      return [];
    }
    var out := Sample(cfg, bm, s, token, Advance(cfg, p, Item(v, n)).1);
    outs := [out];
  }
}
