// The structural invariant over whole loops: planning a step and taking its results keep it.
module Stepping {
  import opened Basics
  import opened Paging
  import opened BlockPool
  import opened PrefixCache
  import opened Streaming
  import opened Scheduling
  import opened Accounting
  import opened Planning

  /** The invariant between steps. */
  ghost predicate StateOk(cfg: Config, st: State)
    requires cfg.blockSize > 0
  {
    MidOk(cfg, Begin(st))
  }

  ghost predicate AllIdle(items: seq<Item>) {
    forall i :: 0 <= i < |items| ==> items[i].n == 0
  }

  lemma {:induction false} BatchEmptyIdle(items: seq<Item>)
    ensures Batch(items) == [] <==> AllIdle(items)
  {
    if items != [] {
      BatchEmptyIdle(items[..|items| - 1]);
    }
  }

  // --- the loops, one turn at a time -------------------------------------------------------------------------------

  lemma {:induction false} RunLoopStep(cfg: Config, m: Mid)
    requires cfg.blockSize > 0
    ensures RunLoop(cfg, m) ==
      if m.todo == [] then m
      else if m.todo[0].n == 0 then RunLoop(cfg, SkipHead(m))
      else if CanAppend(cfg, m.pool, m.todo[0].s, m.todo[0].n) then RunLoop(cfg, AppendHead(cfg, m))
      else if |m.todo| > 1 then RunLoop(cfg, PreemptNewest(cfg, m))
      else if m.items == [] then FailHead(m)
      else PreemptNewest(cfg, m)
  {
    hide CanAppend, AppendSlots, Fail, Preempt;
  }

  lemma {:induction false} SwapInLoopStep(cfg: Config, m: Mid, budget: Option<int>)
    requires cfg.blockSize > 0
    ensures SwapInLoop(cfg, m, budget) ==
      if m.swapped == [] || |m.items| >= cfg.maxNumSeqs || SwapInTokens(m.swapped[0], budget) <= 0 then m
      else if CanSwapIn(cfg, m.pool, m.swapped[0], SwapInTokens(m.swapped[0], budget), m.items != [])
      then SwapInLoop(cfg, SwapInOne(cfg, m, SwapInTokens(m.swapped[0], budget)), Spend(budget, SwapInTokens(m.swapped[0], budget)))
      else if m.items == [] then SwapInLoop(cfg, FailSwapped(m), budget)
      else m
  {
    hide CanSwapIn, SwapInTokens, SwapInOne;
  }

  lemma {:induction false} AdmitLoopStep(cfg: Config, m: Mid, budget: int)
    requires cfg.blockSize > 0
    ensures AdmitLoop(cfg, m, budget) ==
      if budget <= 0 || |m.items| >= cfg.maxNumSeqs || NextUp(m).None? then m
      else if BlocksFor(cfg.blockSize, NumTokens(NextUp(m).value)) > cfg.numBlocks then AdmitLoop(cfg, FailNext(m), budget)
      else
        var (s, cached) := CachedPrefix(cfg, m.pool, NextUp(m).value);
        if Admissible(cfg, m, s, cached, budget)
        then AdmitLoop(cfg, AdmitOne(cfg, m, s, AdmitTokens(cfg, s, cached, budget), cached), budget - AdmitTokens(cfg, s, cached, budget))
        else NoteNext(m, s)
  {
    hide Admissible, CachedPrefix, AdmitTokens, BlocksFor, Allocate;
  }

  // --- the running pass -------------------------------------------------------------------------------------

  /** A plan covers the running list in order and gives nobody more than it has left to compute. */
  lemma {:induction false} PlanFromOk(running: seq<Seq>, left: int)
    requires forall i :: 0 <= i < |running| ==> Uncomputed(running[i]) >= 1
    ensures var plan := PlanFrom(running, left);
      && |plan| == |running|
      && forall i :: 0 <= i < |plan| ==> plan[i].s == running[i] && plan[i].n <= Uncomputed(running[i])
  {
    if running != [] {
      var left' := if Uncomputed(running[0]) == 1 then left else left - Min(Uncomputed(running[0]), left);
      PlanFromOk(running[1..], left');
    }
  }

  lemma {:induction false} PlanOk(cfg: Config, running: seq<Seq>)
    requires forall i :: 0 <= i < |running| ==> Uncomputed(running[i]) >= 1
    ensures var plan := Plan(cfg, running);
      && |plan| == |running|
      && forall i :: 0 <= i < |plan| ==> plan[i].s == running[i] && plan[i].n <= Uncomputed(running[i])
  {
    PlanFromOk(running, cfg.maxBatchTokens - CountDecodes(running));
  }

  lemma {:induction false} PlanTodosOk(cfg: Config, p: Pool, items: seq<Item>)
    requires cfg.blockSize > 0 && ItemsOk(cfg, p, items) && AllIdle(items)
    ensures TodosOk(cfg, p, Plan(cfg, Seqs(items))) && Seqs(Plan(cfg, Seqs(items))) == Seqs(items)
  {
    hide RunOk, RequestOk, Plan;
    var running := Seqs(items);
    forall i | 0 <= i < |running| ensures Uncomputed(running[i]) >= 1 {
      assert ItemOk(cfg, p, items[i]);
    }
    PlanOk(cfg, running);
    var plan := Plan(cfg, running);
    forall i | 0 <= i < |plan| ensures TodoOk(cfg, p, plan[i]) {
      assert ItemOk(cfg, p, items[i]);
    }
  }

  /** Turning the visited list, with nobody scheduled, into a planned one. */
  lemma {:induction false} ReplanOk(cfg: Config, m: Mid)
    requires cfg.blockSize > 0 && MidOk(cfg, m) && m.todo == [] && AllIdle(m.items)
    ensures MidOk(cfg, m.(items := [], todo := Plan(cfg, Seqs(m.items))))
    ensures Ids(m.(items := [], todo := Plan(cfg, Seqs(m.items)))) == Ids(m)
  {
    hide Valid, CpuValid, QueuesOk, Unique, ItemsOk, TodosOk, Plan;
    PlanTodosOk(cfg, m.pool, m.items);
    var m' := m.(items := [], todo := Plan(cfg, Seqs(m.items)));
    assert Seqs([]) == [] && Seqs(m.todo) == [];
    assert |m'.todo| == |Seqs(m'.todo)|;
    assert Held(m'.items, m'.todo) == Held(m.items, m.todo);
    assert Ids(m') == Ids(m);
    NothingOk(cfg, m.pool);
  }

  lemma {:induction false} NothingOk(cfg: Config, p: Pool)
    requires cfg.blockSize > 0
    ensures ItemsOk(cfg, p, []) && TodosOk(cfg, p, [])
  {
  }

  lemma {:induction false} RunLoopOk(cfg: Config, m: Mid)
    requires cfg.blockSize > 0 && MidOk(cfg, m)
    ensures MidOk(cfg, RunLoop(cfg, m)) && RunLoop(cfg, m).todo == []
    decreases |m.todo|
  {
    hide MidOk, CanAppend, OkBut, TodoOk, Fail;
    if m.todo != [] {
      if m.todo[0].n == 0 {
        SkipHeadOk(cfg, m);
        RunLoopOk(cfg, SkipHead(m));
      } else if CanAppend(cfg, m.pool, m.todo[0].s, m.todo[0].n) {
        AppendHeadOk(cfg, m);
        RunLoopOk(cfg, AppendHead(cfg, m));
      } else if |m.todo| > 1 {
        PreemptNewestOk(cfg, m);
        RunLoopOk(cfg, PreemptNewest(cfg, m));
      } else if m.items == [] {
        FailHeadOk(cfg, m);
        FailKeepsTodo(m.(todo := m.todo[1..]), m.todo[0].s);
      } else {
        PreemptNewestOk(cfg, m);
      }
    }
  }

  lemma {:induction false} FailKeepsTodo(m: Mid, s: Seq)
    ensures Fail(m, s).todo == m.todo && Fail(m, s).items == m.items
  {
  }

  lemma {:induction false} FailHeadOk(cfg: Config, m: Mid)
    requires cfg.blockSize > 0 && m.todo != [] && MidOk(cfg, m)
    ensures MidOk(cfg, FailHead(m))
  {
    hide MidOk, OkBut, TodoOk, Fail;
    TakeHead(cfg, m);
    FailOk(cfg, m.(todo := m.todo[1..]), m.todo[0].s);
  }

  lemma {:induction false} FailSwappedOk(cfg: Config, m: Mid)
    requires cfg.blockSize > 0 && m.swapped != [] && MidOk(cfg, m)
    ensures MidOk(cfg, FailSwapped(m))
  {
    hide MidOk, OkBut, SwappedOk, Fail;
    TakeSwapped(cfg, m);
    FailOk(cfg, m.(swapped := m.swapped[1..]), m.swapped[0]);
  }

  lemma {:induction false} FailNextOk(cfg: Config, m: Mid)
    requires cfg.blockSize > 0 && NextUp(m).Some? && MidOk(cfg, m)
    ensures MidOk(cfg, FailNext(m))
  {
    hide MidOk, OkBut, ParkedOk, Fail;
    TakeNext(cfg, m);
    FailOk(cfg, PopNextUp(m), NextUp(m).value);
  }

  lemma {:induction false} ScheduleRunningOk(cfg: Config, m: Mid)
    requires cfg.blockSize > 0 && MidOk(cfg, m) && m.todo == [] && AllIdle(m.items)
    ensures MidOk(cfg, ScheduleRunning(cfg, m)) && ScheduleRunning(cfg, m).todo == []
  {
    hide MidOk, RunLoop, Plan;
    ReplanOk(cfg, m);
    RunLoopOk(cfg, m.(items := [], todo := Plan(cfg, Seqs(m.items))));
  }

  // --- swap-ins and admissions ------------------------------------------------------------------------------

  lemma {:induction false} SwapInTokensOk(cfg: Config, m: Mid, budget: Option<int>)
    requires cfg.blockSize > 0 && m.swapped != [] && SwapInTokens(m.swapped[0], budget) > 0
    requires CanSwapIn(cfg, m.pool, m.swapped[0], SwapInTokens(m.swapped[0], budget), m.items != [])
    ensures var n := SwapInTokens(m.swapped[0], budget);
      0 < n <= Uncomputed(m.swapped[0]) && BlocksFor(cfg.blockSize, m.swapped[0].computed + n) <= NumFree(m.pool)
  {
  }

  lemma {:induction false} SwapInLoopOk(cfg: Config, m: Mid, budget: Option<int>)
    requires cfg.blockSize > 0 && MidOk(cfg, m) && m.todo == []
    ensures MidOk(cfg, SwapInLoop(cfg, m, budget)) && SwapInLoop(cfg, m, budget).todo == []
    decreases |m.swapped|
  {
    hide MidOk, CanSwapIn, SwapInTokens, Fail;
    if m.swapped != [] && |m.items| < cfg.maxNumSeqs {
      var n := SwapInTokens(m.swapped[0], budget);
      if n > 0 {
        if CanSwapIn(cfg, m.pool, m.swapped[0], n, m.items != []) {
          SwapInTokensOk(cfg, m, budget);
          SwapInOneOk(cfg, m, n);
          SwapInLoopOk(cfg, SwapInOne(cfg, m, n), Spend(budget, n));
        } else if m.items == [] {
          FailSwappedOk(cfg, m);
          FailShape(m.(swapped := m.swapped[1..]), m.swapped[0]);
          SwapInLoopOk(cfg, FailSwapped(m), budget);
        }
      }
    }
  }

  lemma {:induction false} FailShape(m: Mid, s: Seq)
    ensures var f := Fail(m, s);
      && f.todo == m.todo && f.items == m.items && f.swapped == m.swapped
      && f.preempted == m.preempted && f.waiting == m.waiting
      && f.swapOut == m.swapOut && f.swapIn == m.swapIn && f.numPreempted == m.numPreempted
      && |f.outputs| == |m.outputs| + 1
  {
  }

  lemma {:induction false} AdmitLoopOk(cfg: Config, m: Mid, budget: int)
    requires cfg.blockSize > 0 && MidOk(cfg, m) && m.todo == []
    ensures MidOk(cfg, AdmitLoop(cfg, m, budget)) && AdmitLoop(cfg, m, budget).todo == []
    decreases |m.preempted| + |m.waiting|
  {
    hide MidOk, Ids, Admissible, CachedPrefix, AdmitTokens, BlocksFor, Fail, Allocate;
    if budget > 0 && |m.items| < cfg.maxNumSeqs && NextUp(m).Some? {
      if BlocksFor(cfg.blockSize, NumTokens(NextUp(m).value)) > cfg.numBlocks {
        FailNextOk(cfg, m);
        FailShape(PopNextUp(m), NextUp(m).value);
        AdmitLoopOk(cfg, FailNext(m), budget);
      } else {
        var (s, cached) := CachedPrefix(cfg, m.pool, NextUp(m).value);
        if Admissible(cfg, m, s, cached, budget) {
          var n := AdmitTokens(cfg, s, cached, budget);
          AdmitOneOk(cfg, m, budget);
          AdmitLoopOk(cfg, AdmitOne(cfg, m, s, n, cached), budget - n);
        } else {
          NoteNextOk(cfg, m);
        }
      }
    }
  }

  /** Planning a whole step keeps the invariant and visits every running sequence. */
  lemma {:induction false} ScheduleOk(cfg: Config, st: State)
    requires cfg.blockSize > 0 && StateOk(cfg, st)
    ensures MidOk(cfg, Schedule(cfg, st)) && Schedule(cfg, st).todo == []
  {
    hide MidOk, AdmitLoop, SwapInLoop, ScheduleRunning, Batch, BatchTokens;
    var m := Begin(st);
    if cfg.chunked {
      ScheduleRunningOk(cfg, m);
      var m1 := ScheduleRunning(cfg, m);
      var b1 := Some(cfg.maxBatchTokens - BatchTokens(m1.items));
      SwapInLoopOk(cfg, m1, b1);
      var m2 := SwapInLoop(cfg, m1, b1);
      AdmitLoopOk(cfg, m2, cfg.maxBatchTokens - BatchTokens(m2.items));
    } else {
      AdmitLoopOk(cfg, m, cfg.maxBatchTokens);
      var m1 := if m.swapped == [] then AdmitLoop(cfg, m, cfg.maxBatchTokens) else m;
      BatchEmptyIdle(m1.items);
      if Batch(m1.items) == [] {
        ScheduleRunningOk(cfg, m1);
        SwapInLoopOk(cfg, ScheduleRunning(cfg, m1), None);
      }
    }
  }

  // --- taking the results ------------------------------------------------------------------------------------

  /** The pool and the sequences an update produced, seen by the rest of the engine. */
  ghost predicate UpdatedOk(cfg: Config, p: Pool, others: multiset<Block>, u: Updated)
    requires cfg.blockSize > 0
  {
    && Valid(cfg.numBlocks, u.pool, others + Total(u.running, TableOf))
    && KeepsHash(p, u.pool, others) && u.pool.cpuFree == p.cpuFree
    && ItemsOk(cfg, u.pool, Idle(u.running))
  }

  /** A table whose published blocks lie below the computed tokens stays right when a token comes. */
  lemma {:induction false} AppendTokenRunOk(cfg: Config, p: Pool, s: Seq, gen: Gen)
    requires cfg.blockSize > 0 && RunOk(cfg, p, s, 0) && |s.gen.tokens| <= |gen.tokens| && gen.tokens[..|s.gen.tokens|] == s.gen.tokens
    ensures RunOk(cfg, p, s.(gen := gen), 0)
  {
    var bs := cfg.blockSize;
    var s1 := s.(gen := gen);
    hide HashOf, Distinct, BlocksFor;
    forall i | 0 <= i < |s1.table| ensures OwnBlock(cfg, p, s1, i) {
      assert OwnBlock(cfg, p, s, i);
      if i < s.computed / bs {
        FullPages(bs, s.computed);
        MulMono(i + 1, s.computed / bs, bs);
        var k := (i + 1) * bs;
        assert 0 <= k <= |s.gen.tokens|;
        assert gen.tokens[..k] == s.gen.tokens[..k];
        SamePrefixHash(bs, s.gen.tokens, gen.tokens, i + 1);
      }
    }
  }

  /** A table of distinct blocks fits the pool. */
  lemma {:induction false} TableFits(n: nat, p: Pool, others: multiset<Block>, table: seq<Block>)
    requires Valid(n, p, others + multiset(table)) && Distinct(table)
    ensures |table| <= n
    ensures NumFree(p) + |table| <= n
    ensures others == multiset{} ==> NumFree(p) + |table| == n
  {
    var held := others + multiset(table);
    PoolPartition(n, p, held);
    hide Valid;
    DistinctSize(table);
    var used, own := set b: Block | b in held, set b | b in table;
    forall b | b in own ensures b in used {
      assert b in multiset(table);
    }
    SubsetSize(own, used);
    if others == multiset{} {
      forall b | b in used ensures b in own {
        assert b in multiset(table);
      }
      assert own == used;
    }
  }

  lemma {:induction false} SubsetSize(a: set<Block>, b: set<Block>)
    requires a <= b
    ensures |a| <= |b|
  {
    assert b == a + (b - a);
  }

  lemma {:induction false} TakeTokenOk(cfg: Config, p: Pool, others: multiset<Block>, s: Seq, t: Token)
    requires cfg.blockSize > 0 && Valid(cfg.numBlocks, p, others + multiset(s.table))
    requires RunOk(cfg, p, s, 0) && RequestOk(cfg, s) && s.computed == NumTokens(s)
    ensures UpdatedOk(cfg, p, others, TakeToken(cfg, p, s, t))
    ensures Total(TakeToken(cfg, p, s, t).running, IdOf) <= multiset{s.id}
  {
    hide Valid, KeepsHash, AppendToken, TableOk, FreeSeq, HashOf;
    var (gen, text, finish) := AppendToken(cfg.serving, s.params, s.gen, t);
    var s1 := s.(gen := gen);
    if finish.None? {
      AppendTokenRunOk(cfg, p, s, gen);
      TokenRequestOk(cfg, p, others, s, t);
      SamePool(p, others);
      assert Total([s1], TableOf) == multiset(s1.table);
      assert Total([s1], IdOf) == multiset{s.id};
    } else {
      FreeSeqValid(cfg, p, others, s1.(status := Finished, reason := finish));
      assert others + Total([], TableOf) == others;
    }
  }

  lemma {:induction false} SamePool(p: Pool, held: multiset<Block>)
    ensures KeepsHash(p, p, held)
  {
  }

  /** The generated token proves that the context before it fitted the pool. */
  lemma {:induction false} TokenRequestOk(cfg: Config, p: Pool, others: multiset<Block>, s: Seq, t: Token)
    requires cfg.blockSize > 0 && Valid(cfg.numBlocks, p, others + multiset(s.table))
    requires RunOk(cfg, p, s, 0) && RequestOk(cfg, s) && s.computed == NumTokens(s)
    requires AppendToken(cfg.serving, s.params, s.gen, t).2.None?
    ensures RequestOk(cfg, s.(gen := AppendToken(cfg.serving, s.params, s.gen, t).0))
  {
    var gen := AppendToken(cfg.serving, s.params, s.gen, t).0;
    assert Distinct(s.table) && |s.table| == BlocksFor(cfg.blockSize, NumTokens(s));
    hide AppendToken, TableOk, Distinct, Valid, PrefixHash;
    HashesOkAppend(cfg.blockSize, s.gen.tokens, [t], s.hashes);
    TableFits(cfg.numBlocks, p, others, s.table);
    BlocksForLeast(cfg.blockSize, NumTokens(s), cfg.numBlocks);
  }

  /** A sequence that keeps running alone makes a good update. */
  lemma {:induction false} StaysOk(cfg: Config, p: Pool, q: Pool, others: multiset<Block>, s: Seq)
    requires cfg.blockSize > 0 && Valid(cfg.numBlocks, q, others + multiset(s.table))
    requires KeepsHash(p, q, others) && q.cpuFree == p.cpuFree && ItemOk(cfg, q, Item(s, 0))
    ensures UpdatedOk(cfg, p, others, Updated(q, [s], [], []))
    ensures Total([s], IdOf) == multiset{s.id}
  {
    hide Valid, KeepsHash, ItemOk;
    assert Total([s], TableOf) == multiset(s.table);
    assert Total([s], IdOf) == multiset{s.id};
  }

  lemma {:induction false} AdvanceOk(cfg: Config, p: Pool, others: multiset<Block>, it: Item)
    requires cfg.blockSize > 0 && Valid(cfg.numBlocks, p, others + multiset(it.s.table)) && ItemOk(cfg, p, it)
    ensures var (q, s) := Advance(cfg, p, it);
      && Valid(cfg.numBlocks, q, others + multiset(s.table))
      && KeepsHash(p, q, others) && q.cpuFree == p.cpuFree
      && RunOk(cfg, q, s, 0) && RequestOk(cfg, s)
      && s == it.s.(computed := it.s.computed + it.n, hashes := s.hashes, registered := s.registered)
  {
    hide Valid, KeepsHash, RunOk, RequestOk, CacheFullBlocks;
    var s0 := it.s.(computed := it.s.computed + it.n);
    AdvanceTableOk(cfg, p, it.s, it.n);
    SameRequestOk(cfg, it.s, s0);
    CacheFullBlocksOk(cfg, p, others, s0);
  }

  lemma {:induction false} UpdateItemOk(cfg: Config, p: Pool, others: multiset<Block>, it: Item, sampled: seq<Token>)
    requires cfg.blockSize > 0 && Valid(cfg.numBlocks, p, others + multiset(it.s.table))
    requires ItemOk(cfg, p, it) && (Samples(it) ==> sampled != [])
    ensures UpdatedOk(cfg, p, others, UpdateItem(cfg, p, it, sampled))
    ensures Total(UpdateItem(cfg, p, it, sampled).running, IdOf) <= multiset{it.s.id}
  {
    hide Valid, KeepsHash, RunOk, RequestOk, Advance, TakeToken, UpdatedOk, Total;
    if it.n == 0 {
      SamePool(p, others);
      StaysOk(cfg, p, p, others, it.s);
    } else {
      RunWithin(cfg, p, it.s, it.n);
      AdvanceOk(cfg, p, others, it);
      var (p1, s1) := Advance(cfg, p, it);
      if Samples(it) {
        TakeTokenOk(cfg, p1, others, s1, sampled[0]);
        FromBefore(cfg, p, p1, others, TakeToken(cfg, p1, s1, sampled[0]));
      } else {
        StaysOk(cfg, p, p1, others, s1);
      }
    }
  }

  lemma {:induction false} FromBefore(cfg: Config, p: Pool, p1: Pool, others: multiset<Block>, u: Updated)
    requires cfg.blockSize > 0 && KeepsHash(p, p1, others) && p1.cpuFree == p.cpuFree && UpdatedOk(cfg, p1, others, u)
    ensures UpdatedOk(cfg, p, others, u)
  {
    hide Valid, ItemsOk;
  }

  lemma {:induction false} RunWithin(cfg: Config, p: Pool, s: Seq, n: nat)
    requires cfg.blockSize > 0 && RunOk(cfg, p, s, n)
    ensures s.computed + n <= NumTokens(s)
  {
  }

  lemma {:induction false} KeepsOnward(p: Pool, p1: Pool, q: Pool, held: multiset<Block>, more: multiset<Block>)
    requires KeepsHash(p, p1, held + more) && KeepsHash(p1, q, held)
    ensures KeepsHash(p, q, held)
  {
  }

  lemma {:induction false} IdleConcat(a: seq<Seq>, b: seq<Seq>)
    ensures Idle(a + b) == Idle(a) + Idle(b) && Seqs(Idle(a)) == a
  {
  }

  lemma {:induction false} ItemsConcat(cfg: Config, p: Pool, a: seq<Item>, b: seq<Item>)
    requires cfg.blockSize > 0 && ItemsOk(cfg, p, a) && ItemsOk(cfg, p, b)
    ensures ItemsOk(cfg, p, a + b)
  {
    hide ItemOk;
  }

  /** Updating the first item leaves the others ready to be updated. */
  lemma {:induction false} UpdateTailReady(cfg: Config, p: Pool, others: multiset<Block>, items: seq<Item>, sampled: seq<Token>)
    requires cfg.blockSize > 0 && items != [] && Valid(cfg.numBlocks, p, others + Total(Seqs(items), TableOf))
    requires ItemsOk(cfg, p, items) && |sampled| == NumSampled(items)
    ensures var it, tail := items[0], items[1..];
      var later := Total(Seqs(tail), TableOf);
      var u := UpdateItem(cfg, p, it, sampled);
      && Valid(cfg.numBlocks, p, others + later + multiset(it.s.table)) && ItemOk(cfg, p, it) && (Samples(it) ==> sampled != [])
      && UpdatedOk(cfg, p, others + later, u)
      && Valid(cfg.numBlocks, u.pool, others + Total(u.running, TableOf) + later)
      && ItemsOk(cfg, u.pool, tail)
      && |if Samples(it) && sampled != [] then sampled[1..] else sampled| == NumSampled(tail)
  {
    hide Valid, KeepsHash, ItemOk, UpdateItem;
    var it, tail := items[0], items[1..];
    var later := Total(Seqs(tail), TableOf);
    SeqsCuts(items);
    assert others + Total(Seqs(items), TableOf) == others + later + multiset(it.s.table);
    var u := UpdateItem(cfg, p, it, sampled);
    UpdateItemOk(cfg, p, others + later, it, sampled);
    ItemsKept(cfg, p, u.pool, others + later, tail);
    assert others + later + Total(u.running, TableOf) == others + Total(u.running, TableOf) + later;
  }

  lemma {:induction false} UpdateItemsOk(cfg: Config, p: Pool, others: multiset<Block>, items: seq<Item>, sampled: seq<Token>)
    requires cfg.blockSize > 0 && Valid(cfg.numBlocks, p, others + Total(Seqs(items), TableOf))
    requires ItemsOk(cfg, p, items) && |sampled| == NumSampled(items)
    ensures UpdatedOk(cfg, p, others, UpdateItems(cfg, p, items, sampled))
    ensures Total(UpdateItems(cfg, p, items, sampled).running, IdOf) <= Total(Seqs(items), IdOf)
    ensures |UpdateItems(cfg, p, items, sampled).running| <= |items|
    decreases |items|
  {
    hide Valid, KeepsHash, ItemOk, UpdateItem, NumSampled;
    if items == [] {
      SamePool(p, others);
    } else {
      var it, tail := items[0], items[1..];
      var later := Total(Seqs(tail), TableOf);
      UpdateTailReady(cfg, p, others, items, sampled);
      UpdateItemOk(cfg, p, others + later, it, sampled);
      var u := UpdateItem(cfg, p, it, sampled);
      AtMostOne(cfg, p, it, sampled);
      var rest := if Samples(it) && sampled != [] then sampled[1..] else sampled;
      UpdateItemsOk(cfg, u.pool, others + Total(u.running, TableOf), tail, rest);
      var v := UpdateItems(cfg, u.pool, tail, rest);
      JoinUpdated(cfg, p, others, later, u, v);
      TotalConcat(u.running, v.running, IdOf);
      SeqsCuts(items);
      assert Total(Seqs(items), IdOf) == multiset{it.s.id} + Total(Seqs(tail), IdOf);
    }
  }

  lemma {:induction false} AtMostOne(cfg: Config, p: Pool, it: Item, sampled: seq<Token>)
    requires cfg.blockSize > 0
    ensures |UpdateItem(cfg, p, it, sampled).running| <= 1
  {
  }

  lemma {:induction false} JoinUpdated(cfg: Config, p: Pool, others: multiset<Block>, later: multiset<Block>,
                                       u: Updated, v: Updated)
    requires cfg.blockSize > 0 && UpdatedOk(cfg, p, others + later, u)
    requires UpdatedOk(cfg, u.pool, others + Total(u.running, TableOf), v)
    ensures UpdatedOk(cfg, p, others, Updated(v.pool, u.running + v.running, u.retired + v.retired, u.outputs + v.outputs))
  {
    hide Valid, KeepsHash, ItemsOk, Total;
    IdleConcat(u.running, v.running);
    TotalConcat(u.running, v.running, TableOf);
    ItemsKept(cfg, u.pool, v.pool, others + Total(u.running, TableOf), Idle(u.running));
    ItemsConcat(cfg, v.pool, Idle(u.running), Idle(v.running));
    assert others + Total(u.running, TableOf) + Total(v.running, TableOf) == others + Total(u.running + v.running, TableOf);
    KeepsFewer(u.pool, v.pool, others, Total(u.running, TableOf));
    KeepsOnward(p, u.pool, v.pool, others, later);
  }

  /** Taking a step's results restores the invariant between steps. */
  lemma {:induction false} UpdateOk(cfg: Config, m: Mid, sampled: seq<Token>)
    requires cfg.blockSize > 0 && MidOk(cfg, m) && m.todo == [] && |sampled| == NumSampled(m.items)
    ensures StateOk(cfg, Update(cfg, m, sampled).0)
  {
    hide Valid, CpuValid, Unique, ItemsOk, QueuesOk, KeepsHash, Total, UpdateItems;
    var u := UpdateItems(cfg, m.pool, m.items, sampled);
    var none: multiset<Block> := multiset{};
    assert Seqs(m.todo) == [];
    NoTotal(TableOf);
    NoTotal(IdOf);
    assert Held(m.items, m.todo) == none + Total(Seqs(m.items), TableOf);
    UpdateItemsOk(cfg, m.pool, none, m.items, sampled);
    var st := Update(cfg, m, sampled).0;
    IdleConcat(u.running, []);
    assert Held(Idle(st.running), []) == none + Total(u.running, TableOf);
    FewerUnique(Ids(m), Ids(Begin(st)));
  }

  lemma {:induction false} NoTotal<T>(f: Seq -> multiset<T>)
    ensures Total([], f) == multiset{}
  {
  }
}
