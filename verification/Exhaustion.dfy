// No spurious exhaustion: whatever else is running, a request fails only when it has outgrown the
// whole pool.
module Exhaustion {
  import opened Basics
  import opened Paging
  import opened BlockPool
  import opened Streaming
  import opened Scheduling
  import opened Accounting
  import opened Planning
  import opened Stepping
  import opened Census

  /** The request needs more than the pool, and had what it generated computed within the pool. */
  ghost predicate Outgrown(cfg: Config, s: Seq)
    requires cfg.blockSize > 0
  {
    && 1 <= s.gen.promptLen <= NumTokens(s)
    && s.gen.promptLen + s.params.maxTokens <= cfg.serving.maxModelLen
    && NumOutput(s.gen) < s.params.maxTokens
    && NumTokens(s) > cfg.numBlocks * cfg.blockSize
    && (NumOutput(s.gen) > 0 ==> NumTokens(s) - 1 <= cfg.numBlocks * cfg.blockSize)
  }

  /** A failed request whose prompt fitted has generated exactly one token more than the pool had
      room for after the prompt. */
  lemma {:induction false} OutgrownExactly(cfg: Config, s: Seq)
    requires cfg.blockSize > 0 && Outgrown(cfg, s) && s.gen.promptLen <= cfg.numBlocks * cfg.blockSize
    ensures NumOutput(s.gen) == cfg.numBlocks * cfg.blockSize - s.gen.promptLen + 1
    ensures s.gen.promptLen + s.params.maxTokens - 1 > cfg.numBlocks * cfg.blockSize
  {
  }

  /** When nobody holds a block, the whole pool is free; when one sequence does, all but its table. */
  lemma {:induction false} AloneFree(cfg: Config, m: Mid)
    requires cfg.blockSize > 0 && MidOk(cfg, m)
    ensures m.items == [] && m.todo == [] ==> NumFree(m.pool) == cfg.numBlocks
    ensures m.items == [] && |m.todo| == 1 ==> NumFree(m.pool) == cfg.numBlocks - |m.todo[0].s.table|
  {
    hide CpuValid, QueuesOk, Unique, Valid, ItemsOk, TodosOk;
    if m.items == [] && m.todo == [] {
      assert Seqs(m.items) == [] && Seqs(m.todo) == [];
      assert Held(m.items, m.todo) == multiset{} + multiset([]);
      TableFits(cfg.numBlocks, m.pool, multiset{}, []);
    } else if m.items == [] && |m.todo| == 1 {
      var s := m.todo[0].s;
      assert Seqs(m.items) == [] && Seqs(m.todo) == [s];
      assert Total([s], TableOf) == multiset(s.table);
      assert Held(m.items, m.todo) == multiset{} + multiset(s.table);
      HeadDistinct(cfg, m);
      TableFits(cfg.numBlocks, m.pool, multiset{}, s.table);
    }
  }

  lemma {:induction false} HeadDistinct(cfg: Config, m: Mid)
    requires cfg.blockSize > 0 && MidOk(cfg, m) && m.todo != []
    ensures Distinct(m.todo[0].s.table)
  {
    assert TodoOk(cfg, m.pool, m.todo[0]);
  }

  lemma {:induction false} TooManyBlocks(cfg: Config, s: Seq, n: nat)
    requires cfg.blockSize > 0 && RequestOk(cfg, s) && s.computed + n <= NumTokens(s)
    requires BlocksFor(cfg.blockSize, s.computed + n) > cfg.numBlocks
    ensures Outgrown(cfg, s)
  {
    BlocksForMono(cfg.blockSize, s.computed + n, NumTokens(s));
    BlocksForLeast(cfg.blockSize, NumTokens(s), cfg.numBlocks);
  }

  /** Site one: alone on the running list and still out of blocks. */
  lemma {:induction false} FailHeadOutgrown(cfg: Config, m: Mid)
    requires cfg.blockSize > 0 && MidOk(cfg, m) && m.items == [] && |m.todo| == 1 && m.todo[0].n > 0
    requires !CanAppend(cfg, m.pool, m.todo[0].s, m.todo[0].n)
    ensures Outgrown(cfg, m.todo[0].s)
  {
    AloneFree(cfg, m);
    assert TodoOk(cfg, m.pool, m.todo[0]);
    hide MidOk, RequestOk, TableOk, BlocksFor, NumFree, Outgrown;
    TooManyBlocks(cfg, m.todo[0].s, m.todo[0].n);
  }

  /** Site two: the front swapped sequence with nothing running. */
  lemma {:induction false} FailSwappedOutgrown(cfg: Config, m: Mid, n: nat)
    requires cfg.blockSize > 0 && MidOk(cfg, m) && m.items == [] && m.todo == [] && m.swapped != []
    requires n <= Uncomputed(m.swapped[0]) && !CanSwapIn(cfg, m.pool, m.swapped[0], n, false)
    ensures Outgrown(cfg, m.swapped[0])
  {
    AloneFree(cfg, m);
    assert SwappedOk(cfg, m.swapped[0]);
    hide MidOk, RequestOk, BlocksFor, NumFree, Outgrown;
    TooManyBlocks(cfg, m.swapped[0], n);
  }

  /** Site three: the next request to admit. */
  lemma {:induction false} FailNextOutgrown(cfg: Config, m: Mid)
    requires cfg.blockSize > 0 && MidOk(cfg, m) && NextUp(m).Some?
    requires BlocksFor(cfg.blockSize, NumTokens(NextUp(m).value)) > cfg.numBlocks
    ensures Outgrown(cfg, NextUp(m).value)
  {
    QueuesPop(cfg, m);
    hide MidOk, RequestOk, BlocksFor, Outgrown;
    TooManyBlocks(cfg, NextUp(m).value, NumTokens(NextUp(m).value));
  }

  // --- whole loops -----------------------------------------------------------------------------------------------

  /** Everything that failed since `from` was outgrown. */
  ghost predicate NewOutgrown(cfg: Config, m: Mid, from: nat)
    requires cfg.blockSize > 0
  {
    forall i :: from <= i < |m.retired| ==> Outgrown(cfg, m.retired[i])
  }

  lemma {:induction false} FailOutgrown(cfg: Config, m: Mid, s: Seq, from: nat)
    requires cfg.blockSize > 0 && Outgrown(cfg, s) && NewOutgrown(cfg, m, from)
    ensures NewOutgrown(cfg, Fail(m, s), from)
  {
    hide FreeTable;
    var f := Fail(m, s).retired[|m.retired|];
    assert f.gen == s.gen && f.params == s.params;
    FailAppends(m, s);
  }

  lemma {:induction false} RunLoopOutgrown(cfg: Config, m: Mid, from: nat)
    requires cfg.blockSize > 0 && MidOk(cfg, m) && NewOutgrown(cfg, m, from)
    ensures NewOutgrown(cfg, RunLoop(cfg, m), from)
    decreases |m.todo|
  {
    hide MidOk, CanAppend, Fail, AppendSlots, SwapOut, FreeSeq, Outgrown;
    if m.todo != [] {
      if m.todo[0].n == 0 {
        SkipHeadOk(cfg, m);
        RunLoopOutgrown(cfg, SkipHead(m), from);
      } else if CanAppend(cfg, m.pool, m.todo[0].s, m.todo[0].n) {
        AppendHeadOk(cfg, m);
        RunLoopOutgrown(cfg, AppendHead(cfg, m), from);
      } else if |m.todo| > 1 {
        PreemptNewestOk(cfg, m);
        RunLoopOutgrown(cfg, PreemptNewest(cfg, m), from);
      } else if m.items == [] {
        FailHeadOutgrown(cfg, m);
        FailOutgrown(cfg, m.(todo := m.todo[1..]), m.todo[0].s, from);
      }
    }
  }

  lemma {:induction false} SwapInLoopOutgrown(cfg: Config, m: Mid, budget: Option<int>, from: nat)
    requires cfg.blockSize > 0 && MidOk(cfg, m) && m.todo == [] && NewOutgrown(cfg, m, from)
    ensures NewOutgrown(cfg, SwapInLoop(cfg, m, budget), from)
    decreases |m.swapped|
  {
    hide MidOk, CanSwapIn, Fail, SwapIn, AppendSlots, Outgrown;
    if m.swapped != [] && |m.items| < cfg.maxNumSeqs {
      var n := SwapInTokens(m.swapped[0], budget);
      if n > 0 {
        if CanSwapIn(cfg, m.pool, m.swapped[0], n, m.items != []) {
          SwapInTokensOk(cfg, m, budget);
          SwapInOneOk(cfg, m, n);
          SwapInLoopOutgrown(cfg, SwapInOne(cfg, m, n), Spend(budget, n), from);
        } else if m.items == [] {
          FailSwappedOutgrown(cfg, m, n);
          FailSwappedOk(cfg, m);
          FailOutgrown(cfg, m.(swapped := m.swapped[1..]), m.swapped[0], from);
          FailShape(m.(swapped := m.swapped[1..]), m.swapped[0]);
          SwapInLoopOutgrown(cfg, FailSwapped(m), budget, from);
        }
      }
    }
  }

  lemma {:induction false} AdmitLoopOutgrown(cfg: Config, m: Mid, budget: int, from: nat)
    requires cfg.blockSize > 0 && MidOk(cfg, m) && m.todo == [] && NewOutgrown(cfg, m, from)
    ensures NewOutgrown(cfg, AdmitLoop(cfg, m, budget), from)
    decreases |m.preempted| + |m.waiting|
  {
    hide MidOk, Ids, Admissible, CachedPrefix, AdmitTokens, BlocksFor, Fail, Allocate, Outgrown;
    if budget > 0 && |m.items| < cfg.maxNumSeqs && NextUp(m).Some? {
      if BlocksFor(cfg.blockSize, NumTokens(NextUp(m).value)) > cfg.numBlocks {
        FailNextOutgrown(cfg, m);
        FailNextOk(cfg, m);
        FailOutgrown(cfg, PopNextUp(m), NextUp(m).value, from);
        FailShape(PopNextUp(m), NextUp(m).value);
        AdmitLoopOutgrown(cfg, FailNext(m), budget, from);
      } else {
        var (s, cached) := CachedPrefix(cfg, m.pool, NextUp(m).value);
        if Admissible(cfg, m, s, cached, budget) {
          AdmitOneOk(cfg, m, budget);
          AdmitLoopOutgrown(cfg, AdmitOne(cfg, m, s, AdmitTokens(cfg, s, cached, budget), cached), budget - AdmitTokens(cfg, s, cached, budget), from);
        }
      }
    }
  }

  lemma {:induction false} ScheduleRunningOutgrown(cfg: Config, m: Mid, from: nat)
    requires cfg.blockSize > 0 && MidOk(cfg, m) && m.todo == [] && AllIdle(m.items) && NewOutgrown(cfg, m, from)
    ensures NewOutgrown(cfg, ScheduleRunning(cfg, m), from)
  {
    hide MidOk, RunLoop, Plan, Outgrown;
    ReplanOk(cfg, m);
    RunLoopOutgrown(cfg, m.(items := [], todo := Plan(cfg, Seqs(m.items))), from);
  }

  /** In a whole step, only outgrown requests fail. */
  lemma {:induction false} ScheduleOutgrown(cfg: Config, st: State)
    requires cfg.blockSize > 0 && StateOk(cfg, st)
    ensures NewOutgrown(cfg, Schedule(cfg, st), |st.retired|)
  {
    hide MidOk, AdmitLoop, SwapInLoop, ScheduleRunning, Batch, BatchTokens, NewOutgrown;
    var m, from := Begin(st), |st.retired|;
    assert NewOutgrown(cfg, m, from) by {
      NoneYet(cfg, m);
    }
    if cfg.chunked {
      ScheduleRunningOk(cfg, m);
      ScheduleRunningOutgrown(cfg, m, from);
      var m1 := ScheduleRunning(cfg, m);
      var b1 := Some(cfg.maxBatchTokens - BatchTokens(m1.items));
      SwapInLoopOk(cfg, m1, b1);
      SwapInLoopOutgrown(cfg, m1, b1, from);
      var m2 := SwapInLoop(cfg, m1, b1);
      AdmitLoopOutgrown(cfg, m2, cfg.maxBatchTokens - BatchTokens(m2.items), from);
    } else {
      AdmitLoopOk(cfg, m, cfg.maxBatchTokens);
      AdmitLoopOutgrown(cfg, m, cfg.maxBatchTokens, from);
      var m1 := if m.swapped == [] then AdmitLoop(cfg, m, cfg.maxBatchTokens) else m;
      BatchEmptyIdle(m1.items);
      if Batch(m1.items) == [] {
        ScheduleRunningOk(cfg, m1);
        ScheduleRunningOutgrown(cfg, m1, from);
        SwapInLoopOutgrown(cfg, ScheduleRunning(cfg, m1), None, from);
      }
    }
  }

  lemma {:induction false} NoneYet(cfg: Config, m: Mid)
    requires cfg.blockSize > 0
    ensures NewOutgrown(cfg, m, |m.retired|)
  {
  }
}
