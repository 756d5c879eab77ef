// Progress: whenever there is work, planning a step schedules somebody or reports a failure, so the
// watchdog never fires.
module Progress {
  import opened Basics
  import opened Paging
  import opened BlockPool
  import opened Transformer
  import opened Streaming
  import opened Scheduling
  import opened Accounting
  import opened Planning
  import opened Stepping
  import opened Census
  import opened EngineRun
  import opened Exhaustion

  /** Planning goes on from m to r: what is visited stays visited, what is reported stays reported. */
  ghost predicate GoesOn(m: Mid, r: Mid) {
    m.items <= r.items && m.outputs <= r.outputs
  }

  /** Somebody has been scheduled first, or a failure has been reported. */
  ghost predicate Moved(m: Mid) {
    (m.items != [] && m.items[0].n >= 1) || m.outputs != []
  }

  lemma {:induction false} MovedOn(m: Mid, r: Mid)
    requires Moved(m) && GoesOn(m, r)
    ensures Moved(r)
  {
  }
  lemma {:induction false} FailGoesOn(m: Mid, s: Seq)
    ensures GoesOn(m, Fail(m, s)) && Moved(Fail(m, s)) && Fail(m, s).outputs != []
  {
    hide FreeTable;
    FailAppends(m, s);
  }

  lemma {:induction false} RunLoopGoesOn(cfg: Config, m: Mid)
    requires cfg.blockSize > 0
    ensures GoesOn(m, RunLoop(cfg, m))
    decreases |m.todo|
  {
    hide CanAppend, Fail, AppendSlots, SwapOut, FreeSeq;
    if m.todo != [] {
      if m.todo[0].n == 0 {
        RunLoopGoesOn(cfg, SkipHead(m));
      } else if CanAppend(cfg, m.pool, m.todo[0].s, m.todo[0].n) {
        RunLoopGoesOn(cfg, AppendHead(cfg, m));
      } else if |m.todo| > 1 {
        RunLoopGoesOn(cfg, PreemptNewest(cfg, m));
      } else if m.items == [] {
        FailGoesOn(m.(todo := m.todo[1..]), m.todo[0].s);
      }
    }
  }

  /** r schedules s first, or reports a failure. */
  ghost predicate HeadServed(s: Seq, r: Mid) {
    r.outputs != []
    || (r.items != [] && r.items[0].n >= 1 && r.items[0].s.id == s.id && r.items[0].s.gen == s.gen && r.items[0].s.computed == s.computed)
  }

  lemma {:induction false} HeadServedOn(s: Seq, m: Mid, r: Mid)
    requires HeadServed(s, m) && GoesOn(m, r)
    ensures HeadServed(s, r) && Moved(r)
  {
  }

  /** The oldest running sequence is never preempted: it is scheduled, or alone and fails. */
  lemma {:induction false} HeadGetsTurn(cfg: Config, m: Mid)
    requires cfg.blockSize > 0 && m.items == [] && m.todo != [] && m.todo[0].n >= 1
    ensures HeadServed(m.todo[0].s, RunLoop(cfg, m)) && Moved(RunLoop(cfg, m))
    decreases |m.todo|
  {
    hide CanAppend, Fail, SwapOut, FreeSeq, Grow;
    if CanAppend(cfg, m.pool, m.todo[0].s, m.todo[0].n) {
      RunLoopGoesOn(cfg, AppendHead(cfg, m));
      HeadServedOn(m.todo[0].s, AppendHead(cfg, m), RunLoop(cfg, m));
    } else if |m.todo| > 1 {
      HeadGetsTurn(cfg, PreemptNewest(cfg, m));
    } else {
      FailGoesOn(m.(todo := m.todo[1..]), m.todo[0].s);
    }
  }

  lemma {:induction false} FewDecodes(running: seq<Seq>)
    ensures CountDecodes(running) <= |running|
    ensures running != [] && Uncomputed(running[0]) != 1 ==> CountDecodes(running) < |running|
    decreases |running|
  {
    if running != [] {
      FewDecodes(running[1..]);
    }
  }

  /** The plan gives the oldest running sequence at least one token. */
  lemma {:induction false} PlanHead(cfg: Config, running: seq<Seq>)
    requires ConfigOk(cfg) && running != [] && |running| <= cfg.maxNumSeqs && Uncomputed(running[0]) >= 1
    ensures Plan(cfg, running) != [] && Plan(cfg, running)[0].n >= 1 && Plan(cfg, running)[0].s == running[0]
  {
    FewDecodes(running);
  }

  lemma {:induction false} RunningGetsTurn(cfg: Config, m: Mid)
    requires ConfigOk(cfg) && MidOk(cfg, m) && m.todo == [] && m.items != []
    ensures HeadServed(m.items[0].s, ScheduleRunning(cfg, m)) && Moved(ScheduleRunning(cfg, m))
  {
    hide RunLoop, Valid, CpuValid, Unique, QueuesOk, TodosOk, RunOk, RequestOk;
    assert ItemOk(cfg, m.pool, m.items[0]);
    PlanHead(cfg, Seqs(m.items));
    HeadGetsTurn(cfg, m.(items := [], todo := Plan(cfg, Seqs(m.items))));
  }

  lemma {:induction false} ScheduleRunningKeepsOutputs(cfg: Config, m: Mid)
    requires cfg.blockSize > 0
    ensures m.outputs <= ScheduleRunning(cfg, m).outputs
  {
    RunLoopGoesOn(cfg, m.(items := [], todo := Plan(cfg, Seqs(m.items))));
  }

  lemma {:induction false} NothingRunning(cfg: Config, m: Mid)
    requires cfg.blockSize > 0 && m.items == [] && m.todo == []
    ensures ScheduleRunning(cfg, m) == m
  {
    var plan := Plan(cfg, Seqs(m.items));
    assert Seqs(m.items) == [] && plan == [];
  }

  lemma {:induction false} SwapInLoopGoesOn(cfg: Config, m: Mid, budget: Option<int>)
    requires cfg.blockSize > 0
    ensures GoesOn(m, SwapInLoop(cfg, m, budget))
    decreases |m.swapped|
  {
    hide CanSwapIn, Fail, SwapIn, AppendSlots;
    if m.swapped != [] && |m.items| < cfg.maxNumSeqs {
      var n := SwapInTokens(m.swapped[0], budget);
      if n > 0 {
        if CanSwapIn(cfg, m.pool, m.swapped[0], n, m.items != []) {
          SwapInLoopGoesOn(cfg, SwapInOne(cfg, m, n), Spend(budget, n));
        } else if m.items == [] {
          var m1 := m.(swapped := m.swapped[1..]);
          FailGoesOn(m1, m.swapped[0]);
          FailShape(m1, m.swapped[0]);
          SwapInLoopGoesOn(cfg, FailSwapped(m), budget);
        }
      }
    }
  }

  /** With nothing running, the oldest swapped sequence comes back or fails. */
  lemma {:induction false} SwapInProgresses(cfg: Config, m: Mid, budget: Option<int>)
    requires ConfigOk(cfg) && MidOk(cfg, m) && m.items == [] && m.swapped != [] && SwapInTokens(m.swapped[0], budget) >= 1
    ensures Moved(SwapInLoop(cfg, m, budget))
  {
    hide CanSwapIn, Fail, SwapIn, AppendSlots, MidOk, SwapInTokens;
    var n := SwapInTokens(m.swapped[0], budget);
    if CanSwapIn(cfg, m.pool, m.swapped[0], n, false) {
      SwapInLoopGoesOn(cfg, SwapInOne(cfg, m, n), Spend(budget, n));
      MovedOn(SwapInOne(cfg, m, n), SwapInLoop(cfg, m, budget));
    } else {
      FailGoesOn(m.(swapped := m.swapped[1..]), m.swapped[0]);
      SwapInLoopGoesOn(cfg, FailSwapped(m), budget);
      MovedOn(FailSwapped(m), SwapInLoop(cfg, m, budget));
    }
  }

  lemma {:induction false} AdmitLoopGoesOn(cfg: Config, m: Mid, budget: int)
    requires cfg.blockSize > 0
    ensures GoesOn(m, AdmitLoop(cfg, m, budget))
    decreases |m.preempted| + |m.waiting|
  {
    hide Admissible, CachedPrefix, AdmitTokens, BlocksFor, Fail, Allocate;
    if budget > 0 && |m.items| < cfg.maxNumSeqs && NextUp(m).Some? {
      if BlocksFor(cfg.blockSize, NumTokens(NextUp(m).value)) > cfg.numBlocks {
        FailGoesOn(PopNextUp(m), NextUp(m).value);
        FailShape(PopNextUp(m), NextUp(m).value);
        AdmitLoopGoesOn(cfg, FailNext(m), budget);
      } else {
        var (s, cached) := CachedPrefix(cfg, m.pool, NextUp(m).value);
        if Admissible(cfg, m, s, cached, budget) {
          var n := AdmitTokens(cfg, s, cached, budget);
          AdmissibleTokens(cfg, m, s, cached, budget);
          AdmitLoopGoesOn(cfg, AdmitOne(cfg, m, s, n, cached), budget - n);
        }
      }
    }
  }

  /** With nothing running every cached hit is unreferenced. */
  lemma {:induction false} AllPinned(n: nat, p: Pool, cached: seq<Block>)
    requires Valid(n, p, multiset{})
    ensures Pinned(p, cached) == |cached|
    decreases |cached|
  {
    if cached != [] {
      AllPinned(n, p, cached[1..]);
    }
  }

  lemma {:induction false} NobodyHolds(cfg: Config, m: Mid)
    requires cfg.blockSize > 0 && MidOk(cfg, m) && m.items == [] && m.todo == []
    ensures Valid(cfg.numBlocks, m.pool, multiset{}) && NumFree(m.pool) == cfg.numBlocks
  {
    hide CpuValid, Unique, QueuesOk, ItemsOk, TodosOk, Valid;
    AloneFree(cfg, m);
    assert Seqs(m.items) == [] && Seqs(m.todo) == [];
    assert Held(m.items, m.todo) == multiset{};
  }

  /** A lone request is offered at least one token and no more than the budget. */
  lemma {:induction false} LoneTokens(cfg: Config, s: Seq, cached: seq<Block>, budget: int)
    requires cfg.blockSize > 0 && RequestOk(cfg, s) && |cached| * cfg.blockSize < NumTokens(s)
    requires budget > 0 && (!cfg.chunked ==> budget >= cfg.serving.maxModelLen)
    ensures 1 <= AdmitTokens(cfg, s, cached, budget) <= budget
    ensures |cached| * cfg.blockSize + AdmitTokens(cfg, s, cached, budget) <= NumTokens(s)
  {
    hide HashesOk;
  }

  lemma {:induction false} LoneFits(cfg: Config, p: Pool, n: nat, cached: seq<Block>, tokens: nat)
    requires cfg.blockSize > 0 && Valid(cfg.numBlocks, p, multiset{}) && NumFree(p) == cfg.numBlocks
    requires |cached| * cfg.blockSize + n <= tokens && BlocksFor(cfg.blockSize, tokens) <= cfg.numBlocks
    ensures CanAllocate(cfg, p, n, cached, false)
  {
    hide Valid, BlocksFor, NumFree;
    AllPinned(cfg.numBlocks, p, cached);
    BlocksForMono(cfg.blockSize, |cached| * cfg.blockSize + n, tokens);
  }

  /** With nothing running, a request that fits the pool is admitted at once. */
  lemma {:induction false} AdmissibleAlone(cfg: Config, m: Mid, budget: int)
    requires ConfigOk(cfg) && MidOk(cfg, m) && m.items == [] && m.todo == [] && NextUp(m).Some?
    requires BlocksFor(cfg.blockSize, NumTokens(NextUp(m).value)) <= cfg.numBlocks
    requires budget > 0 && (!cfg.chunked ==> budget >= cfg.serving.maxModelLen)
    ensures var (s, cached) := CachedPrefix(cfg, m.pool, NextUp(m).value);
      Admissible(cfg, m, s, cached, budget) && AdmitTokens(cfg, s, cached, budget) >= 1
  {
    NobodyHolds(cfg, m);
    QueuesPop(cfg, m);
    hide MidOk, QueuesOk, Valid, NumFree, CachedPrefix, CanAllocate, AdmitTokens, RequestOk, BlocksFor, HashOf,
      PrefixHash, Distinct;
    var s0 := NextUp(m).value;
    var (s, cached) := CachedPrefix(cfg, m.pool, s0);
    CachedPrefixOk(cfg, m.pool, multiset{}, s0);
    LoneTokens(cfg, s, cached, budget);
    LoneFits(cfg, m.pool, AdmitTokens(cfg, s, cached, budget), cached, NumTokens(s0));
  }

  lemma {:induction false} AdmitProgresses(cfg: Config, m: Mid, budget: int)
    requires ConfigOk(cfg) && MidOk(cfg, m) && m.items == [] && m.todo == [] && NextUp(m).Some?
    requires budget > 0 && (!cfg.chunked ==> budget >= cfg.serving.maxModelLen)
    ensures Moved(AdmitLoop(cfg, m, budget))
  {
    hide MidOk, Ids, Admissible, CachedPrefix, AdmitTokens, BlocksFor, Fail, Allocate;
    if BlocksFor(cfg.blockSize, NumTokens(NextUp(m).value)) > cfg.numBlocks {
      FailGoesOn(PopNextUp(m), NextUp(m).value);
      AdmitLoopGoesOn(cfg, FailNext(m), budget);
      MovedOn(FailNext(m), AdmitLoop(cfg, m, budget));
    } else {
      AdmissibleAlone(cfg, m, budget);
      var (s, cached) := CachedPrefix(cfg, m.pool, NextUp(m).value);
      var n := AdmitTokens(cfg, s, cached, budget);
      AdmitLoopGoesOn(cfg, AdmitOne(cfg, m, s, n, cached), budget - n);
      MovedOn(AdmitOne(cfg, m, s, n, cached), AdmitLoop(cfg, m, budget));
    }
  }

  // --- whole steps -----------------------------------------------------------------------------------------------

  /** The first item is the oldest running sequence; once it has tokens the batch is not empty. */
  ghost predicate Progresses(m: Mid) {
    Batch(m.items) != [] || m.outputs != []
  }

  lemma {:induction false} MovedProgresses(m: Mid)
    requires Moved(m)
    ensures Progresses(m)
  {
    BatchEmptyIdle(m.items);
  }

  lemma {:induction false} SwappedHasTokens(cfg: Config, m: Mid)
    requires cfg.blockSize > 0 && MidOk(cfg, m) && m.swapped != []
    ensures Uncomputed(m.swapped[0]) >= 1
  {
    assert SwappedOk(cfg, m.swapped[0]);
  }

  lemma {:induction false} ChunkedProgresses(cfg: Config, m: Mid)
    requires ConfigOk(cfg) && cfg.chunked && MidOk(cfg, m) && m.todo == [] && AllIdle(m.items) && m.numPreempted == 0
    requires m.items != [] || m.swapped != [] || NextUp(m).Some?
    ensures Moved(ScheduleChunked(cfg, m))
    ensures m.items != [] ==> HeadServed(m.items[0].s, ScheduleChunked(cfg, m))
  {
    hide MidOk, AdmitLoop, SwapInLoop, ScheduleRunning, BatchTokens;
    var m1 := ScheduleRunning(cfg, m);
    var b1 := Some(cfg.maxBatchTokens - BatchTokens(m1.items));
    var m2 := SwapInLoop(cfg, m1, b1);
    var b2 := cfg.maxBatchTokens - BatchTokens(m2.items);
    SwapInLoopGoesOn(cfg, m1, b1);
    AdmitLoopGoesOn(cfg, m2, b2);
    if m.items != [] {
      RunningGetsTurn(cfg, m);
      if m1.numPreempted == 0 {
        HeadServedOn(m.items[0].s, m1, m2);
        HeadServedOn(m.items[0].s, m2, AdmitLoop(cfg, m2, b2));
      }
    } else {
      NothingRunning(cfg, m);
      NoTokens();
      if m.swapped != [] {
        SwappedHasTokens(cfg, m);
        SwapInProgresses(cfg, m1, b1);
        MovedOn(m2, AdmitLoop(cfg, m2, b2));
      } else {
        NoSwapped(cfg, m1, b1);
        AdmitProgresses(cfg, m2, b2);
      }
    }
  }

  lemma {:induction false} NoTokens()
    ensures BatchTokens([]) == 0
  {
  }

  lemma {:induction false} NoSwapped(cfg: Config, m: Mid, budget: Option<int>)
    requires cfg.blockSize > 0 && m.swapped == []
    ensures SwapInLoop(cfg, m, budget) == m
  {
  }

  /** In prefill-priority mode an iteration that admits nobody decodes. */
  lemma {:induction false} DecodeProgresses(cfg: Config, m: Mid)
    requires ConfigOk(cfg) && MidOk(cfg, m) && m.todo == [] && AllIdle(m.items) && m.numPreempted == 0
    requires m.items != [] || m.swapped != [] || m.outputs != []
    ensures var m2 := ScheduleRunning(cfg, m);
      Moved(if m2.numPreempted == 0 then SwapInLoop(cfg, m2, None) else m2)
  {
    hide MidOk, SwapInLoop, ScheduleRunning;
    var m2 := ScheduleRunning(cfg, m);
    SwapInLoopGoesOn(cfg, m2, None);
    if m.items != [] {
      RunningGetsTurn(cfg, m);
      MovedOn(m2, SwapInLoop(cfg, m2, None));
    } else if m.swapped != [] {
      NothingRunning(cfg, m);
      SwappedHasTokens(cfg, m);
      SwapInProgresses(cfg, m, None);
    } else {
      ScheduleRunningKeepsOutputs(cfg, m);
    }
  }

  lemma {:induction false} PriorityProgresses(cfg: Config, m: Mid)
    requires ConfigOk(cfg) && !cfg.chunked && MidOk(cfg, m) && m.todo == [] && AllIdle(m.items) && m.numPreempted == 0
    requires m.items != [] || m.swapped != [] || NextUp(m).Some?
    ensures Progresses(SchedulePrefillPriority(cfg, m))
  {
    hide MidOk, AdmitLoop, SwapInLoop, ScheduleRunning, Batch;
    var m1 := if m.swapped == [] then AdmitLoop(cfg, m, cfg.maxBatchTokens) else m;
    AdmitLoopGoesOn(cfg, m, cfg.maxBatchTokens);
    AdmitLoopOk(cfg, m, cfg.maxBatchTokens);
    AdmitLoopCounts(cfg, m, cfg.maxBatchTokens);
    BatchEmptyIdle(m1.items);
    if Batch(m1.items) == [] {
      if m.items == [] && m.swapped == [] {
        AdmitProgresses(cfg, m, cfg.maxBatchTokens);
        MovedProgresses(m1);
      }
      DecodeProgresses(cfg, m1);
      var m2 := ScheduleRunning(cfg, m1);
      MovedProgresses(if m2.numPreempted == 0 then SwapInLoop(cfg, m2, None) else m2);
    }
  }

  /** Admissions preempt nobody. */
  lemma {:induction false} AdmitLoopCounts(cfg: Config, m: Mid, budget: int)
    requires cfg.blockSize > 0
    ensures AdmitLoop(cfg, m, budget).numPreempted == m.numPreempted
    ensures AdmitLoop(cfg, m, budget).swapOut == m.swapOut && AdmitLoop(cfg, m, budget).swapIn == m.swapIn
    ensures AdmitLoop(cfg, m, budget).swapped == m.swapped
    decreases |m.preempted| + |m.waiting|
  {
    hide Admissible, CachedPrefix, AdmitTokens, BlocksFor, Fail, Allocate;
    if budget > 0 && |m.items| < cfg.maxNumSeqs && NextUp(m).Some? {
      if BlocksFor(cfg.blockSize, NumTokens(NextUp(m).value)) > cfg.numBlocks {
        FailShape(PopNextUp(m), NextUp(m).value);
        AdmitLoopCounts(cfg, FailNext(m), budget);
      } else {
        var (s, cached) := CachedPrefix(cfg, m.pool, NextUp(m).value);
        if Admissible(cfg, m, s, cached, budget) {
          var n := AdmitTokens(cfg, s, cached, budget);
          AdmissibleTokens(cfg, m, s, cached, budget);
          AdmitLoopCounts(cfg, AdmitOne(cfg, m, s, n, cached), budget - n);
        }
      }
    }
  }

  /** With work pending, planning a step schedules somebody or reports a failure. */
  lemma {:induction false} ScheduleProgresses(cfg: Config, st: State)
    requires ConfigOk(cfg) && StateOk(cfg, st) && HasWork(st)
    ensures Progresses(Schedule(cfg, st))
  {
    hide MidOk, ScheduleChunked, SchedulePrefillPriority, Batch;
    var m := Begin(st);
    if cfg.chunked {
      ChunkedProgresses(cfg, m);
      MovedProgresses(ScheduleChunked(cfg, m));
    } else {
      PriorityProgresses(cfg, m);
    }
  }

  lemma {:induction false} NoCoresNoWork(cfg: Config, st: State)
    requires LiveCores(Begin(st)) == multiset{}
    ensures !HasWork(st)
  {
    IdleConcat(st.running, []);
    hide Core;
    assert Total(st.running, CoreOf) <= LiveCores(Begin(st));
    assert Total(st.swapped, CoreOf) <= LiveCores(Begin(st));
    assert Total(st.preempted, CoreOf) <= LiveCores(Begin(st));
    assert Total(st.waiting, CoreOf) <= LiveCores(Begin(st));
    SomeCore(st.running);
    SomeCore(st.swapped);
    SomeCore(st.preempted);
    SomeCore(st.waiting);
  }

  lemma {:induction false} SomeCore(seqs: seq<Seq>)
    ensures Total(seqs, CoreOf) == multiset{} ==> seqs == []
  {
    hide Core;
    if seqs != [] {
      assert Core(seqs[0]) in CoreOf(seqs[0]);
      assert Core(seqs[0]) in Total(seqs, CoreOf);
    }
  }

  /** An engine without work stays without work. */
  lemma {:induction false} IdleStaysIdle(cfg: Config, st: State)
    requires cfg.blockSize > 0 && StateOk(cfg, st) && !HasWork(st)
    ensures !HasWork(Planned(Schedule(cfg, st)))
  {
    hide StateOk, Schedule, LiveCores, Total;
    var m := Schedule(cfg, st);
    var gone := ScheduleMoves(cfg, st);
    assert LiveCores(Begin(st)) == multiset{} by {
      NoWorkNoCores(st);
    }
    assert LiveCores(m) == multiset{};
    PlannedCores(m);
    NoCoresNoWork(cfg, Planned(m));
  }

  lemma {:induction false} NoWorkNoCores(st: State)
    requires !HasWork(st)
    ensures LiveCores(Begin(st)) == multiset{}
  {
    assert Seqs(Begin(st).items) == [] && Seqs(Begin(st).todo) == [];
  }

  lemma {:induction false} PlannedCores(m: Mid)
    ensures LiveCores(m) == LiveCores(Begin(Planned(m))) + Total(Seqs(m.todo), CoreOf)
  {
    IdleConcat(Seqs(m.items), []);
    assert Seqs(Begin(Planned(m)).todo) == [];
    NoTotal(CoreOf);
    hide Total, Core;
  }

  /** The watchdog's error is unreachable. */
  lemma {:induction false} NeverStuck(cfg: Config, model: Model, e: Engine)
    requires ConfigOk(cfg) && EngineOk(cfg, model, e)
    ensures StepEngine(cfg, model, e).Done?
  {
    hide StateOk, Schedule, Batch, RunBatch, Update;
    if HasWork(e.st) {
      ScheduleProgresses(cfg, e.st);
    } else {
      IdleStaysIdle(cfg, e.st);
    }
  }
}
