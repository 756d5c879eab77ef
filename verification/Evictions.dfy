// Least recently used, over whole runs: whatever the requests do, no block gives up its cached content while a
// block released before it keeps its own.
module Evictions {
  import opened Basics
  import opened Paging
  import opened BlockPool
  import opened Transformer
  import opened Streaming
  import opened Scheduling
  import opened Accounting
  import opened Planning
  import opened Stepping
  import opened Memory
  import opened KvKept
  import opened Execute
  import opened EngineRun
  import opened Requests
  import opened Results
  import opened Lru
  import Guarantees
  import Modes

  // --- one decision ----------------------------------------------------------------------------------------------------

  lemma {:induction false} FreeSeqAged(cfg: Config, p: Pool, others: multiset<Block>, s: Seq)
    requires Valid(cfg.numBlocks, p, others + multiset(s.table)) && InOrder(p)
    ensures Aged(p, FreeSeq(p, s).0)
  {
    hide Valid, InOrder, Aged;
    FreeAged(cfg.numBlocks, p, others + multiset(s.table), s.table);
  }

  lemma {:induction false} ThenHosts(p: Pool, q: Pool, hosts: seq<Block>)
    requires Aged(p, q)
    ensures Aged(p, q.(cpuFree := hosts))
  {
    hide InOrder, OldOnes, OldestGo;
    SameList(q, q.(cpuFree := hosts));
    AgedThen(p, q, q.(cpuFree := hosts));
  }

  lemma {:induction false} AppendHeadAged(cfg: Config, m: Mid)
    requires cfg.blockSize > 0 && m.todo != [] && InOrder(m.pool)
    ensures Aged(m.pool, AppendHead(cfg, m).pool)
  {
    hide InOrder, Aged, Grow;
    GrowAged(m.pool, Needed(cfg, m.todo[0].s, m.todo[0].n));
  }

  lemma {:induction false} PreemptAged(cfg: Config, m: Mid, s: Seq)
    requires cfg.blockSize > 0 && OkBut(cfg, m, s) && InOrder(m.pool)
    ensures Aged(m.pool, Preempt(cfg, m, s).pool)
  {
    hide Valid, CpuValid, Unique, ItemsOk, TodosOk, QueuesOk, InOrder, Aged, FreeTable, Total;
    var v := s.(status := Preempted);
    var others := Held(m.items, m.todo);
    if cfg.swap && CanSwapOut(m.pool, v) {
      var p1 := m.pool.(cpuFree := m.pool.cpuFree[|v.table|..]);
      SameList(m.pool, p1);
      Ends(m.pool, p1);
      ValidCpuFree(cfg.numBlocks, m.pool, others + multiset(s.table), p1.cpuFree);
      FreeSeqAged(cfg, p1, others, s);
      AgedThen(m.pool, p1, FreeTable(p1, s.table));
    } else {
      FreeSeqAged(cfg, m.pool, others, s);
    }
  }

  lemma {:induction false} PreemptNewestAged(cfg: Config, m: Mid)
    requires cfg.blockSize > 0 && m.todo != [] && MidOk(cfg, m) && InOrder(m.pool)
    ensures Aged(m.pool, PreemptNewest(cfg, m).pool)
  {
    hide MidOk, OkBut, TodoOk, InOrder, Aged, Preempt;
    TakeNewest(cfg, m);
    PreemptAged(cfg, m.(todo := m.todo[..|m.todo| - 1]), m.todo[|m.todo| - 1].s);
  }

  lemma {:induction false} FailAged(cfg: Config, m: Mid, s: Seq)
    requires cfg.blockSize > 0 && OkBut(cfg, m, s) && InOrder(m.pool)
    ensures Aged(m.pool, Fail(m, s).pool)
  {
    hide Valid, CpuValid, Unique, ItemsOk, TodosOk, QueuesOk, InOrder, Aged, FreeTable, Total;
    FreeSeqAged(cfg, m.pool, Held(m.items, m.todo), s);
    var q := FreeTable(m.pool, s.table);
    ThenHosts(m.pool, q, q.cpuFree + s.cpuTable);
  }

  lemma {:induction false} SwapInOneAged(cfg: Config, m: Mid, n: nat)
    requires cfg.blockSize > 0 && m.swapped != [] && InOrder(m.pool)
    ensures Aged(m.pool, SwapInOne(cfg, m, n).pool)
  {
    hide InOrder, Aged, Grow, BlocksFor;
    var s := m.swapped[0];
    var p1 := SwapIn(m.pool, s).0;
    var q := Grow(m.pool, |s.cpuTable|).0;
    GrowAged(m.pool, |s.cpuTable|);
    ThenHosts(m.pool, q, p1.cpuFree);
    Ends(m.pool, p1);
    var s1 := SwapIn(m.pool, s).1;
    GrowAged(p1, Needed(cfg, s1, n));
    AgedThen(m.pool, p1, Grow(p1, Needed(cfg, s1, n)).0);
  }

  lemma {:induction false} AdmitOneAged(cfg: Config, m: Mid, s: Seq, n: nat, cached: seq<Block>)
    requires cfg.blockSize > 0 && InOrder(m.pool)
    ensures Aged(m.pool, AdmitOne(cfg, m, s, n, cached).pool)
  {
    hide InOrder, Aged, Grow, PinAll, BlocksFor;
    var p1 := PinAll(m.pool, cached);
    PinAllAged(m.pool, cached);
    Ends(m.pool, p1);
    var s1 := s.(table := cached, computed := |cached| * cfg.blockSize, registered := |cached|);
    GrowAged(p1, Needed(cfg, s1, n));
    AgedThen(m.pool, p1, Grow(p1, Needed(cfg, s1, n)).0);
  }

  // --- one step --------------------------------------------------------------------------------------------------------

  lemma {:induction false} RunLoopAged(cfg: Config, m: Mid)
    requires cfg.blockSize > 0 && MidOk(cfg, m) && InOrder(m.pool)
    ensures Aged(m.pool, RunLoop(cfg, m).pool)
    decreases |m.todo|, 0
  {
    hide MidOk, Ids, CanAppend, OkBut, TodoOk, Fail, AppendSlots, FreeSeq, InOrder, Aged;
    SameList(m.pool, m.pool);
    if m.todo != [] {
      if m.todo[0].n == 0 {
        SkipHeadOk(cfg, m);
        RunLoopAged(cfg, SkipHead(m));
      } else if CanAppend(cfg, m.pool, m.todo[0].s, m.todo[0].n) {
        AppendHeadOk(cfg, m);
        AppendHeadAged(cfg, m);
        RunOnward(cfg, m, AppendHead(cfg, m));
      } else if |m.todo| > 1 {
        PreemptNewestOk(cfg, m);
        PreemptNewestAged(cfg, m);
        RunOnward(cfg, m, PreemptNewest(cfg, m));
      } else if m.items == [] {
        TakeHead(cfg, m);
        FailAged(cfg, m.(todo := m.todo[1..]), m.todo[0].s);
      } else {
        PreemptNewestAged(cfg, m);
      }
    }
  }

  lemma {:induction false} RunOnward(cfg: Config, m: Mid, m1: Mid)
    requires cfg.blockSize > 0 && MidOk(cfg, m1) && Aged(m.pool, m1.pool)
    ensures Aged(m.pool, RunLoop(cfg, m1).pool)
    decreases |m1.todo|, 1
  {
    hide MidOk, RunLoop, Aged;
    Ends(m.pool, m1.pool);
    RunLoopAged(cfg, m1);
    AgedThen(m.pool, m1.pool, RunLoop(cfg, m1).pool);
  }

  lemma {:induction false} SwapInLoopAged(cfg: Config, m: Mid, budget: Option<int>)
    requires cfg.blockSize > 0 && MidOk(cfg, m) && m.todo == [] && InOrder(m.pool)
    ensures Aged(m.pool, SwapInLoop(cfg, m, budget).pool)
    decreases |m.swapped|, 0
  {
    hide MidOk, Ids, OkBut, CanSwapIn, SwapInTokens, Fail, SwapIn, AppendSlots, InOrder, Aged;
    SameList(m.pool, m.pool);
    if m.swapped != [] && |m.items| < cfg.maxNumSeqs {
      var n := SwapInTokens(m.swapped[0], budget);
      if n > 0 {
        if CanSwapIn(cfg, m.pool, m.swapped[0], n, m.items != []) {
          SwapInTokensOk(cfg, m, budget);
          SwapInOneOk(cfg, m, n);
          SwapInOneAged(cfg, m, n);
          SwapOnward(cfg, m, SwapInOne(cfg, m, n), Spend(budget, n));
        } else if m.items == [] {
          FailSwappedOk(cfg, m);
          TakeSwapped(cfg, m);
          FailAged(cfg, m.(swapped := m.swapped[1..]), m.swapped[0]);
          FailShape(m.(swapped := m.swapped[1..]), m.swapped[0]);
          SwapOnward(cfg, m, FailSwapped(m), budget);
        }
      }
    }
  }

  lemma {:induction false} SwapOnward(cfg: Config, m: Mid, m1: Mid, budget: Option<int>)
    requires cfg.blockSize > 0 && MidOk(cfg, m1) && m1.todo == [] && Aged(m.pool, m1.pool)
    ensures Aged(m.pool, SwapInLoop(cfg, m1, budget).pool)
    decreases |m1.swapped|, 1
  {
    hide MidOk, SwapInLoop, Aged;
    Ends(m.pool, m1.pool);
    SwapInLoopAged(cfg, m1, budget);
    AgedThen(m.pool, m1.pool, SwapInLoop(cfg, m1, budget).pool);
  }

  lemma {:induction false} AdmitLoopAged(cfg: Config, m: Mid, budget: int)
    requires cfg.blockSize > 0 && MidOk(cfg, m) && m.todo == [] && InOrder(m.pool)
    ensures Aged(m.pool, AdmitLoop(cfg, m, budget).pool)
    decreases |m.preempted| + |m.waiting|, 0
  {
    hide MidOk, Ids, OkBut, Admissible, CachedPrefix, AdmitTokens, BlocksFor, Fail, Allocate, InOrder, Aged;
    SameList(m.pool, m.pool);
    if budget > 0 && |m.items| < cfg.maxNumSeqs && NextUp(m).Some? {
      if BlocksFor(cfg.blockSize, NumTokens(NextUp(m).value)) > cfg.numBlocks {
        FailNextOk(cfg, m);
        FailNextAged(cfg, m);
        FailShape(PopNextUp(m), NextUp(m).value);
        AdmitOnward(cfg, m, FailNext(m), budget);
      } else {
        var (s, cached) := CachedPrefix(cfg, m.pool, NextUp(m).value);
        if Admissible(cfg, m, s, cached, budget) {
          var n := AdmitTokens(cfg, s, cached, budget);
          AdmitOneOk(cfg, m, budget);
          AdmitOneAged(cfg, m, s, n, cached);
          AdmitOnward(cfg, m, AdmitOne(cfg, m, s, n, cached), budget - n);
        }
      }
    }
  }

  lemma {:induction false} FailNextAged(cfg: Config, m: Mid)
    requires cfg.blockSize > 0 && NextUp(m).Some? && MidOk(cfg, m) && InOrder(m.pool)
    ensures Aged(m.pool, FailNext(m).pool)
  {
    hide MidOk, OkBut, Fail, InOrder, Aged;
    TakeNext(cfg, m);
    FailAged(cfg, PopNextUp(m), NextUp(m).value);
  }

  lemma {:induction false} AdmitOnward(cfg: Config, m: Mid, m1: Mid, budget: int)
    requires cfg.blockSize > 0 && MidOk(cfg, m1) && m1.todo == [] && Aged(m.pool, m1.pool)
    ensures Aged(m.pool, AdmitLoop(cfg, m1, budget).pool)
    decreases |m1.preempted| + |m1.waiting|, 1
  {
    hide MidOk, AdmitLoop, Aged;
    Ends(m.pool, m1.pool);
    AdmitLoopAged(cfg, m1, budget);
    AgedThen(m.pool, m1.pool, AdmitLoop(cfg, m1, budget).pool);
  }

  lemma {:induction false} ScheduleRunningAged(cfg: Config, m: Mid)
    requires cfg.blockSize > 0 && MidOk(cfg, m) && m.todo == [] && AllIdle(m.items) && InOrder(m.pool)
    ensures Aged(m.pool, ScheduleRunning(cfg, m).pool)
  {
    hide MidOk, RunLoop, Plan, Aged, InOrder, AllIdle;
    ReplanOk(cfg, m);
    RunLoopAged(cfg, m.(items := [], todo := Plan(cfg, Seqs(m.items))));
  }

  /** Running pass, swap-ins and admissions, from a plan with nobody scheduled yet. */
  lemma {:induction false} VisitsAged(cfg: Config, p: Pool, m: Mid)
    requires cfg.blockSize > 0 && MidOk(cfg, m) && m.todo == [] && AllIdle(m.items) && InOrder(p) && Aged(p, m.pool)
    ensures Aged(p, ScheduleRunning(cfg, m).pool)
    ensures forall budget :: Aged(p, SwapInLoop(cfg, ScheduleRunning(cfg, m), budget).pool)
    ensures forall budget, left :: Aged(p, AdmitLoop(cfg, SwapInLoop(cfg, ScheduleRunning(cfg, m), budget), left).pool)
  {
    hide MidOk, ScheduleRunning, SwapInLoop, AdmitLoop, Aged, InOrder, AllIdle;
    var m1 := ScheduleRunning(cfg, m);
    Ends(p, m.pool);
    ScheduleRunningOk(cfg, m);
    ScheduleRunningAged(cfg, m);
    AgedThen(p, m.pool, m1.pool);
    Ends(p, m1.pool);
    forall budget ensures Aged(p, SwapInLoop(cfg, m1, budget).pool) && MidOk(cfg, SwapInLoop(cfg, m1, budget)) && SwapInLoop(cfg, m1, budget).todo == [] {
      SwapInLoopOk(cfg, m1, budget);
      SwapInLoopAged(cfg, m1, budget);
      AgedThen(p, m1.pool, SwapInLoop(cfg, m1, budget).pool);
    }
    forall budget, left ensures Aged(p, AdmitLoop(cfg, SwapInLoop(cfg, m1, budget), left).pool) {
      var m2 := SwapInLoop(cfg, m1, budget);
      Ends(p, m2.pool);
      AdmitLoopAged(cfg, m2, left);
      AgedThen(p, m2.pool, AdmitLoop(cfg, m2, left).pool);
    }
  }

  lemma {:induction false} ScheduleAged(cfg: Config, st: State)
    requires cfg.blockSize > 0 && StateOk(cfg, st) && InOrder(st.pool)
    ensures Aged(st.pool, Schedule(cfg, st).pool)
  {
    hide MidOk, AdmitLoop, SwapInLoop, ScheduleRunning, Batch, BatchTokens, Aged, InOrder;
    var m := Begin(st);
    SameList(st.pool, st.pool);
    if cfg.chunked {
      VisitsAged(cfg, st.pool, m);
    } else {
      AdmitLoopOk(cfg, m, cfg.maxBatchTokens);
      AdmitLoopAged(cfg, m, cfg.maxBatchTokens);
      var m1 := if m.swapped == [] then AdmitLoop(cfg, m, cfg.maxBatchTokens) else m;
      BatchEmptyIdle(m1.items);
      if Batch(m1.items) == [] {
        VisitsAged(cfg, st.pool, m1);
      }
    }
  }

  // --- the tokens of a step --------------------------------------------------------------------------------------------

  lemma {:induction false} UpdateItemAged(cfg: Config, p: Pool, others: multiset<Block>, it: Item, sampled: seq<Token>)
    requires cfg.blockSize > 0 && Valid(cfg.numBlocks, p, others + multiset(it.s.table)) && ItemOk(cfg, p, it) && InOrder(p)
    ensures Aged(p, UpdateItem(cfg, p, it, sampled).pool)
  {
    hide Valid, RunOk, RequestOk, FreeTable, AppendToken, Publish, ExtendHashes, KeepsHash, InOrder, Aged;
    SameList(p, p);
    if it.n > 0 {
      var s0 := it.s.(computed := it.s.computed + it.n);
      var (p1, s1) := Advance(cfg, p, it);
      AdvanceOk(cfg, p, others, it);
      PublishAged(p, s0.table, ExtendHashes(cfg.blockSize, s0.gen.tokens, s0.hashes, s0.computed / cfg.blockSize), s0.registered, s0.computed / cfg.blockSize);
      if Samples(it) && sampled != [] {
        Ends(p, p1);
        FreeSeqAged(cfg, p1, others, s1);
        AgedThen(p, p1, FreeTable(p1, s1.table));
      }
    }
  }

  lemma {:induction false} UpdateItemsAged(cfg: Config, p: Pool, others: multiset<Block>, items: seq<Item>, sampled: seq<Token>)
    requires cfg.blockSize > 0 && Valid(cfg.numBlocks, p, others + Total(Seqs(items), TableOf))
    requires ItemsOk(cfg, p, items) && |sampled| == NumSampled(items) && InOrder(p)
    ensures Aged(p, UpdateItems(cfg, p, items, sampled).pool)
    decreases |items|
  {
    hide Valid, ItemOk, ItemsOk, UpdateItem, UpdatedOk, Total, NumSampled, InOrder, Aged;
    SameList(p, p);
    if items != [] {
      var it, tail := items[0], items[1..];
      UpdateTailReady(cfg, p, others, items, sampled);
      var u := UpdateItem(cfg, p, it, sampled);
      UpdateItemAged(cfg, p, others + Total(Seqs(tail), TableOf), it, sampled);
      Ends(p, u.pool);
      var rest := if Samples(it) && sampled != [] then sampled[1..] else sampled;
      UpdateItemsAged(cfg, u.pool, others + Total(u.running, TableOf), tail, rest);
      AgedThen(p, u.pool, UpdateItems(cfg, u.pool, tail, rest).pool);
    }
  }

  lemma {:induction false} StepAged(cfg: Config, model: Model, e: Engine)
    requires cfg.blockSize > 0 && EngineOk(cfg, model, e) && InOrder(e.st.pool)
    ensures StepEngine(cfg, model, e).Done? ==> Aged(e.st.pool, StepEngine(cfg, model, e).e.st.pool)
  {
    hide MidOk, KvOk, AllOnCourse, AllSettled, Schedule, StepEngine, UpdateItems, ItemsOk, Valid, Total, NumSampled,
      Expected, InOrder, Aged;
    var m := Schedule(cfg, e.st);
    ScheduleOk(cfg, e.st);
    ScheduleAged(cfg, e.st);
    Ends(e.st.pool, m.pool);
    WholePool(cfg, m);
    var sampled := StepIsUpdate(cfg, model, e);
    UpdateItemsAged(cfg, m.pool, multiset{}, m.items, sampled);
    AgedThen(e.st.pool, m.pool, UpdateItems(cfg, m.pool, m.items, sampled).pool);
  }

  // --- whole runs --------------------------------------------------------------------------------------------------------

  lemma {:induction false} AbortAged(cfg: Config, e: Engine, id: int)
    requires cfg.blockSize > 0 && StateOk(cfg, e.st) && InOrder(e.st.pool)
    ensures Aged(e.st.pool, AbortRequest(e, id).st.pool)
  {
    hide FindId, DropId, LiveSeqs, MidOk, OkBut, Fail, InOrder, Aged, AbortRequest, WithoutIt;
    SameList(e.st.pool, e.st.pool);
    AbortsState(e, id);
    if FindId(LiveSeqs(e.st), id).Some? {
      var s := FindId(LiveSeqs(e.st), id).value;
      TakeAborted(cfg, e.st, id);
      AbortPool(cfg, e.st, id);
      SamePoolWithout(e.st, s);
      FailAged(cfg, Begin(WithoutIt(e.st, s)), s);
    }
  }

  /** Aborting looks at no page. */
  lemma {:induction false} AbortsState(e: Engine, id: int)
    ensures AbortRequest(e, id).st == AbortRequest(Engine(e.st, Mem([], [])), id).st
    ensures FindId(LiveSeqs(e.st), id).None? ==> AbortRequest(e, id) == e
  {
    hide FindId, LiveSeqs, DropId;
  }

  lemma {:induction false} SamePoolWithout(st: State, s: Seq)
    ensures WithoutIt(st, s).pool == st.pool
  {
  }

  lemma {:induction false} NextAged(cfg: Config, model: Model, e: Engine, ev: Event)
    requires cfg.blockSize > 0 && EngineOk(cfg, model, e) && InOrder(e.st.pool)
    ensures Next(cfg, model, e, ev).Done? ==> Aged(e.st.pool, Next(cfg, model, e, ev).e.st.pool)
  {
    hide StepEngine, AbortRequest, StateOk, KvOk, AllOnCourse, AllSettled, FindId, Enqueue, Acceptable, InOrder, Aged;
    SameList(e.st.pool, e.st.pool);
    match ev
    case Add(id, prompt, params, arrival, priority) =>
    case Abort(id) => AbortAged(cfg, e, id);
    case Step => StepAged(cfg, model, e);
  }

  lemma {:induction false} RunAged(cfg: Config, model: Model, e: Engine, events: seq<Event>)
    requires cfg.blockSize > 0 && EngineOk(cfg, model, e) && InOrder(e.st.pool)
    ensures Run(cfg, model, e, events).Done? ==> Aged(e.st.pool, Run(cfg, model, e, events).e.st.pool)
    decreases |events|
  {
    hide Next, EngineOk, InOrder, Aged;
    SameList(e.st.pool, e.st.pool);
    if events != [] {
      var r := Next(cfg, model, e, events[0]);
      if r.Done? {
        NextAged(cfg, model, e, events[0]);
        NextOk(cfg, model, e, events[0]);
        Ends(e.st.pool, r.e.st.pool);
        RunAged(cfg, model, r.e, events[1..]);
        if Run(cfg, model, r.e, events[1..]).Done? {
          AgedThen(e.st.pool, r.e.st.pool, Run(cfg, model, r.e, events[1..]).e.st.pool);
        }
      }
    }
  }

  /** Every reachable state's evictable list is in order of last release. And between any two states of a run, a
      published block gives up its content only if it was on that list and every block that stays there was
      released after it. */
  lemma {:induction false} LeastRecentlyUsed(cfg: Config, model: Model, mem: Mem, first: seq<Event>, events: seq<Event>)
    requires ConfigOk(cfg) && MemShape(cfg, model, mem)
    ensures var r := Run(cfg, model, Start(cfg, mem), first);
      && r.Done? && InOrder(r.e.st.pool)
      && var r' := Run(cfg, model, r.e, events);
      && r'.Done? && InOrder(r'.e.st.pool)
      && forall b, c :: Evicted(r.e.st.pool, r'.e.st.pool, b) && Stayed(r.e.st.pool, r'.e.st.pool, c) ==>
           b in r.e.st.pool.evictable && Stamp(r.e.st.pool.released, b) < Stamp(r.e.st.pool.released, c)
  {
    hide Run, EngineOk, Guarantees.FailedOutgrown, Modes.ModeOk, Evicted, Stayed, InOrder, Stamp;
    var e0 := Start(cfg, mem);
    Guarantees.StartSound(cfg, model, mem);
    Guarantees.RunSound(cfg, model, e0, first);
    EmptyInOrder(cfg);
    RunAged(cfg, model, e0, first);
    var e := Run(cfg, model, e0, first).e;
    Guarantees.RunSound(cfg, model, e, events);
    RunAged(cfg, model, e, events);
  }

  lemma {:induction false} EmptyInOrder(cfg: Config)
    ensures InOrder(NewPool(cfg.numBlocks, cfg.numCpuBlocks))
  {
  }
}
