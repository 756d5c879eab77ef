// Swap mode keeps the admission order while every preemption finds room on the host, and a host pool sized for
// as many requests as may run always has that room.
module HostRoom {
  import opened Basics
  import opened Paging
  import opened BlockPool
  import opened Transformer
  import opened Streaming
  import opened Scheduling
  import opened Accounting
  import opened Planning
  import opened Stepping
  import opened Memory
  import opened KvKept
  import opened Census
  import opened Results
  import opened EngineRun
  import opened Requests
  import opened Order
  import Guarantees
  import Modes

  // --- every preemption finds room -------------------------------------------------------------------------------------

  /** Every victim of the running pass fits the host blocks free at that moment. */
  ghost predicate RunFits(cfg: Config, m: Mid)
    requires cfg.blockSize > 0
    decreases |m.todo|
  {
    if m.todo == [] then true
    else if m.todo[0].n == 0 then RunFits(cfg, SkipHead(m))
    else if CanAppend(cfg, m.pool, m.todo[0].s, m.todo[0].n) then RunFits(cfg, AppendHead(cfg, m))
    else if |m.todo| > 1 then CanSwapOut(m.pool, m.todo[|m.todo| - 1].s) && RunFits(cfg, PreemptNewest(cfg, m))
    else m.items == [] || CanSwapOut(m.pool, m.todo[0].s)
  }

  /** The plan whose running requests a step visits, if it visits them. */
  function BeforeVisits(cfg: Config, st: State): Mid
    requires cfg.blockSize > 0
  {
    if cfg.chunked || st.swapped != [] then Begin(st) else AdmitLoop(cfg, Begin(st), cfg.maxBatchTokens)
  }

  ghost predicate StepFits(cfg: Config, st: State)
    requires cfg.blockSize > 0
  {
    var m := BeforeVisits(cfg, st);
    Batch(m.items) == [] ==> RunFits(cfg, m.(items := [], todo := Plan(cfg, Seqs(m.items))))
  }

  lemma {:induction false} FitsLoop(cfg: Config, m: Mid)
    requires cfg.blockSize > 0 && cfg.swap && RunFits(cfg, m)
    ensures RunLoop(cfg, m).preempted == m.preempted
    decreases |m.todo|
  {
    hide CanAppend, Fail, AppendSlots, FreeSeq;
    if m.todo != [] {
      if m.todo[0].n == 0 {
        FitsLoop(cfg, SkipHead(m));
      } else if CanAppend(cfg, m.pool, m.todo[0].s, m.todo[0].n) {
        FitsLoop(cfg, AppendHead(cfg, m));
      } else if |m.todo| > 1 {
        FitsLoop(cfg, PreemptNewest(cfg, m));
      } else if m.items == [] {
        FailShape(m.(todo := m.todo[1..]), m.todo[0].s);
      }
    }
  }

  lemma {:induction false} AdmitNoVictims(cfg: Config, m: Mid, budget: int)
    requires cfg.blockSize > 0 && m.preempted == []
    ensures AdmitLoop(cfg, m, budget).preempted == []
    decreases |m.waiting|
  {
    hide Admissible, CachedPrefix, AdmitTokens, BlocksFor, Fail, Allocate;
    if budget > 0 && |m.items| < cfg.maxNumSeqs && NextUp(m).Some? {
      if BlocksFor(cfg.blockSize, NumTokens(NextUp(m).value)) > cfg.numBlocks {
        FailShape(PopNextUp(m), NextUp(m).value);
        AdmitNoVictims(cfg, FailNext(m), budget);
      } else {
        var (s, cached) := CachedPrefix(cfg, m.pool, NextUp(m).value);
        if Admissible(cfg, m, s, cached, budget) {
          Census.AdmissibleTokens(cfg, m, s, cached, budget);
          var n := AdmitTokens(cfg, s, cached, budget);
          AdmitNoVictims(cfg, AdmitOne(cfg, m, s, n, cached), budget - n);
        }
      }
    }
  }

  lemma {:induction false} SwapInVictims(cfg: Config, m: Mid, budget: Option<int>)
    requires cfg.blockSize > 0
    ensures SwapInLoop(cfg, m, budget).preempted == m.preempted
    decreases |m.swapped|
  {
    hide CanSwapIn, SwapInTokens, Fail, SwapIn, AppendSlots;
    if m.swapped != [] && |m.items| < cfg.maxNumSeqs {
      var n := SwapInTokens(m.swapped[0], budget);
      if n > 0 {
        if CanSwapIn(cfg, m.pool, m.swapped[0], n, m.items != []) {
          SwapInVictims(cfg, SwapInOne(cfg, m, n), Spend(budget, n));
        } else if m.items == [] {
          FailShape(m.(swapped := m.swapped[1..]), m.swapped[0]);
          SwapInVictims(cfg, FailSwapped(m), budget);
        }
      }
    }
  }

  /** A step whose victims all fit the host drops nobody. */
  lemma {:induction false} FitsSchedule(cfg: Config, st: State)
    requires cfg.blockSize > 0 && cfg.swap && st.preempted == [] && StepFits(cfg, st)
    ensures Schedule(cfg, st).preempted == []
  {
    hide RunLoop, AdmitLoop, SwapInLoop, Batch, BatchTokens, Plan, RunFits;
    var m := Begin(st);
    AdmitNoVictims(cfg, m, cfg.maxBatchTokens);
    IdleBatch(st.running);
    var m1 := if cfg.chunked || st.swapped != [] then m else AdmitLoop(cfg, m, cfg.maxBatchTokens);
    if Batch(m1.items) == [] {
      FitsLoop(cfg, m1.(items := [], todo := Plan(cfg, Seqs(m1.items))));
      var m2 := ScheduleRunning(cfg, m1);
      var b2 := if cfg.chunked then Some(cfg.maxBatchTokens - BatchTokens(m2.items)) else None;
      SwapInVictims(cfg, m2, b2);
      var m3 := SwapInLoop(cfg, m2, b2);
      AdmitNoVictims(cfg, m3, cfg.maxBatchTokens - BatchTokens(m3.items));
    }
  }

  lemma {:induction false} IdleBatch(running: seq<Seq>)
    ensures Batch(Idle(running)) == []
  {
    BatchEmptyIdle(Idle(running));
  }

  /** Every step of the run finds host room for all its victims. */
  ghost predicate AlwaysFits(cfg: Config, model: Model, e: Engine, events: seq<Event>)
    requires cfg.blockSize > 0
    decreases |events|
  {
    events != [] ==>
      && (events[0].Step? ==> StepFits(cfg, e.st))
      && (Next(cfg, model, e, events[0]).Done? ==> AlwaysFits(cfg, model, Next(cfg, model, e, events[0]).e, events[1..]))
  }

  lemma {:induction false} NextFits(cfg: Config, model: Model, e: Engine, ev: Event)
    requires cfg.blockSize > 0 && cfg.swap && e.st.preempted == [] && (ev.Step? ==> StepFits(cfg, e.st))
    ensures Next(cfg, model, e, ev).Done? ==> Next(cfg, model, e, ev).e.st.preempted == []
  {
    hide Schedule, FindId, RunBatch, UpdateItems, Batch, StepFits;
    if ev.Step? {
      FitsSchedule(cfg, e.st);
    }
  }

  /** In swap mode, with room on the host for every victim, nobody is ever dropped, so the admission order is kept. */
  lemma {:induction false} FitsNeverMixes(cfg: Config, model: Model, e: Engine, events: seq<Event>)
    requires cfg.blockSize > 0 && cfg.swap && e.st.preempted == [] && AlwaysFits(cfg, model, e, events)
    ensures NeverMixes(cfg, model, e, events)
    decreases |events|
  {
    hide Next, StepFits;
    if events != [] {
      NextFits(cfg, model, e, events[0]);
      if Next(cfg, model, e, events[0]).Done? {
        FitsNeverMixes(cfg, model, Next(cfg, model, e, events[0]).e, events[1..]);
      }
    }
  }

  // --- running and swapped requests together -----------------------------------------------------------------------------

  /** Never more requests hold blocks, here or on the host, than may run. */
  ghost predicate Crowd(cfg: Config, m: Mid) {
    |m.items| + |m.todo| + |m.swapped| <= cfg.maxNumSeqs
  }

  lemma {:induction false} RunLoopCrowd(cfg: Config, m: Mid)
    requires cfg.blockSize > 0 && Crowd(cfg, m)
    ensures Crowd(cfg, RunLoop(cfg, m)) && RunLoop(cfg, m).todo == []
    decreases |m.todo|
  {
    hide CanAppend, Fail, AppendSlots, FreeSeq, CanSwapOut;
    if m.todo != [] {
      if m.todo[0].n == 0 {
        RunLoopCrowd(cfg, SkipHead(m));
      } else if CanAppend(cfg, m.pool, m.todo[0].s, m.todo[0].n) {
        RunLoopCrowd(cfg, AppendHead(cfg, m));
      } else if |m.todo| > 1 {
        RunLoopCrowd(cfg, PreemptNewest(cfg, m));
      } else if m.items == [] {
        FailShape(m.(todo := m.todo[1..]), m.todo[0].s);
      }
    }
  }

  lemma {:induction false} SwapInLoopCrowd(cfg: Config, m: Mid, budget: Option<int>)
    requires cfg.blockSize > 0 && Crowd(cfg, m) && m.todo == []
    ensures Crowd(cfg, SwapInLoop(cfg, m, budget)) && SwapInLoop(cfg, m, budget).todo == []
    decreases |m.swapped|
  {
    hide CanSwapIn, SwapInTokens, Fail, SwapIn, AppendSlots;
    if m.swapped != [] && |m.items| < cfg.maxNumSeqs {
      var n := SwapInTokens(m.swapped[0], budget);
      if n > 0 {
        if CanSwapIn(cfg, m.pool, m.swapped[0], n, m.items != []) {
          SwapInLoopCrowd(cfg, SwapInOne(cfg, m, n), Spend(budget, n));
        } else if m.items == [] {
          FailShape(m.(swapped := m.swapped[1..]), m.swapped[0]);
          SwapInLoopCrowd(cfg, FailSwapped(m), budget);
        }
      }
    }
  }

  /** Requests are admitted only while nobody is swapped out. */
  lemma {:induction false} AdmitLoopCrowd(cfg: Config, m: Mid, budget: int)
    requires cfg.blockSize > 0 && Crowd(cfg, m) && m.todo == [] && m.swapped == []
    ensures Crowd(cfg, AdmitLoop(cfg, m, budget)) && AdmitLoop(cfg, m, budget).swapped == [] && AdmitLoop(cfg, m, budget).todo == []
    decreases |m.preempted| + |m.waiting|
  {
    hide Admissible, CachedPrefix, AdmitTokens, BlocksFor, Fail, Allocate;
    if budget > 0 && |m.items| < cfg.maxNumSeqs && NextUp(m).Some? {
      if BlocksFor(cfg.blockSize, NumTokens(NextUp(m).value)) > cfg.numBlocks {
        FailShape(PopNextUp(m), NextUp(m).value);
        AdmitLoopCrowd(cfg, FailNext(m), budget);
      } else {
        var (s, cached) := CachedPrefix(cfg, m.pool, NextUp(m).value);
        if Admissible(cfg, m, s, cached, budget) {
          Census.AdmissibleTokens(cfg, m, s, cached, budget);
          var n := AdmitTokens(cfg, s, cached, budget);
          AdmitLoopCrowd(cfg, AdmitOne(cfg, m, s, n, cached), budget - n);
        }
      }
    }
  }

  lemma {:induction false} PlanCrowd(cfg: Config, m: Mid)
    requires cfg.blockSize > 0 && Crowd(cfg, m) && m.todo == []
    ensures Crowd(cfg, m.(items := [], todo := Plan(cfg, Seqs(m.items))))
  {
    PlanLength(Seqs(m.items), cfg.maxBatchTokens - CountDecodes(Seqs(m.items)));
  }

  lemma {:induction false} PlanLength(running: seq<Seq>, left: int)
    ensures |PlanFrom(running, left)| == |running|
    decreases |running|
  {
    if running != [] {
      var left' := if Uncomputed(running[0]) == 1 then left else left - Min(Uncomputed(running[0]), left);
      PlanLength(running[1..], left');
    }
  }

  /** A planned step keeps running and swapped requests within the limit, in either mode. */
  lemma {:induction false} ScheduleCrowd(cfg: Config, st: State)
    requires cfg.blockSize > 0 && Crowd(cfg, Begin(st))
    ensures Crowd(cfg, Schedule(cfg, st))
  {
    hide RunLoop, AdmitLoop, SwapInLoop, Batch, BatchTokens, Plan;
    var m := Begin(st);
    var m1 := BeforeVisits(cfg, st);
    if !cfg.chunked && m.swapped == [] {
      AdmitLoopCrowd(cfg, m, cfg.maxBatchTokens);
    }
    if cfg.chunked || Batch(m1.items) == [] {
      PlanCrowd(cfg, m1);
      RunLoopCrowd(cfg, m1.(items := [], todo := Plan(cfg, Seqs(m1.items))));
      var m2 := ScheduleRunning(cfg, m1);
      var b2 := if cfg.chunked then Some(cfg.maxBatchTokens - BatchTokens(m2.items)) else None;
      SwapInLoopCrowd(cfg, m2, b2);
      var m3 := SwapInLoop(cfg, m2, b2);
      if m3.swapped == [] {
        AdmitLoopCrowd(cfg, m3, cfg.maxBatchTokens - BatchTokens(m3.items));
      }
    }
  }

  lemma {:induction false} FewerRunning(cfg: Config, p: Pool, items: seq<Item>, sampled: seq<Token>)
    requires cfg.blockSize > 0
    ensures |UpdateItems(cfg, p, items, sampled).running| <= |items|
    decreases |items|
  {
    if items != [] {
      AtMostOne(cfg, p, items[0], sampled);
      hide UpdateItem, Samples;
      var u := UpdateItem(cfg, p, items[0], sampled);
      FewerRunning(cfg, u.pool, items[1..], if Samples(items[0]) && sampled != [] then sampled[1..] else sampled);
    }
  }

  lemma {:induction false} DropLength(seqs: seq<Seq>, id: int)
    ensures |DropId(seqs, id)| <= |seqs|
    decreases |seqs|
  {
    if seqs != [] {
      DropLength(seqs[1..], id);
    }
  }

  lemma {:induction false} AbortCrowd(cfg: Config, e: Engine, id: int)
    requires Crowd(cfg, Begin(e.st))
    ensures Crowd(cfg, Begin(AbortRequest(e, id).st))
  {
    DropLength(e.st.running, id);
    DropLength(e.st.swapped, id);
    hide FindId, DropId, FreeTable;
  }

  lemma {:induction false} StepCrowd(cfg: Config, model: Model, e: Engine)
    requires cfg.blockSize > 0 && StateOk(cfg, e.st) && Crowd(cfg, Begin(e.st))
    ensures StepEngine(cfg, model, e).Done? ==> Crowd(cfg, Begin(StepEngine(cfg, model, e).e.st))
  {
    hide Schedule, RunBatch, UpdateItems, Batch, StateOk, MidOk, ScheduleChunked, SchedulePrefillPriority;
    ScheduleCrowd(cfg, e.st);
    ScheduleOk(cfg, e.st);
    var m := Schedule(cfg, e.st);
    FewerRunning(cfg, m.pool, m.items, RunBatch(cfg, model, e.mem, m).1);
  }

  /** The limit covers running and swapped requests together, always. */
  lemma {:induction false} NextCrowd(cfg: Config, model: Model, e: Engine, ev: Event)
    requires cfg.blockSize > 0 && StateOk(cfg, e.st) && Crowd(cfg, Begin(e.st))
    ensures Next(cfg, model, e, ev).Done? ==> Crowd(cfg, Begin(Next(cfg, model, e, ev).e.st))
  {
    hide StepEngine, AbortRequest, StateOk, FindId, Enqueue, Acceptable;
    match ev
    case Add(id, prompt, params, arrival, priority) =>
    case Abort(id) => AbortCrowd(cfg, e, id);
    case Step => StepCrowd(cfg, model, e);
  }

  lemma {:induction false} RunCrowd(cfg: Config, model: Model, e: Engine, events: seq<Event>)
    requires cfg.blockSize > 0 && EngineOk(cfg, model, e) && Crowd(cfg, Begin(e.st))
    ensures Run(cfg, model, e, events).Done? ==> Crowd(cfg, Begin(Run(cfg, model, e, events).e.st))
    decreases |events|
  {
    hide Next, Crowd, StateOk, KvOk, AllOnCourse, AllSettled;
    if events != [] {
      var r := Next(cfg, model, e, events[0]);
      NextCrowd(cfg, model, e, events[0]);
      if r.Done? {
        NextOk(cfg, model, e, events[0]);
        RunCrowd(cfg, model, r.e, events[1..]);
      }
    }
  }

  // --- a host pool that always has room ----------------------------------------------------------------------------------

  /** Host blocks for as many requests of the greatest length as may run. */
  ghost predicate Ample(cfg: Config)
    requires cfg.blockSize > 0
  {
    cfg.numCpuBlocks >= cfg.maxNumSeqs * BlocksFor(cfg.blockSize, cfg.serving.maxModelLen)
  }

  function HostCount(swapped: seq<Seq>): nat {
    if swapped == [] then 0 else |swapped[0].cpuTable| + HostCount(swapped[1..])
  }

  lemma {:induction false} HostTotal(swapped: seq<Seq>)
    ensures |Total(swapped, HostsOf)| == HostCount(swapped)
    decreases |swapped|
  {
    if swapped != [] {
      HostTotal(swapped[1..]);
      assert |multiset(swapped[0].cpuTable)| == |swapped[0].cpuTable|;
    }
  }

  /** Every host block is free or parks a block of a swapped request. */
  lemma {:induction false} HostBlocks(n: nat, cpuFree: seq<Block>, swapped: seq<Seq>)
    requires CpuValid(n, cpuFree, Total(swapped, HostsOf))
    ensures |cpuFree| + HostCount(swapped) == n
  {
    HostTotal(swapped);
    hide Total;
    var all := seq(n, i requires 0 <= i < n => i);
    forall c: Block ensures (multiset(cpuFree) + Total(swapped, HostsOf))[c] == multiset(all)[c] {
      DistinctCount(all, c);
      if 0 <= c < n {
        assert all[c] == c;
      }
    }
    assert multiset(cpuFree) + Total(swapped, HostsOf) == multiset(all);
    assert |multiset(cpuFree) + Total(swapped, HostsOf)| == |multiset(cpuFree)| + |Total(swapped, HostsOf)|;
    assert |multiset(all)| == n;
  }

  lemma {:induction false} ShortTable(cfg: Config, s: Seq)
    requires cfg.blockSize > 0 && RequestOk(cfg, s) && s.computed < NumTokens(s)
    ensures BlocksFor(cfg.blockSize, s.computed) <= BlocksFor(cfg.blockSize, cfg.serving.maxModelLen)
  {
    hide BlocksFor;
    BlocksForMono(cfg.blockSize, s.computed, cfg.serving.maxModelLen);
  }

  lemma {:induction false} HostUse(cfg: Config, swapped: seq<Seq>)
    requires cfg.blockSize > 0 && forall i :: 0 <= i < |swapped| ==> SwappedOk(cfg, swapped[i])
    ensures HostCount(swapped) <= |swapped| * BlocksFor(cfg.blockSize, cfg.serving.maxModelLen)
    decreases |swapped|
  {
    if swapped != [] {
      assert SwappedOk(cfg, swapped[0]);
      ShortTable(cfg, swapped[0]);
      hide BlocksFor, SwappedOk;
      HostUse(cfg, swapped[1..]);
    }
  }

  /** The newest running request fits the host. */
  lemma {:induction false} VictimFits(cfg: Config, m: Mid)
    requires cfg.blockSize > 0 && MidOk(cfg, m) && m.todo != [] && Crowd(cfg, m) && Ample(cfg)
    ensures CanSwapOut(m.pool, m.todo[|m.todo| - 1].s)
  {
    hide Valid, CpuValid, Unique, Ids, ItemsOk, RequestOk, TableOk, BlocksFor, Total;
    var it := m.todo[|m.todo| - 1];
    assert TodoOk(cfg, m.pool, it);
    ShortTable(cfg, it.s);
    HostBlocks(cfg.numCpuBlocks, m.pool.cpuFree, m.swapped);
    HostUse(cfg, m.swapped);
    var k := BlocksFor(cfg.blockSize, cfg.serving.maxModelLen);
    BlocksForMono(cfg.blockSize, 0, cfg.serving.maxModelLen);
    MulMono(|m.swapped| + 1, cfg.maxNumSeqs, k);
    assert (|m.swapped| + 1) * k == |m.swapped| * k + k;
    assert BlocksFor(cfg.blockSize, it.s.computed + 0) == BlocksFor(cfg.blockSize, it.s.computed);
  }

  lemma {:induction false} AmpleRun(cfg: Config, m: Mid)
    requires cfg.blockSize > 0 && MidOk(cfg, m) && Crowd(cfg, m) && Ample(cfg)
    ensures RunFits(cfg, m)
    decreases |m.todo|
  {
    hide MidOk, Ids, CanAppend, AppendSlots, FreeSeq, SwapOut, CanSwapOut, Ample;
    if m.todo != [] {
      VictimFits(cfg, m);
      if m.todo[0].n == 0 {
        SkipHeadOk(cfg, m);
        AmpleRun(cfg, SkipHead(m));
      } else if CanAppend(cfg, m.pool, m.todo[0].s, m.todo[0].n) {
        AppendHeadOk(cfg, m);
        AmpleRun(cfg, AppendHead(cfg, m));
      } else if |m.todo| > 1 {
        PreemptNewestOk(cfg, m);
        AmpleRun(cfg, PreemptNewest(cfg, m));
      }
    }
  }

  lemma {:induction false} AmpleStep(cfg: Config, st: State)
    requires cfg.blockSize > 0 && StateOk(cfg, st) && Crowd(cfg, Begin(st)) && Ample(cfg)
    ensures StepFits(cfg, st)
  {
    hide MidOk, AdmitLoop, Plan, Ample, RunFits, Batch;
    var m := Begin(st);
    var m1 := BeforeVisits(cfg, st);
    if !cfg.chunked && st.swapped == [] {
      AdmitLoopOk(cfg, m, cfg.maxBatchTokens);
      AdmitLoopCrowd(cfg, m, cfg.maxBatchTokens);
    }
    if Batch(m1.items) == [] {
      BatchEmptyIdle(m1.items);
      ReplanOk(cfg, m1);
      PlanCrowd(cfg, m1);
      AmpleRun(cfg, m1.(items := [], todo := Plan(cfg, Seqs(m1.items))));
    }
  }

  lemma {:induction false} AmpleFits(cfg: Config, model: Model, e: Engine, events: seq<Event>)
    requires cfg.blockSize > 0 && EngineOk(cfg, model, e) && Crowd(cfg, Begin(e.st)) && Ample(cfg)
    ensures AlwaysFits(cfg, model, e, events)
    decreases |events|
  {
    hide Next, Crowd, Ample, StateOk, KvOk, AllOnCourse, AllSettled, StepFits;
    if events != [] {
      var r := Next(cfg, model, e, events[0]);
      AmpleStep(cfg, e.st);
      NextCrowd(cfg, model, e, events[0]);
      if r.Done? {
        NextOk(cfg, model, e, events[0]);
        AmpleFits(cfg, model, r.e, events[1..]);
      }
    }
  }

  /** So with such a host pool, swap mode keeps the admission order from every reachable state onwards. */
  lemma {:induction false} AmpleHostKeepsOrder(cfg: Config, model: Model, mem: Mem, first: seq<Event>,
                                               events: seq<Event>, x: int, y: int)
    requires ConfigOk(cfg) && MemShape(cfg, model, mem) && cfg.swap && Ample(cfg)
    requires var r := Run(cfg, model, Start(cfg, mem), first);
      r.Done? && Ahead(Begin(r.e.st), x, y) && forall i :: 0 <= i < |events| ==> !AddsAgain(events[i], x)
    ensures var e := Run(cfg, model, Start(cfg, mem), first).e;
      && |e.st.running| + |e.st.swapped| <= cfg.maxNumSeqs && e.st.preempted == []
      && Run(cfg, model, e, events).Done? && Ahead(Begin(Run(cfg, model, e, events).e.st), x, y)
  {
    hide Run, Ahead, AddsAgain, Ample, StateOk, KvOk, AllOnCourse, AllSettled, NeverMixes, AlwaysFits, Modes.ModeOk,
      Guarantees.FailedOutgrown;
    var e0 := Start(cfg, mem);
    Guarantees.StartSound(cfg, model, mem);
    Guarantees.RunSound(cfg, model, e0, first);
    assert Crowd(cfg, Begin(e0.st)) by {
      assert Idle([]) == [];
    }
    RunCrowd(cfg, model, e0, first);
    AmpleFits(cfg, model, e0, first);
    NoVictims(cfg, model, e0, first);
    var e := Run(cfg, model, e0, first).e;
    AmpleFits(cfg, model, e, events);
    FitsNeverMixes(cfg, model, e, events);
    RunKeepsOrder(cfg, model, e, events, x, y);
    Guarantees.RunSound(cfg, model, e, events);
  }

  lemma {:induction false} NoVictims(cfg: Config, model: Model, e: Engine, events: seq<Event>)
    requires cfg.blockSize > 0 && cfg.swap && e.st.preempted == [] && AlwaysFits(cfg, model, e, events)
    ensures Run(cfg, model, e, events).Done? ==> Run(cfg, model, e, events).e.st.preempted == []
    decreases |events|
  {
    hide Next, StepFits;
    if events != [] {
      NextFits(cfg, model, e, events[0]);
      if Next(cfg, model, e, events[0]).Done? {
        NoVictims(cfg, model, Next(cfg, model, e, events[0]).e, events[1..]);
      }
    }
  }

  // --- recompute mode --------------------------------------------------------------------------------------------------

  /** In recompute mode the order is kept from every reachable state onwards, whatever the pools. */
  lemma {:induction false} RecomputeKeepsOrder(cfg: Config, model: Model, mem: Mem, first: seq<Event>,
                                               events: seq<Event>, x: int, y: int)
    requires ConfigOk(cfg) && MemShape(cfg, model, mem) && !cfg.swap
    requires var r := Run(cfg, model, Start(cfg, mem), first);
      r.Done? && Ahead(Begin(r.e.st), x, y) && forall i :: 0 <= i < |events| ==> !AddsAgain(events[i], x)
    ensures var e := Run(cfg, model, Start(cfg, mem), first).e;
      e.st.swapped == [] && Run(cfg, model, e, events).Done? && Ahead(Begin(Run(cfg, model, e, events).e.st), x, y)
  {
    hide Run, Ahead, AddsAgain, StateOk, KvOk, AllOnCourse, AllSettled, NeverMixes, Modes.ModeOk, Guarantees.FailedOutgrown;
    var e0 := Start(cfg, mem);
    Guarantees.StartSound(cfg, model, mem);
    Guarantees.RunSound(cfg, model, e0, first);
    NobodySwapped(cfg, model, e0, first);
    var e := Run(cfg, model, e0, first).e;
    RecomputeNeverMixes(cfg, model, e, events);
    RunKeepsOrder(cfg, model, e, events, x, y);
    Guarantees.RunSound(cfg, model, e, events);
  }

  lemma {:induction false} NobodySwapped(cfg: Config, model: Model, e: Engine, events: seq<Event>)
    requires cfg.blockSize > 0 && !cfg.swap && e.st.swapped == []
    ensures Run(cfg, model, e, events).Done? ==> Run(cfg, model, e, events).e.st.swapped == []
    decreases |events|
  {
    hide Next;
    if events != [] {
      NextRecompute(cfg, model, e, events[0]);
      if Next(cfg, model, e, events[0]).Done? {
        NobodySwapped(cfg, model, Next(cfg, model, e, events[0]).e, events[1..]);
      }
    }
  }
}
