// The engine object: requests, aborts, steps and offline generation over the scheduler, the block manager and
// the runner it owns, with the guarantees of whole runs as contracts of its methods.
module OnlineEngine {
  import opened Basics
  import opened Paging
  import opened BlockPool
  import opened Transformer
  import opened Streaming
  import opened Scheduling
  import opened Accounting
  import opened Planning
  import opened Stepping
  import opened Memory
  import opened Forward
  import opened KvKept
  import opened Execute
  import opened EngineRun
  import opened Requests
  import opened Modes
  import opened Termination
  import opened Sequences
  import opened Mirrors
  import opened Taking
  import opened Batching
  import opened Caches
  import opened Runner
  import opened Attention
  import Handling
  import Swaps
  import Guarantees
  import Acceptance

  // --- running the batch rather than the plan ---------------------------------------------------------------------

  lemma {:induction false} BatchRows(items: seq<Item>)
    ensures Rows(Batch(items)) == Rows(items)
    decreases |items|
  {
    if items != [] {
      BatchFront(items);
      BatchRows(items[1..]);
      hide Batch;
      if items[0].n > 0 {
        assert Batch(items)[1..] == Batch(items[1..]);
      } else {
        assert Batch(items) == Batch(items[1..]);
        assert RowsOf(items[0]) + Rows(items[1..]) == Rows(items[1..]);
      }
    }
  }

  lemma {:induction false} BatchSamples(model: Model, items: seq<Item>, hidden: seq<Hidden>)
    requires |hidden| == |Rows(items)|
    ensures |Rows(Batch(items))| == |hidden|
    ensures SampleFrom(model, Batch(items), hidden) == SampleFrom(model, items, hidden)
    decreases |items|
  {
    BatchRows(items);
    if items != [] {
      BatchFront(items);
      var it := items[0];
      assert Rows(items) == RowsOf(it) + Rows(items[1..]);
      BatchSamples(model, items[1..], hidden[it.n..]);
      hide Batch;
      if it.n > 0 {
        assert Batch(items)[0] == it && Batch(items)[1..] == Batch(items[1..]);
      } else {
        assert Batch(items) == Batch(items[1..]) && hidden[it.n..] == hidden;
        assert [] + SampleFrom(model, items[1..], hidden) == SampleFrom(model, items[1..], hidden);
      }
    }
  }

  /** What a step relies on: a sound plan, one sample per sampling item, copies inside the caches, no error. */
  lemma {:induction false} StepReady(cfg: Config, model: Model, e: Engine)
    requires ConfigOk(cfg) && Guarantees.Sound(cfg, model, e)
    ensures PlanSound(cfg, e.st.running)
    ensures var m, r := Schedule(cfg, e.st), StepEngine(cfg, model, e);
      && r.Done? && Guarantees.Sound(cfg, model, r.e)
      && MidOk(cfg, m) && m.todo == [] && Swaps.Inside(cfg, m)
      && |RunBatch(cfg, model, e.mem, m).1| == NumSampled(m.items)
  {
    hide MidOk, KvOk, KvNow, ModeOk, Schedule, RunBatch, PlanSound, StepEngine, Guarantees.FailedOutgrown,
      NumSampled, Swaps.Inside;
    PlanNeverNegative(cfg, e.st);
    Guarantees.NextSound(cfg, model, e, Step);
    ScheduleOk(cfg, e.st);
    ScheduleKv(cfg, model, e.mem, e.st);
    FullStepOk(cfg, model, e.mem, Schedule(cfg, e.st));
    Swaps.ScheduleInside(cfg, e.st);
  }

  /** A planned batch has tokens and pages for all it computes. */
  lemma {:induction false} BatchIsReady(cfg: Config, m: Mid)
    requires cfg.blockSize > 0 && MidOk(cfg, m) && m.todo == []
    ensures AllReady(cfg.blockSize, cfg.numBlocks + 1, Batch(m.items))
  {
    hide MidOk, Batch, Runner.Ready;
    forall k | 0 <= k < |Batch(m.items)| ensures Runner.Ready(cfg.blockSize, cfg.numBlocks + 1, Batch(m.items)[k]) {
      var i := ItemOfBatch(m.items, k);
      ItemIsReady(cfg, m, i);
    }
  }

  lemma {:induction false} ItemIsReady(cfg: Config, m: Mid, i: nat)
    requires cfg.blockSize > 0 && MidOk(cfg, m) && m.todo == [] && i < |m.items|
    ensures Runner.Ready(cfg.blockSize, cfg.numBlocks + 1, m.items[i])
  {
    InPool(cfg, m, i);
    hide Valid, CpuValid, TodosOk, QueuesOk, Unique, RequestOk, TableOk, BlocksFor;
    assert ItemOk(cfg, m.pool, m.items[i]);
  }

  /** Running the batch is running the plan. */
  lemma {:induction false} BatchRuns(cfg: Config, model: Model, mem: Mem, m: Mid)
    requires cfg.blockSize > 0
    ensures var now := Swapped(mem, m.swapOut, m.swapIn);
      var r := Pass(model, cfg.blockSize, Rows(Batch(m.items)), now.gpu);
      RunBatch(cfg, model, mem, m) == (Mem(r.0, now.cpu), SampleFrom(model, Batch(m.items), r.1))
  {
    hide Batch, Rows, Swapped, Pass, SampleFrom;
    BatchRows(m.items);
    var now := Swapped(mem, m.swapOut, m.swapIn);
    BatchSamples(model, m.items, Pass(model, cfg.blockSize, Rows(m.items), now.gpu).1);
  }

  class LLMEngine {
    const cfg: Config
    const model: Model
    const scheduler: Scheduler
    const runner: ModelRunner

    constructor (cfg: Config, model: Model)
      requires ConfigOk(cfg)
      ensures this.cfg == cfg && this.model == model && fresh(Repr() - {this})
      ensures Valid() && View() == Start(cfg, View().mem)
    {
      hide Guarantees.Sound, MemShape, KVCache.View, Scheduler.Coupled, NewPool;
      this.cfg, this.model := cfg, model;
      scheduler := new Scheduler(cfg);
      runner := new ModelRunner(cfg, model);
      new;
      runner.ViewShape();
      Guarantees.StartSound(cfg, model, runner.View());
    }

    /** The engine's objects, requests and detokenizers included. */
    ghost function Repr(): set<object>
      reads this, scheduler
    {
      {this, scheduler, scheduler.bm, scheduler.waiting, runner.gpu.data, runner.cpu.data} + scheduler.book.objs
    }

    /** The engine as a value. */
    ghost function View(): Engine
      requires runner.Valid()
      reads this, scheduler, runner.gpu.data, runner.cpu.data
    {
      Engine(scheduler.View(), runner.View())
    }

    ghost predicate Valid()
      reads this, Repr()
    {
      && ConfigOk(cfg) && scheduler.cfg == cfg && runner.cfg == cfg && runner.model == model && runner.Valid()
      && runner.gpu.data !in scheduler.book.objs && runner.cpu.data !in scheduler.book.objs
      && scheduler.Coupled() && scheduler.plan == Begin(scheduler.View())
      && Guarantees.Sound(cfg, model, View())
    }

    /** A request that can be served, under an id nobody uses, is waiting afterwards; any other changes nothing. */
    method AddRequest(id: int, prompt: seq<Token>, params: Params, arrival: real, priority: Option<real>) returns (ok: bool)
      requires Valid()
      modifies Repr()
      ensures Valid() && View() == EngineRun.AddRequest(cfg, old(View()), id, prompt, params, arrival, priority)
      ensures ok == (Acceptance.Servable(cfg, prompt, params) && Acceptance.Free(old(View()).st, id))
      ensures if ok then Acceptance.Joins(old(View()), View(), id, prompt, params, arrival, priority) else View() == old(View())
      ensures fresh(Repr() - old(Repr()))
    {
      hide Guarantees.Sound, Enqueue, FindId, LiveSeqs, Acceptable, ParkedOk, Scheduler.Coupled, KVCache.View,
        Sequence.Is, ObjectsOf, NewSeq, Acceptance.Servable, Acceptance.Free, Acceptance.Joins;
      JoinsSoundly(cfg, model, View(), id, prompt, params, arrival, priority);
      if !Acceptable(cfg, prompt, params) {
        return false;
      }
      var s := Handling.Create(cfg, id, prompt, params, arrival, priority);
      ghost var v := NewSeq(cfg, id, prompt, params, arrival, priority);
      NewSeqOk(cfg, model, id, prompt, params, arrival, priority);
      ok := scheduler.Add(s, v);
    }

    static lemma {:induction false} JoinsSoundly(cfg: Config, model: Model, e: Engine, id: int, prompt: seq<Token>, params: Params,
                                                 arrival: real, priority: Option<real>)
      requires ConfigOk(cfg) && Guarantees.Sound(cfg, model, e)
      ensures var e' := EngineRun.AddRequest(cfg, e, id, prompt, params, arrival, priority);
        var ok := Acceptance.Servable(cfg, prompt, params) && Acceptance.Free(e.st, id);
        && Guarantees.Sound(cfg, model, e')
        && ok == (Acceptable(cfg, prompt, params) && FindId(LiveSeqs(e.st), id).None?)
        && if ok then Acceptance.Joins(e, e', id, prompt, params, arrival, priority) else e' == e
    {
      hide Guarantees.Sound, Acceptance.Servable, Acceptance.Free, Acceptance.Joins, EngineRun.AddRequest, ConfigOk, LiveSeqs;
      Guarantees.NextSound(cfg, model, e, Event.Add(id, prompt, params, arrival, priority));
      Acceptance.AddTakes(cfg, e, id, prompt, params, arrival, priority);
    }

    method Abort(id: int)
      requires Valid()
      modifies Repr()
      ensures Valid() && View() == AbortRequest(old(View()), id)
      ensures if Acceptance.Free(old(View()).st, id) then View() == old(View())
              else exists s: Seq :: s.id == id && s in LiveSeqs(old(View()).st) && Acceptance.Leaves(old(View()).st, View().st, s)
      ensures fresh(Repr() - old(Repr()))
    {
      hide Guarantees.Sound, AbortRequest, FindId, LiveSeqs, Scheduler.Coupled, KVCache.View, Acceptance.Free, Acceptance.Leaves;
      LeavesSoundly(cfg, model, View(), id);
      var known := scheduler.Abort(id);
    }

    static lemma {:induction false} LeavesSoundly(cfg: Config, model: Model, e: Engine, id: int)
      requires ConfigOk(cfg) && Guarantees.Sound(cfg, model, e)
      ensures var e' := AbortRequest(e, id);
        && Guarantees.Sound(cfg, model, e')
        && if Acceptance.Free(e.st, id) then e' == e
           else exists s: Seq :: s.id == id && s in LiveSeqs(e.st) && Acceptance.Leaves(e.st, e'.st, s)
    {
      hide StateOk, KvOk, ModeOk, AbortRequest, Guarantees.FailedOutgrown, Acceptance.Free, Acceptance.Leaves, LiveSeqs;
      Guarantees.NextSound(cfg, model, e, Event.Abort(id));
      Acceptance.AbortTakesOut(cfg, e, id);
    }

    /** One iteration. The watchdog's error cannot be raised, so the method has no way to. */
    method Step() returns (outputs: seq<Output>)
      requires Valid()
      modifies Repr()
      ensures Valid() && StepEngine(cfg, model, old(View())) == Done(View(), outputs)
      ensures fresh(Repr() - old(Repr()))
    {
      hide Guarantees.Sound, StateOk, MidOk, ModeOk, PlanSound, Schedule, Scheduling.Update, RunBatch, Batch,
        NumSampled, Scheduler.Coupled, Scheduler.Batched,
        KVCache.View, Swaps.Inside;
      ghost var e := View();
      StepReady(cfg, model, e);
      var batch := scheduler.Schedule();
      ghost var m := scheduler.plan;
      scheduler.BatchCarries(batch);
      if batch.seqs == [] && batch.swapOut == [] && batch.swapIn == [] {
        outputs := scheduler.TakeOutputs();
        return;
      }
      BatchIsReady(cfg, m);
      BatchRuns(cfg, model, e.mem, m);
      Inside(m);
      var sampled := runner.Execute(batch.seqs, batch.numNewTokens, batch.doSample, batch.swapOut, batch.swapIn, Batch(m.items));
      outputs := scheduler.Update(batch, sampled);
    }

    lemma {:induction false} Inside(m: Mid)
      requires runner.Valid() && runner.cfg == cfg && Swaps.Inside(cfg, m)
      ensures runner.CopiesOk(m.swapOut, m.swapIn)
    {
    }

    /** Step until nothing is left: the loop ends, because every step lowers the measure. */
    method Drain() returns (outputs: seq<Output>)
      requires Valid()
      modifies Repr()
      ensures Valid() && LiveSeqs(View().st) == []
      ensures exists n: nat :: Run(cfg, model, old(View()), Steps(n)) == Done(View(), outputs)
      ensures fresh(Repr() - old(Repr()))
    {
      hide Guarantees.Sound, Measure, Scheduling.HasWork, Run, EngineRun.Next, StepEngine, Scheduler.Coupled, KVCache.View;
      outputs := [];
      ghost var n: nat := 0;
      NoEvents(cfg, model, View());
      assert Steps(0) == [];
      var work := scheduler.HasWork();
      while work
        invariant Valid() && work == Scheduling.HasWork(View().st) && fresh(Repr() - old(Repr()))
        invariant Run(cfg, model, old(View()), Steps(n)) == Done(View(), outputs)
        decreases Measure(cfg, View().st)
      {
        SoundSteps(cfg, model, View());
        ghost var e := View();
        IsStep(cfg, model, e);
        var more := Step();
        OneMore(cfg, model, old(View()), Steps(n), e, outputs, Event.Step);
        assert Steps(n) + [Event.Step] == Steps(n + 1);
        outputs := outputs + more;
        n := n + 1;
        work := scheduler.HasWork();
      }
      NobodyLives(View().st);
    }

    static lemma {:induction false} NobodyLives(st: State)
      ensures !Scheduling.HasWork(st) ==> LiveSeqs(st) == []
    {
    }

    static lemma {:induction false} IsStep(cfg: Config, model: Model, e: Engine)
      requires cfg.blockSize > 0
      ensures EngineRun.Next(cfg, model, e, Event.Step) == StepEngine(cfg, model, e)
    {
    }

    static lemma {:induction false} SoundSteps(cfg: Config, model: Model, e: Engine)
      requires ConfigOk(cfg) && Guarantees.Sound(cfg, model, e) && Scheduling.HasWork(e.st)
      ensures var r := StepEngine(cfg, model, e); r.Done? && 0 <= Measure(cfg, r.e.st) < Measure(cfg, e.st)
    {
      hide StateOk, KvOk, ModeOk, StepEngine, Measure, Scheduling.HasWork;
      StepDecreases(cfg, model, e);
      StepOk(cfg, model, e);
      MeasureBounds(cfg, StepEngine(cfg, model, e).e.st);
    }

    /** Queue the prompts under consecutive ids, up to the first that is refused. */
    method AddAll(firstId: int, prompts: seq<seq<Token>>, params: Params, now: real) returns (ok: bool)
      requires Valid()
      modifies Repr()
      ensures Valid() && fresh(Repr() - old(Repr()))
      ensures ok ==> Run(cfg, model, old(View()), Arrivals(firstId, prompts, params, now)) == Done(View(), [])
      ensures !ok ==> exists i :: 0 <= i < |prompts| && RefusedAt(cfg, model, old(View()), firstId, prompts, params, now, i)
    {
      hide Guarantees.Sound, ConfigOk, Run, EngineRun.AddRequest, EngineRun.Next, Acceptance.Servable, Acceptance.Free,
        Acceptance.Joins, Scheduler.Coupled, KVCache.View, RefusedAt, Arrivals;
      ghost var e0 := View();
      var i := 0;
      NoArrivals(cfg, model, e0, firstId, prompts, params, now);
      while i < |prompts|
        invariant Valid() && 0 <= i <= |prompts| && fresh(Repr() - old(Repr()))
        invariant Run(cfg, model, e0, Arrivals(firstId, prompts[..i], params, now)) == Done(View(), [])
      {
        ghost var e := View();
        ok := AddRequest(firstId + i, prompts[i], params, now, None);
        if !ok {
          Refused(cfg, model, e0, firstId, prompts, params, now, i, e);
          return;
        }
        OneArrival(cfg, model, e0, firstId, prompts, params, now, i, e);
        i := i + 1;
      }
      ok := true;
      assert prompts[..i] == prompts;
    }

    /** Offline generation: queue the prompts and run to completion. A prompt that is refused ends it before any
        step. */
    method Generate(firstId: int, prompts: seq<seq<Token>>, params: Params, now: real) returns (ok: bool, outputs: seq<Output>)
      requires Valid()
      modifies Repr()
      ensures Valid() && fresh(Repr() - old(Repr()))
      ensures ok ==> LiveSeqs(View().st) == []
      ensures ok ==> exists n: nat :: Run(cfg, model, old(View()), Arrivals(firstId, prompts, params, now) + Steps(n)) == Done(View(), outputs)
      ensures !ok ==> exists i :: 0 <= i < |prompts| && RefusedAt(cfg, model, old(View()), firstId, prompts, params, now, i)
    {
      hide Guarantees.Sound, Scheduling.HasWork, Run, Scheduler.Coupled, KVCache.View, RefusedAt, Arrivals, ConfigOk;
      outputs := [];
      ok := AddAll(firstId, prompts, params, now);
      if !ok {
        return;
      }
      ghost var e1 := View();
      outputs := Drain();
      ghost var n: nat :| Run(cfg, model, e1, Steps(n)) == Done(View(), outputs);
      RunThen(cfg, model, old(View()), Arrivals(firstId, prompts, params, now), Steps(n));
      assert [] + outputs == outputs;
    }
  }

  /** The events of queueing some prompts. */
  function Arrivals(firstId: int, prompts: seq<seq<Token>>, params: Params, now: real): (r: seq<Event>)
    ensures |r| == |prompts|
    ensures forall i :: 0 <= i < |prompts| ==> r[i] == Event.Add(firstId + i, prompts[i], params, now, None)
  {
    seq(|prompts|, i requires 0 <= i < |prompts| => Event.Add(firstId + i, prompts[i], params, now, None))
  }

  /** Prompt i cannot be served, or its id is in use, when the ones before it have been queued. */
  ghost predicate RefusedAt(cfg: Config, model: Model, e: Engine, firstId: int, prompts: seq<seq<Token>>,
                            params: Params, now: real, i: nat)
    requires cfg.blockSize > 0 && i < |prompts|
  {
    var r := Run(cfg, model, e, Arrivals(firstId, prompts[..i], params, now));
    r.Done? && !(Acceptance.Servable(cfg, prompts[i], params) && Acceptance.Free(r.e.st, firstId + i))
  }

  lemma {:induction false} NoArrivals(cfg: Config, model: Model, e: Engine, firstId: int, prompts: seq<seq<Token>>,
                                      params: Params, now: real)
    requires cfg.blockSize > 0
    ensures Run(cfg, model, e, Arrivals(firstId, prompts[..0], params, now)) == Done(e, [])
  {
    assert Arrivals(firstId, prompts[..0], params, now) == [];
    NoEvents(cfg, model, e);
  }

  lemma {:induction false} Refused(cfg: Config, model: Model, e0: Engine, firstId: int, prompts: seq<seq<Token>>,
                                   params: Params, now: real, i: nat, e: Engine)
    requires cfg.blockSize > 0 && i < |prompts| && Run(cfg, model, e0, Arrivals(firstId, prompts[..i], params, now)) == Done(e, [])
    requires !(Acceptance.Servable(cfg, prompts[i], params) && Acceptance.Free(e.st, firstId + i))
    ensures RefusedAt(cfg, model, e0, firstId, prompts, params, now, i)
  {
    hide Run, Acceptance.Servable, Acceptance.Free, Arrivals;
  }

  lemma {:induction false} OneArrival(cfg: Config, model: Model, e0: Engine, firstId: int, prompts: seq<seq<Token>>,
                                      params: Params, now: real, i: nat, e: Engine)
    requires cfg.blockSize > 0 && i < |prompts| && Run(cfg, model, e0, Arrivals(firstId, prompts[..i], params, now)) == Done(e, [])
    ensures Run(cfg, model, e0, Arrivals(firstId, prompts[..i + 1], params, now))
         == Done(EngineRun.AddRequest(cfg, e, firstId + i, prompts[i], params, now, None), [])
  {
    hide Run, EngineRun.AddRequest;
    var ev := Event.Add(firstId + i, prompts[i], params, now, None);
    OneMore(cfg, model, e0, Arrivals(firstId, prompts[..i], params, now), e, [], ev);
    assert Arrivals(firstId, prompts[..i + 1], params, now) == Arrivals(firstId, prompts[..i], params, now) + [ev];
  }

  lemma {:induction false} NoEvents(cfg: Config, model: Model, e: Engine)
    requires cfg.blockSize > 0
    ensures Run(cfg, model, e, []) == Done(e, [])
  {
  }

  /** Runs compose. */
  lemma {:induction false} RunThen(cfg: Config, model: Model, e: Engine, a: seq<Event>, b: seq<Event>)
    requires cfg.blockSize > 0 && Run(cfg, model, e, a).Done?
    ensures var r := Run(cfg, model, e, a);
      var s := Run(cfg, model, r.e, b);
      Run(cfg, model, e, a + b) == if s.Done? then Done(s.e, r.outputs + s.outputs) else Stuck
    decreases |a|
  {
    hide EngineRun.Next;
    if a == [] {
      assert a + b == b;
      var s := Run(cfg, model, e, b);
      assert s.Done? ==> [] + s.outputs == s.outputs;
    } else {
      assert (a + b)[1..] == a[1..] + b;
      var first := EngineRun.Next(cfg, model, e, a[0]);
      RunThen(cfg, model, first.e, a[1..], b);
      var r := Run(cfg, model, first.e, a[1..]);
      var s := Run(cfg, model, r.e, b);
      assert s.Done? ==> first.outputs + (r.outputs + s.outputs) == first.outputs + r.outputs + s.outputs;
    }
  }

  lemma {:induction false} OneMore(cfg: Config, model: Model, e0: Engine, events: seq<Event>, e: Engine,
                                   outputs: seq<Output>, ev: Event)
    requires cfg.blockSize > 0 && Run(cfg, model, e0, events) == Done(e, outputs) && EngineRun.Next(cfg, model, e, ev).Done?
    ensures var r := EngineRun.Next(cfg, model, e, ev); Run(cfg, model, e0, events + [ev]) == Done(r.e, outputs + r.outputs)
  {
    RunThen(cfg, model, e0, events, [ev]);
    hide EngineRun.Next;
    var r := EngineRun.Next(cfg, model, e, ev);
    assert [ev][1..] == [];
    NoEvents(cfg, model, r.e);
    assert r.outputs + [] == r.outputs;
  }
}
