// The engine as a state machine over requests arriving, requests aborted and steps, and its main
// invariant: structure, page contents, and every request on the course of its lone run.
module EngineRun {
  import opened Basics
  import opened BlockPool
  import opened Transformer
  import opened Streaming
  import opened Scheduling
  import opened Accounting
  import opened Planning
  import opened Stepping
  import opened Memory
  import opened KvKept
  import opened Forward
  import opened Execute
  import opened Census
  import opened Results

  datatype Engine = Engine(st: State, mem: Mem)

  datatype Event =
    | Add(id: int, prompt: seq<Token>, params: Params, arrival: real, priority: Option<real>)
    | Abort(id: int)
    | Step

  /** An event's effect; a step can raise the watchdog's error. */
  datatype Outcome = Done(e: Engine, outputs: seq<Output>) | Stuck

  function Start(cfg: Config, mem: Mem): Engine {
    Engine(State(NewPool(cfg.numBlocks, cfg.numCpuBlocks), [], [], [], [], []), mem)
  }

  // --- one step ------------------------------------------------------------------------------------------------

  /** Swap, run the forward pass, and sample the rows that reach their last token. */
  function RunBatch(cfg: Config, model: Model, mem: Mem, m: Mid): (Mem, seq<Token>)
    requires cfg.blockSize > 0
  {
    var mem1 := Swapped(mem, m.swapOut, m.swapIn);
    var (gpu, hidden) := Pass(model, cfg.blockSize, Rows(m.items), mem1.gpu);
    (Mem(gpu, mem1.cpu), SampleFrom(model, m.items, hidden))
  }

  function Planned(m: Mid): State {
    State(m.pool, Seqs(m.items), m.swapped, m.preempted, m.waiting, m.retired)
  }

  function StepEngine(cfg: Config, model: Model, e: Engine): Outcome
    requires cfg.blockSize > 0
  {
    var m := Schedule(cfg, e.st);
    if BatchEmpty(m) then
      if m.outputs == [] && HasWork(Planned(m)) then Stuck else Done(Engine(Planned(m), e.mem), m.outputs)
    else
      var (mem, sampled) := RunBatch(cfg, model, e.mem, m);
      var (st, outputs) := Update(cfg, m, sampled);
      Done(Engine(st, mem), outputs)
  }

  // --- arrivals and aborts -------------------------------------------------------------------------------------

  function LiveSeqs(st: State): seq<Seq> {
    st.running + st.swapped + st.preempted + st.waiting
  }

  /** A request that validation or the duplicate check refuses changes nothing. */
  function AddRequest(cfg: Config, e: Engine, id: int, prompt: seq<Token>, params: Params, arrival: real,
                      priority: Option<real>): Engine {
    if !Acceptable(cfg, prompt, params) || FindId(LiveSeqs(e.st), id).Some? then e
    else
      var s := NewSeq(cfg, id, prompt, params, arrival, priority);
      e.(st := e.st.(waiting := Enqueue(cfg, e.st.waiting, s)))
  }

  function Retire(st: State, p: Pool, s: Seq): State {
    st.(pool := p, retired := st.retired + [s.(table := [], cpuTable := [], registered := 0, status := Aborted)])
  }

  /** Drop a request wherever its own state says it is; unknown ids are ignored. */
  function AbortRequest(e: Engine, id: int): Engine {
    match FindId(LiveSeqs(e.st), id)
    case None => e
    case Some(s) =>
      var st := e.st;
      if s.status == Running then
        e.(st := Retire(st.(running := DropId(st.running, id)), FreeTable(st.pool, s.table), s))
      else if s.cpuTable != [] then
        e.(st := Retire(st.(swapped := DropId(st.swapped, id)), st.pool.(cpuFree := st.pool.cpuFree + s.cpuTable), s))
      else if s.status == Preempted then
        e.(st := Retire(st.(preempted := DropId(st.preempted, id)), st.pool, s))
      else
        e.(st := Retire(st.(waiting := DropId(st.waiting, id)), st.pool, s))
  }

  function Next(cfg: Config, model: Model, e: Engine, ev: Event): Outcome
    requires cfg.blockSize > 0
  {
    match ev
    case Add(id, prompt, params, arrival, priority) => Done(AddRequest(cfg, e, id, prompt, params, arrival, priority), [])
    case Abort(id) => Done(AbortRequest(e, id), [])
    case Step => StepEngine(cfg, model, e)
  }

  /** A whole run; it stops where a step raises. */
  function Run(cfg: Config, model: Model, e: Engine, events: seq<Event>): Outcome
    requires cfg.blockSize > 0
    decreases |events|
  {
    if events == [] then Done(e, [])
    else
      match Next(cfg, model, e, events[0])
      case Stuck => Stuck
      case Done(e1, outs) =>
        match Run(cfg, model, e1, events[1..])
        case Stuck => Stuck
        case Done(e2, more) => Done(e2, outs + more)
  }

  // --- the invariant -------------------------------------------------------------------------------------------

  ghost predicate EngineOk(cfg: Config, model: Model, e: Engine)
    requires cfg.blockSize > 0
  {
    && StateOk(cfg, e.st)
    && KvOk(cfg, model, e.mem, Begin(e.st))
    && AllOnCourse(cfg, model, LiveSeqs(e.st))
    && AllSettled(cfg, model, e.st.retired)
  }

  // --- requests on course, seen through their cores --------------------------------------------------------------

  ghost predicate CoresOnCourse(cfg: Config, model: Model, cores: multiset<Seq>) {
    forall c :: c in cores ==> OnCourse(cfg, model, c)
  }

  lemma {:induction false} CoreOnCourse(cfg: Config, model: Model, s: Seq)
    ensures OnCourse(cfg, model, Core(s)) <==> OnCourse(cfg, model, s)
  {
    hide SoloRun;
    if s.gen.promptLen <= NumTokens(s) {
      assert Prompt(Core(s)) == Prompt(s);
    }
  }

  lemma {:induction false} CoresOfList(cfg: Config, model: Model, seqs: seq<Seq>)
    ensures CoresOnCourse(cfg, model, Total(seqs, CoreOf)) <==> AllOnCourse(cfg, model, seqs)
    decreases |seqs|
  {
    hide OnCourse, Core, CoresOnCourse, AllOnCourse;
    if seqs == [] {
      NobodyOnCourse(cfg, model);
      NoCores(cfg, model);
    } else {
      CoresOfList(cfg, model, seqs[1..]);
      CoreOnCourse(cfg, model, seqs[0]);
      OneCore(cfg, model, seqs[0]);
      CoresSum(cfg, model, CoreOf(seqs[0]), Total(seqs[1..], CoreOf));
      assert seqs == [seqs[0]] + seqs[1..];
      CourseSplit(cfg, model, [seqs[0]], seqs[1..]);
    }
  }

  lemma {:induction false} NoCores(cfg: Config, model: Model)
    ensures CoresOnCourse(cfg, model, multiset{})
  {
  }

  lemma {:induction false} OneCore(cfg: Config, model: Model, s: Seq)
    ensures CoresOnCourse(cfg, model, CoreOf(s)) <==> OnCourse(cfg, model, Core(s))
    ensures AllOnCourse(cfg, model, [s]) <==> OnCourse(cfg, model, s)
  {
    hide OnCourse;
    assert Core(s) in CoreOf(s);
    assert [s][0] == s;
  }

  lemma {:induction false} CoresSum(cfg: Config, model: Model, a: multiset<Seq>, b: multiset<Seq>)
    ensures CoresOnCourse(cfg, model, a + b) <==> CoresOnCourse(cfg, model, a) && CoresOnCourse(cfg, model, b)
  {
    hide OnCourse;
    if CoresOnCourse(cfg, model, a + b) {
      forall c | c in a ensures OnCourse(cfg, model, c) {
        assert c in a + b;
      }
      forall c | c in b ensures OnCourse(cfg, model, c) {
        assert c in a + b;
      }
    }
  }

  /** All five lists of a plan are on course exactly when its cores are. */
  lemma {:induction false} MidOnCourse(cfg: Config, model: Model, m: Mid)
    ensures CoresOnCourse(cfg, model, LiveCores(m)) <==>
      AllOnCourse(cfg, model, Seqs(m.items)) && AllOnCourse(cfg, model, Seqs(m.todo)) && AllOnCourse(cfg, model, m.swapped)
      && AllOnCourse(cfg, model, m.preempted) && AllOnCourse(cfg, model, m.waiting)
  {
    hide AllOnCourse, CoresOnCourse, Total;
    var a, b, c, d, f := Total(Seqs(m.items), CoreOf), Total(Seqs(m.todo), CoreOf), Total(m.swapped, CoreOf), Total(m.preempted, CoreOf), Total(m.waiting, CoreOf);
    CoresOfList(cfg, model, Seqs(m.items));
    CoresOfList(cfg, model, Seqs(m.todo));
    CoresOfList(cfg, model, m.swapped);
    CoresOfList(cfg, model, m.preempted);
    CoresOfList(cfg, model, m.waiting);
    CoresSum(cfg, model, a, b);
    CoresSum(cfg, model, a + b, c);
    CoresSum(cfg, model, a + b + c, d);
    CoresSum(cfg, model, a + b + c + d, f);
  }

  lemma {:induction false} LiveOnCourse(cfg: Config, model: Model, st: State)
    ensures AllOnCourse(cfg, model, LiveSeqs(st)) <==>
      AllOnCourse(cfg, model, st.running) && AllOnCourse(cfg, model, st.swapped)
      && AllOnCourse(cfg, model, st.preempted) && AllOnCourse(cfg, model, st.waiting)
  {
    hide AllOnCourse;
    CourseSplit(cfg, model, st.running, st.swapped);
    CourseSplit(cfg, model, st.running + st.swapped, st.preempted);
    CourseSplit(cfg, model, st.running + st.swapped + st.preempted, st.waiting);
  }

  lemma {:induction false} CourseSplit(cfg: Config, model: Model, a: seq<Seq>, b: seq<Seq>)
    ensures AllOnCourse(cfg, model, a + b) <==> AllOnCourse(cfg, model, a) && AllOnCourse(cfg, model, b)
  {
    hide OnCourse;
    if AllOnCourse(cfg, model, a + b) {
      forall i | 0 <= i < |a| ensures OnCourse(cfg, model, a[i]) {
        assert (a + b)[i] == a[i];
      }
      forall i | 0 <= i < |b| ensures OnCourse(cfg, model, b[i]) {
        assert (a + b)[|a| + i] == b[i];
      }
    }
  }

  /** Planning keeps every request on course; those it fails are settled part-way. */
  lemma {:induction false} ScheduleOnCourse(cfg: Config, model: Model, st: State)
    requires cfg.blockSize > 0 && StateOk(cfg, st)
    requires AllOnCourse(cfg, model, LiveSeqs(st)) && AllSettled(cfg, model, st.retired)
    ensures var m := Schedule(cfg, st);
      && AllOnCourse(cfg, model, Seqs(m.items)) && AllOnCourse(cfg, model, m.swapped)
      && AllOnCourse(cfg, model, m.preempted) && AllOnCourse(cfg, model, m.waiting)
      && AllSettled(cfg, model, m.retired)
  {
    hide StateOk, AllOnCourse, AllSettled, CoresOnCourse, LiveCores, Schedule, Total;
    var m := Schedule(cfg, st);
    var gone := ScheduleMoves(cfg, st);
    LiveOnCourse(cfg, model, st);
    IdleConcat(st.running, []);
    assert Seqs(Begin(st).todo) == [];
    NobodyOnCourse(cfg, model);
    MidOnCourse(cfg, model, Begin(st));
    CoresSum(cfg, model, LiveCores(m), Total(gone, CoreOf));
    MidOnCourse(cfg, model, m);
    CoresOfList(cfg, model, gone);
    FailedSettled(cfg, model, gone);
    CourseConcat(cfg, model, st.retired, gone);
  }

  lemma {:induction false} NobodyOnCourse(cfg: Config, model: Model)
    ensures AllOnCourse(cfg, model, []) && AllSettled(cfg, model, [])
  {
  }

  lemma {:induction false} FailedSettled(cfg: Config, model: Model, gone: seq<Seq>)
    requires AllOnCourse(cfg, model, gone) && forall i :: 0 <= i < |gone| ==> HasFailed(gone[i])
    ensures AllSettled(cfg, model, gone)
  {
    hide SoloRun, Alone;
    forall i | 0 <= i < |gone| ensures Settled(cfg, model, gone[i]) {
      assert OnCourse(cfg, model, gone[i]);
    }
  }

  // --- a step keeps the invariant --------------------------------------------------------------------------------

  lemma {:induction false} ReplanKv(cfg: Config, model: Model, mem: Mem, m: Mid)
    requires cfg.blockSize > 0 && MidOk(cfg, m) && m.todo == [] && AllIdle(m.items) && KvNow(cfg, model, mem, m)
    ensures KvNow(cfg, model, mem, m.(items := [], todo := Plan(cfg, Seqs(m.items))))
  {
    hide Plan, MemShape, OnHost, CacheKV, SeqKV, Swapped;
    PlanTodosOk(cfg, m.pool, m.items);
    assert Seqs([]) == [];
  }

  lemma {:induction false} ScheduleRunningKv(cfg: Config, model: Model, mem: Mem, m: Mid)
    requires cfg.blockSize > 0 && MidOk(cfg, m) && m.todo == [] && AllIdle(m.items) && m.swapIn == [] && KvNow(cfg, model, mem, m)
    ensures KvNow(cfg, model, mem, ScheduleRunning(cfg, m)) && ScheduleRunning(cfg, m).swapIn == []
  {
    hide MidOk, KvNow, RunLoop, Plan;
    var m' := m.(items := [], todo := Plan(cfg, Seqs(m.items)));
    ReplanOk(cfg, m);
    ReplanKv(cfg, model, mem, m);
    RunLoopKv(cfg, model, mem, m');
  }

  /** Planning a step, with its copies done, represents the same K/V. */
  lemma {:induction false} ScheduleKv(cfg: Config, model: Model, mem: Mem, st: State)
    requires cfg.blockSize > 0 && StateOk(cfg, st) && KvOk(cfg, model, mem, Begin(st))
    ensures KvNow(cfg, model, mem, Schedule(cfg, st))
  {
    hide MidOk, KvOk, AdmitLoop, SwapInLoop, ScheduleRunning, Batch, BatchTokens, CopyPages;
    var m := Begin(st);
    assert Swapped(mem, [], []) == mem by {
      NoCopies(mem.gpu, mem.cpu);
      NoCopies(mem.cpu, mem.gpu);
    }
    if cfg.chunked {
      ScheduleRunningOk(cfg, m);
      ScheduleRunningKv(cfg, model, mem, m);
      var m1 := ScheduleRunning(cfg, m);
      var b1 := Some(cfg.maxBatchTokens - BatchTokens(m1.items));
      SwapInLoopOk(cfg, m1, b1);
      SwapInLoopKv(cfg, model, mem, m1, b1);
      var m2 := SwapInLoop(cfg, m1, b1);
      AdmitLoopKv(cfg, model, mem, m2, cfg.maxBatchTokens - BatchTokens(m2.items));
    } else {
      AdmitLoopOk(cfg, m, cfg.maxBatchTokens);
      AdmitLoopKv(cfg, model, mem, m, cfg.maxBatchTokens);
      var m1 := if m.swapped == [] then AdmitLoop(cfg, m, cfg.maxBatchTokens) else m;
      BatchEmptyIdle(m1.items);
      if Batch(m1.items) == [] {
        ScheduleRunningOk(cfg, m1);
        ScheduleRunningKv(cfg, model, mem, m1);
        SwapInLoopKv(cfg, model, mem, ScheduleRunning(cfg, m1), None);
      }
    }
  }

  /** An empty batch leaves the running list as it is: taking no results would change nothing. */
  lemma {:induction false} IdleUpdate(cfg: Config, p: Pool, items: seq<Item>)
    requires cfg.blockSize > 0 && AllIdle(items)
    ensures UpdateItems(cfg, p, items, []) == Updated(p, Seqs(items), [], [])
    ensures NumSampled(items) == 0
    decreases |items|
  {
    hide TakeToken, Advance;
    if items == [] {
      assert Seqs(items) == [];
    } else {
      IdleItem(cfg, p, items[0]);
      hide UpdateItem, Samples;
      IdleUpdate(cfg, p, items[1..]);
      assert Seqs(items) == [items[0].s] + Seqs(items[1..]);
    }
  }

  lemma {:induction false} IdleItem(cfg: Config, p: Pool, it: Item)
    requires cfg.blockSize > 0 && it.n == 0
    ensures UpdateItem(cfg, p, it, []) == Updated(p, [it.s], [], []) && !Samples(it)
  {
  }

  lemma {:induction false} EmptyStepOk(cfg: Config, model: Model, mem: Mem, m: Mid)
    requires cfg.blockSize > 0 && MidOk(cfg, m) && m.todo == [] && BatchEmpty(m) && KvNow(cfg, model, mem, m)
    ensures StateOk(cfg, Planned(m)) && KvOk(cfg, model, mem, Begin(Planned(m)))
  {
    hide MidOk, MemShape, OnDevice, OnHost, CacheKV, UpdateItems, CopyPages, Batch, NumSampled;
    BatchEmptyIdle(m.items);
    IdleUpdate(cfg, m.pool, m.items);
    assert Swapped(mem, [], []) == mem by {
      NoCopies(mem.gpu, mem.cpu);
      NoCopies(mem.cpu, mem.gpu);
    }
    UpdateOk(cfg, m, []);
    IdleConcat(Seqs(m.items), []);
    assert Seqs(m.todo) == [];
    assert m.retired + [] == m.retired;
  }

  lemma {:induction false} FullStepOk(cfg: Config, model: Model, mem: Mem, m: Mid)
    requires cfg.blockSize > 0 && MidOk(cfg, m) && m.todo == [] && KvNow(cfg, model, mem, m)
    ensures var (mem', sampled) := RunBatch(cfg, model, mem, m);
      && sampled == Expected(model, m.items) && |sampled| == NumSampled(m.items)
      && StateOk(cfg, Update(cfg, m, sampled).0)
      && KvOk(cfg, model, mem', Begin(Update(cfg, m, sampled).0))
  {
    hide MidOk, CacheKV, SeqKV, UpdateItems, Swapped, Pass, SampleFrom, Expected, Rows, NumSampled, ItemsOk, PagesShape;
    var now := Swapped(mem, m.swapOut, m.swapIn);
    PassOk(cfg, model, now, m);
    var (mem', sampled) := RunBatch(cfg, model, mem, m);
    UpdateOk(cfg, m, sampled);
    WholePool(cfg, m);
    UpdateItemsKv(cfg, model, mem'.gpu, m.pool, multiset{}, m.items, sampled);
    var u := UpdateItems(cfg, m.pool, m.items, sampled);
    IdleConcat(u.running, []);
    assert Seqs([]) == [];
  }

  lemma {:induction false} WholePool(cfg: Config, m: Mid)
    requires cfg.blockSize > 0 && MidOk(cfg, m) && m.todo == []
    ensures Valid(cfg.numBlocks, m.pool, multiset{} + Total(Seqs(m.items), TableOf)) && ItemsOk(cfg, m.pool, m.items)
  {
    hide Valid, CpuValid, QueuesOk, Unique, ItemOk, Total;
    assert Seqs(m.todo) == [];
    NoTotal(TableOf);
    assert Held(m.items, m.todo) == multiset{} + Total(Seqs(m.items), TableOf);
  }

  /** A step that does not raise keeps the whole invariant. */
  lemma {:induction false} StepOk(cfg: Config, model: Model, e: Engine)
    requires cfg.blockSize > 0 && EngineOk(cfg, model, e)
    ensures var r := StepEngine(cfg, model, e); r.Done? ==> EngineOk(cfg, model, r.e)
  {
    hide StateOk, MidOk, KvOk, KvNow, AllOnCourse, AllSettled, Schedule, RunBatch, UpdateItems, Batch, Expected;
    var m := Schedule(cfg, e.st);
    ScheduleOk(cfg, e.st);
    ScheduleKv(cfg, model, e.mem, e.st);
    ScheduleOnCourse(cfg, model, e.st);
    if BatchEmpty(m) {
      EmptyStepOk(cfg, model, e.mem, m);
      LiveOnCourse(cfg, model, Planned(m));
    } else {
      FullStepOk(cfg, model, e.mem, m);
      var (mem, sampled) := RunBatch(cfg, model, e.mem, m);
      UpdateItemsOnCourse(cfg, model, m.pool, m.items, sampled);
      var st := Update(cfg, m, sampled).0;
      CourseConcat(cfg, model, m.retired, UpdateItems(cfg, m.pool, m.items, sampled).retired);
      LiveOnCourse(cfg, model, st);
    }
  }

  /** A step that does not raise is its plan followed by taking the tokens the lone runs would sample. */
  lemma {:induction false} StepIsUpdate(cfg: Config, model: Model, e: Engine) returns (sampled: seq<Token>)
    requires cfg.blockSize > 0 && EngineOk(cfg, model, e)
    ensures var m, r := Schedule(cfg, e.st), StepEngine(cfg, model, e);
      && sampled == Expected(model, m.items) && |sampled| == NumSampled(m.items)
      && (r.Done? ==> r.e.st == Update(cfg, m, sampled).0 && r.outputs == Update(cfg, m, sampled).1)
  {
    hide StateOk, MidOk, KvOk, KvNow, AllOnCourse, AllSettled, Schedule, RunBatch, UpdateItems, Batch, Expected;
    var m := Schedule(cfg, e.st);
    ScheduleOk(cfg, e.st);
    ScheduleKv(cfg, model, e.mem, e.st);
    if BatchEmpty(m) {
      BatchEmptyIdle(m.items);
      IdleUpdate(cfg, m.pool, m.items);
      IdleExpected(model, m.items);
      sampled := [];
      assert m.retired + [] == m.retired && m.outputs + [] == m.outputs;
    } else {
      FullStepOk(cfg, model, e.mem, m);
      sampled := RunBatch(cfg, model, e.mem, m).1;
    }
  }

  lemma {:induction false} IdleExpected(model: Model, items: seq<Item>)
    requires AllIdle(items)
    ensures Expected(model, items) == []
    decreases |items|
  {
    if items != [] {
      IdleExpected(model, items[1..]);
    }
  }
}
