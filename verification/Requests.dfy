// Requests entering the waiting queue and requests aborted in any state: both keep the engine's
// invariant, so every run from an empty engine keeps it.
module Requests {
  import opened Basics
  import opened Paging
  import opened BlockPool
  import opened Transformer
  import opened Streaming
  import opened Scheduling
  import opened Accounting
  import opened Planning
  import opened Stepping
  import opened Memory
  import opened KvKept
  import opened Results
  import opened EngineRun

  // --- arrivals --------------------------------------------------------------------------------------------------

  lemma {:induction false} EnqueueTotal<T>(cfg: Config, waiting: seq<Seq>, s: Seq, f: Seq -> multiset<T>)
    ensures Total(Enqueue(cfg, waiting, s), f) == Total(waiting, f) + f(s)
    decreases |waiting|
  {
    if waiting == [] || KeyLess(Key(cfg, s), Key(cfg, waiting[0])) {
      assert ([s] + waiting)[1..] == waiting;
    } else {
      EnqueueTotal(cfg, waiting[1..], s, f);
      var rest := Enqueue(cfg, waiting[1..], s);
      assert ([waiting[0]] + rest)[1..] == rest;
    }
  }

  /** The waiting queue gains exactly the new request. */
  lemma {:induction false} EnqueueMembers(cfg: Config, waiting: seq<Seq>, s: Seq)
    ensures |Enqueue(cfg, waiting, s)| == |waiting| + 1
    ensures forall t :: t in Enqueue(cfg, waiting, s) <==> t == s || t in waiting
    decreases |waiting|
  {
    if waiting != [] && !KeyLess(Key(cfg, s), Key(cfg, waiting[0])) {
      EnqueueMembers(cfg, waiting[1..], s);
      var rest := Enqueue(cfg, waiting[1..], s);
      assert forall t :: t in waiting <==> t == waiting[0] || t in waiting[1..];
      assert forall t :: t in [waiting[0]] + rest <==> t == waiting[0] || t in rest;
    }
  }

  lemma {:induction false} NotFound(seqs: seq<Seq>, id: int)
    requires FindId(seqs, id).None?
    ensures Total(seqs, IdOf)[id] == 0
    decreases |seqs|
  {
    if seqs != [] {
      NotFound(seqs[1..], id);
    }
  }

  lemma {:induction false} Found(seqs: seq<Seq>, id: int)
    ensures FindId(seqs, id).Some? <==> Total(seqs, IdOf)[id] > 0
    decreases |seqs|
  {
    if seqs != [] {
      Found(seqs[1..], id);
    }
  }

  lemma {:induction false} FindInConcat(a: seq<Seq>, b: seq<Seq>, id: int)
    ensures FindId(a + b, id) == if FindId(a, id).Some? then FindId(a, id) else FindId(b, id)
    decreases |a|
  {
    if a == [] {
      assert a + b == b;
    } else {
      assert (a + b)[1..] == a[1..] + b;
      FindInConcat(a[1..], b, id);
    }
  }

  /** A lookup by id goes through running, swapped, preempted and waiting in turn. */
  lemma {:induction false} FindLive(st: State, id: int)
    ensures FindId(LiveSeqs(st), id)
         == if FindId(st.running, id).Some? then FindId(st.running, id)
            else if FindId(st.swapped, id).Some? then FindId(st.swapped, id)
            else if FindId(st.preempted, id).Some? then FindId(st.preempted, id)
            else FindId(st.waiting, id)
  {
    FindInConcat(st.running, st.swapped, id);
    FindInConcat(st.running + st.swapped, st.preempted, id);
    FindInConcat(st.running + st.swapped + st.preempted, st.waiting, id);
  }

  lemma {:induction false} BeginIds(st: State)
    ensures Ids(Begin(st)) == Total(st.running, IdOf) + Total(st.swapped, IdOf) + Total(st.preempted, IdOf) + Total(st.waiting, IdOf)
  {
    IdleConcat(st.running, []);
    assert Seqs([]) == [];
    NoTotal(IdOf);
  }

  lemma {:induction false} NewSeqOk(cfg: Config, model: Model, id: int, prompt: seq<Token>, params: Params,
                                    arrival: real, priority: Option<real>)
    requires cfg.blockSize > 0 && Acceptable(cfg, prompt, params)
    ensures ParkedOk(cfg, NewSeq(cfg, id, prompt, params, arrival, priority), Waiting)
    ensures OnCourse(cfg, model, NewSeq(cfg, id, prompt, params, arrival, priority))
  {
    hide SoloRun;
    var s := NewSeq(cfg, id, prompt, params, arrival, priority);
    assert Prompt(s) == prompt;
  }

  lemma {:induction false} EnqueueQueues(cfg: Config, m: Mid, s: Seq)
    requires cfg.blockSize > 0 && QueuesOk(cfg, m.swapped, m.preempted, m.waiting) && ParkedOk(cfg, s, Waiting)
    ensures QueuesOk(cfg, m.swapped, m.preempted, Enqueue(cfg, m.waiting, s))
  {
    hide SwappedOk, ParkedOk;
    EnqueueMembers(cfg, m.waiting, s);
    var w := Enqueue(cfg, m.waiting, s);
    forall i | 0 <= i < |w| ensures ParkedOk(cfg, w[i], Waiting) {
      assert w[i] in w;
    }
  }

  lemma {:induction false} EnqueueOnCourse(cfg: Config, model: Model, waiting: seq<Seq>, s: Seq)
    requires AllOnCourse(cfg, model, waiting) && OnCourse(cfg, model, s)
    ensures AllOnCourse(cfg, model, Enqueue(cfg, waiting, s))
  {
    hide OnCourse;
    EnqueueMembers(cfg, waiting, s);
    var w := Enqueue(cfg, waiting, s);
    forall i | 0 <= i < |w| ensures OnCourse(cfg, model, w[i]) {
      assert w[i] in w;
    }
  }

  lemma {:induction false} AddStateOk(cfg: Config, st: State, s: Seq)
    requires cfg.blockSize > 0 && StateOk(cfg, st) && ParkedOk(cfg, s, Waiting) && FindId(LiveSeqs(st), s.id).None?
    ensures StateOk(cfg, st.(waiting := Enqueue(cfg, st.waiting, s)))
  {
    hide Valid, CpuValid, ItemsOk, TodosOk, QueuesOk, Total, ParkedOk, Enqueue, FindId, LiveSeqs;
    var st' := st.(waiting := Enqueue(cfg, st.waiting, s));
    EnqueueQueues(cfg, Begin(st), s);
    EnqueueTotal(cfg, st.waiting, s, IdOf);
    FindLive(st, s.id);
    NotFound(st.running, s.id);
    NotFound(st.swapped, s.id);
    NotFound(st.preempted, s.id);
    NotFound(st.waiting, s.id);
    BeginIds(st);
    BeginIds(st');
    assert Ids(Begin(st')) == Ids(Begin(st)) + multiset{s.id};
  }

  lemma {:induction false} AddOk(cfg: Config, model: Model, e: Engine, id: int, prompt: seq<Token>, params: Params,
                                 arrival: real, priority: Option<real>)
    requires cfg.blockSize > 0 && EngineOk(cfg, model, e)
    ensures EngineOk(cfg, model, AddRequest(cfg, e, id, prompt, params, arrival, priority))
  {
    hide StateOk, AllOnCourse, AllSettled, OnCourse, ParkedOk, MemShape, OnDevice, OnHost, CacheKV;
    if Acceptable(cfg, prompt, params) && FindId(LiveSeqs(e.st), id).None? {
      var s := NewSeq(cfg, id, prompt, params, arrival, priority);
      NewSeqOk(cfg, model, id, prompt, params, arrival, priority);
      AddStateOk(cfg, e.st, s);
      LiveOnCourse(cfg, model, e.st);
      EnqueueOnCourse(cfg, model, e.st.waiting, s);
      LiveOnCourse(cfg, model, AddRequest(cfg, e, id, prompt, params, arrival, priority).st);
    }
  }

  // --- aborts ------------------------------------------------------------------------------------------------------

  /** Dropping by id removes exactly the request found. */
  lemma {:induction false} DropTotal<T>(seqs: seq<Seq>, id: int, f: Seq -> multiset<T>)
    requires FindId(seqs, id).Some?
    ensures Total(seqs, f) == Total(DropId(seqs, id), f) + f(FindId(seqs, id).value)
    decreases |seqs|
  {
    if seqs[0].id != id {
      DropTotal(seqs[1..], id, f);
      var rest := DropId(seqs[1..], id);
      assert ([seqs[0]] + rest)[1..] == rest;
    }
  }

  lemma {:induction false} DropMembers(seqs: seq<Seq>, id: int)
    requires FindId(seqs, id).Some?
    ensures |DropId(seqs, id)| == |seqs| - 1
    ensures FindId(seqs, id).value in seqs && FindId(seqs, id).value.id == id
    ensures forall i :: 0 <= i < |DropId(seqs, id)| ==> DropId(seqs, id)[i] in seqs
    decreases |seqs|
  {
    if seqs[0].id != id {
      DropMembers(seqs[1..], id);
      var rest := DropId(seqs[1..], id);
      forall i | 0 <= i < |DropId(seqs, id)| ensures DropId(seqs, id)[i] in seqs {
        if i > 0 {
          assert DropId(seqs, id)[i] == rest[i - 1];
        }
      }
    }
  }

  /** Abort's dispatch on the request's own state picks the queue that holds it. */
  lemma {:induction false} AbortDispatch(cfg: Config, st: State, id: int)
    requires cfg.blockSize > 0 && StateOk(cfg, st) && FindId(LiveSeqs(st), id).Some?
    ensures var s := FindId(LiveSeqs(st), id).value;
      FindId(if s.status == Running then st.running
             else if s.cpuTable != [] then st.swapped
             else if s.status == Preempted then st.preempted
             else st.waiting, id) == Some(s)
  {
    hide Valid, CpuValid, Unique, RequestOk, BlocksFor;
    FindLive(st, id);
    var s := FindId(LiveSeqs(st), id).value;
    if FindId(st.running, id).Some? {
      DropMembers(st.running, id);
      var i :| 0 <= i < |st.running| && st.running[i] == s;
      assert ItemOk(cfg, st.pool, Begin(st).items[i]);
    } else if FindId(st.swapped, id).Some? {
      DropMembers(st.swapped, id);
      var i :| 0 <= i < |st.swapped| && st.swapped[i] == s;
      SwappedHasHosts(cfg, s);
    } else if FindId(st.preempted, id).Some? {
      DropMembers(st.preempted, id);
      var i :| 0 <= i < |st.preempted| && st.preempted[i] == s;
      assert ParkedOk(cfg, s, Preempted);
    } else {
      DropMembers(st.waiting, id);
      var i :| 0 <= i < |st.waiting| && st.waiting[i] == s;
      assert ParkedOk(cfg, s, Waiting);
    }
  }

  lemma {:induction false} SwappedHasHosts(cfg: Config, s: Seq)
    requires cfg.blockSize > 0 && SwappedOk(cfg, s)
    ensures s.cpuTable != []
  {
    BlocksForMono(cfg.blockSize, s.computed, s.computed);
  }

  /** The plan in which s has been taken off its queue, as abort takes it. */
  function WithoutIt(st: State, s: Seq): State {
    if s.status == Running then st.(running := DropId(st.running, s.id))
    else if s.cpuTable != [] then st.(swapped := DropId(st.swapped, s.id))
    else if s.status == Preempted then st.(preempted := DropId(st.preempted, s.id))
    else st.(waiting := DropId(st.waiting, s.id))
  }

  lemma {:induction false} DropQueues(cfg: Config, m: Mid, id: int)
    requires cfg.blockSize > 0 && QueuesOk(cfg, m.swapped, m.preempted, m.waiting)
    ensures FindId(m.swapped, id).Some? ==>
      QueuesOk(cfg, DropId(m.swapped, id), m.preempted, m.waiting) && SwappedOk(cfg, FindId(m.swapped, id).value)
    ensures FindId(m.preempted, id).Some? ==>
      QueuesOk(cfg, m.swapped, DropId(m.preempted, id), m.waiting) && ParkedOk(cfg, FindId(m.preempted, id).value, Preempted)
    ensures FindId(m.waiting, id).Some? ==>
      QueuesOk(cfg, m.swapped, m.preempted, DropId(m.waiting, id)) && ParkedOk(cfg, FindId(m.waiting, id).value, Waiting)
  {
    hide SwappedOk, ParkedOk;
    if FindId(m.swapped, id).Some? {
      DropMembers(m.swapped, id);
    }
    if FindId(m.preempted, id).Some? {
      DropMembers(m.preempted, id);
    }
    if FindId(m.waiting, id).Some? {
      DropMembers(m.waiting, id);
    }
  }

  lemma {:induction false} DropItems(cfg: Config, p: Pool, running: seq<Seq>, id: int)
    requires cfg.blockSize > 0 && ItemsOk(cfg, p, Idle(running)) && FindId(running, id).Some?
    ensures ItemsOk(cfg, p, Idle(DropId(running, id))) && ItemOk(cfg, p, Item(FindId(running, id).value, 0))
  {
    hide ItemOk;
    DropMembers(running, id);
    var rest := DropId(running, id);
    forall i | 0 <= i < |rest| ensures ItemOk(cfg, p, Idle(rest)[i]) {
      var j :| 0 <= j < |running| && running[j] == rest[i];
      assert Idle(running)[j] == Idle(rest)[i];
    }
    var j :| 0 <= j < |running| && running[j] == FindId(running, id).value;
    assert Idle(running)[j] == Item(FindId(running, id).value, 0);
  }

  /** What kind of sequence abort takes, and which tables it holds. */
  lemma {:induction false} TakenTables(cfg: Config, st: State, id: int)
    requires cfg.blockSize > 0 && StateOk(cfg, st) && FindId(LiveSeqs(st), id).Some?
    ensures var s := FindId(LiveSeqs(st), id).value;
      && s.id == id
      && (s.status == Running ==> s.cpuTable == [])
      && (s.status != Running ==> s.table == [])
      && QueuesOk(cfg, WithoutIt(st, s).swapped, WithoutIt(st, s).preempted, WithoutIt(st, s).waiting)
      && ItemsOk(cfg, st.pool, Idle(WithoutIt(st, s).running))
      && |WithoutIt(st, s).running| <= |st.running|
  {
    AbortDispatch(cfg, st, id);
    hide Valid, CpuValid, Unique, RequestOk, BlocksFor, TableOk, ItemsOk, QueuesOk;
    var s := FindId(LiveSeqs(st), id).value;
    DropQueues(cfg, Begin(st), id);
    if s.status == Running {
      DropItems(cfg, st.pool, st.running, id);
      DropMembers(st.running, id);
      NoHosts(cfg, st.pool, s);
    } else if s.cpuTable != [] {
      DropMembers(st.swapped, id);
    } else if s.status == Preempted {
      DropMembers(st.preempted, id);
    } else {
      DropMembers(st.waiting, id);
    }
  }

  /** Taking s off its queue leaves the structure intact but for s. */
  lemma {:induction false} TakeAborted(cfg: Config, st: State, id: int)
    requires cfg.blockSize > 0 && StateOk(cfg, st) && FindId(LiveSeqs(st), id).Some?
    ensures OkBut(cfg, Begin(WithoutIt(st, FindId(LiveSeqs(st), id).value)), FindId(LiveSeqs(st), id).value)
    ensures FindId(LiveSeqs(st), id).value.id == id && Ids(Begin(st)) == Ids(Begin(WithoutIt(st, FindId(LiveSeqs(st), id).value))) + multiset{id}
  {
    AbortDispatch(cfg, st, id);
    TakenTables(cfg, st, id);
    hide Valid, CpuValid, ItemsOk, QueuesOk, Unique, Total, FindId, DropId;
    var s := FindId(LiveSeqs(st), id).value;
    var st1 := WithoutIt(st, s);
    AbortTotals(st, s);
    BeginIds(st);
    BeginIds(st1);
    IdleConcat(st.running, []);
    IdleConcat(st1.running, []);
    assert Held(Begin(st1).items, Begin(st1).todo) + multiset(s.table) == Held(Begin(st).items, Begin(st).todo);
    assert Total(st1.swapped, HostsOf) + multiset(s.cpuTable) == Total(st.swapped, HostsOf);
    assert Ids(Begin(st1)) + multiset{s.id} == Ids(Begin(st));
    NobodyTodo(cfg, st.pool);
  }

  lemma {:induction false} NobodyTodo(cfg: Config, p: Pool)
    requires cfg.blockSize > 0
    ensures TodosOk(cfg, p, [])
  {
  }

  lemma {:induction false} AbortTotals(st: State, s: Seq)
    requires FindId(if s.status == Running then st.running
             else if s.cpuTable != [] then st.swapped
             else if s.status == Preempted then st.preempted
             else st.waiting, s.id) == Some(s)
    requires (s.status == Running ==> s.cpuTable == []) && (s.status != Running ==> s.table == [])
    ensures var st1 := WithoutIt(st, s);
      && Total(st.running, TableOf) == Total(st1.running, TableOf) + multiset(s.table)
      && Total(st.swapped, HostsOf) == Total(st1.swapped, HostsOf) + multiset(s.cpuTable)
      && Total(st.running, IdOf) + Total(st.swapped, IdOf) + Total(st.preempted, IdOf) + Total(st.waiting, IdOf)
         == Total(st1.running, IdOf) + Total(st1.swapped, IdOf) + Total(st1.preempted, IdOf) + Total(st1.waiting, IdOf) + multiset{s.id}
  {
    hide Total, FindId, DropId;
    if s.status == Running {
      DropTotal(st.running, s.id, TableOf);
      DropTotal(st.running, s.id, IdOf);
    } else if s.cpuTable != [] {
      DropTotal(st.swapped, s.id, HostsOf);
      DropTotal(st.swapped, s.id, IdOf);
    } else if s.status == Preempted {
      DropTotal(st.preempted, s.id, IdOf);
    } else {
      DropTotal(st.waiting, s.id, IdOf);
    }
  }

  /** Abort gives back what a failure would give back. */
  lemma {:induction false} AbortPool(cfg: Config, st: State, id: int)
    requires cfg.blockSize > 0 && StateOk(cfg, st) && FindId(LiveSeqs(st), id).Some?
    ensures var s := FindId(LiveSeqs(st), id).value;
      var st1 := WithoutIt(st, s);
      var st2 := AbortRequest(Engine(st, Mem([], [])), id).st;
      && st2.pool == Fail(Begin(st1), s).pool
      && st2 == st1.(pool := st2.pool, retired := st2.retired)
  {
    TakenTables(cfg, st, id);
    hide FindId, DropId, StateOk;
    var s := FindId(LiveSeqs(st), id).value;
    if s.status == Running {
      var q := FreeTable(st.pool, s.table);
      assert q.cpuFree + [] == q.cpuFree;
    } else {
      assert FreeTable(st.pool, s.table) == st.pool;
      assert st.pool.cpuFree + [] == st.pool.cpuFree;
    }
  }

  lemma {:induction false} AbortKv(cfg: Config, model: Model, mem: Mem, st: State, id: int)
    requires cfg.blockSize > 0 && StateOk(cfg, st) && KvOk(cfg, model, mem, Begin(st)) && FindId(LiveSeqs(st), id).Some?
    ensures KvOk(cfg, model, mem, Begin(WithoutIt(st, FindId(LiveSeqs(st), id).value)))
  {
    AbortDispatch(cfg, st, id);
    hide StateOk, MemShape, CacheKV, SeqKV, FindId, DropId;
    var s := FindId(LiveSeqs(st), id).value;
    var st1 := WithoutIt(st, s);
    IdleConcat(st.running, []);
    IdleConcat(st1.running, []);
    DropMembers(LiveSeqs(st), id);
    if s.status == Running {
      DropMembers(st.running, id);
      forall i | 0 <= i < |st1.running|
        ensures SeqKV(model, cfg.blockSize, mem.gpu, st1.running[i].table, st1.running[i].gen.tokens, st1.running[i].computed)
      {
        var j :| 0 <= j < |st.running| && st.running[j] == st1.running[i];
      }
    } else if s.cpuTable != [] {
      DropMembers(st.swapped, id);
      forall i | 0 <= i < |st1.swapped|
        ensures SeqKV(model, cfg.blockSize, mem.cpu, st1.swapped[i].cpuTable, st1.swapped[i].gen.tokens, st1.swapped[i].computed)
      {
        var j :| 0 <= j < |st.swapped| && st.swapped[j] == st1.swapped[i];
      }
    }
  }

  lemma {:induction false} DropOnCourse(cfg: Config, model: Model, seqs: seq<Seq>, id: int)
    requires AllOnCourse(cfg, model, seqs)
    ensures FindId(seqs, id).Some? ==>
      AllOnCourse(cfg, model, DropId(seqs, id)) && OnCourse(cfg, model, FindId(seqs, id).value)
  {
    hide OnCourse;
    if FindId(seqs, id).Some? {
      DropMembers(seqs, id);
    }
  }

  lemma {:induction false} AbortOnCourse(cfg: Config, model: Model, e: Engine, id: int)
    requires cfg.blockSize > 0 && StateOk(cfg, e.st) && FindId(LiveSeqs(e.st), id).Some?
    requires AllOnCourse(cfg, model, LiveSeqs(e.st)) && AllSettled(cfg, model, e.st.retired)
    ensures AllOnCourse(cfg, model, LiveSeqs(AbortRequest(e, id).st)) && AllSettled(cfg, model, AbortRequest(e, id).st.retired)
  {
    AbortDispatch(cfg, e.st, id);
    hide StateOk, AllOnCourse, AllSettled, OnCourse, FindId, DropId;
    var st := e.st;
    var s := FindId(LiveSeqs(st), id).value;
    LiveOnCourse(cfg, model, st);
    DropOnCourse(cfg, model, st.running, id);
    DropOnCourse(cfg, model, st.swapped, id);
    DropOnCourse(cfg, model, st.preempted, id);
    DropOnCourse(cfg, model, st.waiting, id);
    LiveOnCourse(cfg, model, AbortRequest(e, id).st);
    DropMembers(LiveSeqs(st), id);
    var gone := s.(table := [], cpuTable := [], registered := 0, status := Aborted);
    GoneSettled(cfg, model, s, gone);
    CourseConcat(cfg, model, st.retired, [gone]);
  }

  lemma {:induction false} GoneSettled(cfg: Config, model: Model, s: Seq, gone: Seq)
    requires OnCourse(cfg, model, s) && gone.gen == s.gen && gone.params == s.params && gone.status == Aborted
    ensures AllSettled(cfg, model, [gone])
  {
    hide SoloRun;
    assert Prompt(gone) == Prompt(s);
  }

  lemma {:induction false} AbortOk(cfg: Config, model: Model, e: Engine, id: int)
    requires cfg.blockSize > 0 && EngineOk(cfg, model, e)
    ensures EngineOk(cfg, model, AbortRequest(e, id))
  {
    hide KvOk, AllOnCourse, AllSettled, FindId, DropId, MidOk, OkBut, Fail;
    if FindId(LiveSeqs(e.st), id).Some? {
      var s := FindId(LiveSeqs(e.st), id).value;
      var st1, st2 := WithoutIt(e.st, s), AbortRequest(e, id).st;
      TakeAborted(cfg, e.st, id);
      AbortPool(cfg, e.st, id);
      assert st2.pool == AbortRequest(Engine(e.st, Mem([], [])), id).st.pool;
      FailOk(cfg, Begin(st1), s);
      AbortKv(cfg, model, e.mem, e.st, id);
      FailKv(cfg, model, e.mem, Begin(st1), s);
      AbortShape(cfg, model, e.mem, st1, st2, s);
      AbortOnCourse(cfg, model, e, id);
    }
  }

  lemma {:induction false} AbortShape(cfg: Config, model: Model, mem: Mem, st1: State, st2: State, s: Seq)
    requires cfg.blockSize > 0 && st2 == st1.(pool := Fail(Begin(st1), s).pool, retired := st2.retired)
    requires MidOk(cfg, Fail(Begin(st1), s)) && KvOk(cfg, model, mem, Fail(Begin(st1), s))
    ensures MidOk(cfg, Begin(st2)) && KvOk(cfg, model, mem, Begin(st2))
  {
    hide Valid, CpuValid, ItemsOk, TodosOk, QueuesOk, Unique, Total, MemShape, OnDevice, OnHost, CacheKV;
    FailShape(Begin(st1), s);
    assert Ids(Begin(st2)) == Ids(Fail(Begin(st1), s));
  }

  // --- whole runs ----------------------------------------------------------------------------------------------------

  lemma {:induction false} StartOk(cfg: Config, model: Model, mem: Mem)
    requires cfg.blockSize > 0 && MemShape(cfg, model, mem)
    ensures EngineOk(cfg, model, Start(cfg, mem))
  {
    var st := Start(cfg, mem).st;
    NewPoolValid(cfg.numBlocks, cfg.numCpuBlocks);
    NewCpuValid(cfg.numCpuBlocks);
    hide Valid, CpuValid, MemShape;
    var m := Begin(st);
    assert Seqs(m.items) == [] && Seqs(m.todo) == [] && LiveSeqs(st) == [];
    assert Held(m.items, m.todo) == multiset{};
    assert Ids(m) == multiset{};
    assert Total(m.swapped, HostsOf) == multiset{};
    assert forall b: Block :: HashOf(m.pool, b) == None;
  }

  lemma {:induction false} NewCpuValid(n: nat)
    ensures CpuValid(n, NewPool(0, n).cpuFree, multiset{})
  {
    var free := NewPool(0, n).cpuFree;
    assert Distinct(free);
    forall c: Block ensures multiset(free)[c] == if 0 <= c < n then 1 else 0 {
      DistinctCount(free, c);
      if 0 <= c < n {
        assert free[c] == c;
      }
    }
  }

  lemma {:induction false} NextOk(cfg: Config, model: Model, e: Engine, ev: Event)
    requires cfg.blockSize > 0 && EngineOk(cfg, model, e)
    ensures Next(cfg, model, e, ev).Done? ==> EngineOk(cfg, model, Next(cfg, model, e, ev).e)
  {
    hide EngineOk, StepEngine, AddRequest, AbortRequest;
    match ev
    case Add(id, prompt, params, arrival, priority) => AddOk(cfg, model, e, id, prompt, params, arrival, priority);
    case Abort(id) => AbortOk(cfg, model, e, id);
    case Step => StepOk(cfg, model, e);
  }
}
