// What holds whenever the engine is between two steps, and of the step it would plan next, whatever has happened
// since it started empty.
module Reachable {
  import opened Basics
  import opened Paging
  import opened BlockPool
  import opened Transformer
  import opened Scheduling
  import opened Planning
  import opened Stepping
  import opened Memory
  import opened KvKept
  import opened Execute
  import opened Results
  import opened EngineRun
  import opened Checks
  import Admission
  import Guarantees
  import HostRoom
  import Modes
  import Swaps

  lemma {:induction false} Reached(cfg: Config, model: Model, mem: Mem, events: seq<Event>)
    requires ConfigOk(cfg) && MemShape(cfg, model, mem)
    ensures var r := Run(cfg, model, Start(cfg, mem), events); r.Done? && Guarantees.Sound(cfg, model, r.e)
  {
    hide Run, Guarantees.Sound;
    Guarantees.StartSound(cfg, model, mem);
    Guarantees.RunSound(cfg, model, Start(cfg, mem), events);
  }

  /** The bookkeeping passes every check, running and swapped requests together stay within the limit, and the waiting
      queue is sorted. */
  lemma {:induction false} BooksAreInOrder(cfg: Config, model: Model, mem: Mem, events: seq<Event>)
    requires ConfigOk(cfg) && MemShape(cfg, model, mem)
    ensures Run(cfg, model, Start(cfg, mem), events).Done?
    ensures var st := Run(cfg, model, Start(cfg, mem), events).e.st;
      && TablesCheck(cfg, st.running) && CountsCheck(cfg, st.pool, st.running) && PoolsCheck(cfg, st.pool, st.running)
      && HashesCheck(st.pool) && HostsCheck(cfg, st.pool.cpuFree, st.swapped) && QueuesCheck(cfg, st)
      && |st.running| + |st.swapped| <= cfg.maxNumSeqs && Admission.Sorted(cfg, st.waiting)
  {
    hide Run, StateOk, KvOk, AllOnCourse, AllSettled, Modes.ModeOk, Guarantees.FailedOutgrown, Admission.Sorted,
      TablesCheck, CountsCheck, PoolsCheck, HashesCheck, HostsCheck, QueuesCheck;
    Reached(cfg, model, mem, events);
    var e0 := Start(cfg, mem);
    Guarantees.StartSound(cfg, model, mem);
    EmptyLists(cfg, e0);
    Admission.RunSorted(cfg, model, e0, events);
    HostRoom.RunCrowd(cfg, model, e0, events);
    PassesChecks(cfg, Run(cfg, model, e0, events).e.st);
  }

  lemma {:induction false} EmptyLists(cfg: Config, e: Engine)
    requires e.st.running == e.st.swapped == e.st.waiting == []
    ensures HostRoom.Crowd(cfg, Begin(e.st)) && Admission.Sorted(cfg, e.st.waiting)
  {
    assert Idle([]) == [];
  }

  /** Under the priority policy, whoever is admitted next has the best aged priority of all that wait, whenever one
      looks, although nothing is ever re-sorted. */
  lemma {:induction false} NextIsBest(cfg: Config, model: Model, mem: Mem, events: seq<Event>, i: nat, now: real)
    requires ConfigOk(cfg) && MemShape(cfg, model, mem) && cfg.policy == Priority
    ensures Run(cfg, model, Start(cfg, mem), events).Done?
    ensures var w := Run(cfg, model, Start(cfg, mem), events).e.st.waiting;
      i < |w| ==> Admission.Effective(cfg, w[0], now) <= Admission.Effective(cfg, w[i], now)
  {
    hide Run, MemShape, Admission.Sorted, Admission.Effective, TablesCheck, CountsCheck, PoolsCheck, HashesCheck, HostsCheck, QueuesCheck;
    BooksAreInOrder(cfg, model, mem, events);
    var w := Run(cfg, model, Start(cfg, mem), events).e.st.waiting;
    if i < |w| {
      Admission.HeadIsBest(cfg, w, i, now);
    }
  }

  /** Whatever the policy, whoever is admitted next goes before everybody else that waits. */
  lemma {:induction false} NextIsFirst(cfg: Config, model: Model, mem: Mem, events: seq<Event>, i: nat)
    requires ConfigOk(cfg) && MemShape(cfg, model, mem)
    ensures Run(cfg, model, Start(cfg, mem), events).Done?
    ensures var w := Run(cfg, model, Start(cfg, mem), events).e.st.waiting;
      i < |w| ==> Admission.GoesFirst(cfg, w[0], w[i])
  {
    hide Run, MemShape, Admission.Sorted, Admission.GoesFirst, TablesCheck, CountsCheck, PoolsCheck, HashesCheck, HostsCheck, QueuesCheck;
    BooksAreInOrder(cfg, model, mem, events);
    var w := Run(cfg, model, Start(cfg, mem), events).e.st.waiting;
    if i < |w| {
      Admission.HeadIsFirst(cfg, w, i);
    }
  }

  /** The caches hold what lone, unpaged runs would have computed: for every running request on the device, for every
      swapped one on the host, and for every published block whoever published it. */
  lemma {:induction false} CachesAreRight(cfg: Config, model: Model, mem: Mem, events: seq<Event>)
    requires ConfigOk(cfg) && MemShape(cfg, model, mem)
    ensures Run(cfg, model, Start(cfg, mem), events).Done?
    ensures var e := Run(cfg, model, Start(cfg, mem), events).e;
      && (forall i :: 0 <= i < |e.st.running| ==>
            SeqKV(model, cfg.blockSize, e.mem.gpu, e.st.running[i].table, e.st.running[i].gen.tokens, e.st.running[i].computed))
      && (forall i :: 0 <= i < |e.st.swapped| ==>
            SeqKV(model, cfg.blockSize, e.mem.cpu, e.st.swapped[i].cpuTable, e.st.swapped[i].gen.tokens, e.st.swapped[i].computed))
      && (forall b: Block :: HashOf(e.st.pool, b).Some? ==> HashKV(model, cfg.blockSize, e.mem.gpu, b, HashOf(e.st.pool, b).value))
  {
    hide Run, StateOk, AllOnCourse, AllSettled, Modes.ModeOk, Guarantees.FailedOutgrown, SeqKV, HashKV, HashOf, MemShape;
    Reached(cfg, model, mem, events);
    IdleConcat(Run(cfg, model, Start(cfg, mem), events).e.st.running, []);
  }

  /** The next step writes only pages that nobody else can read, copies pages one way and inside the caches, and keeps
      the shape its mode promises. */
  lemma {:induction false} NextStepIsSafe(cfg: Config, model: Model, mem: Mem, events: seq<Event>)
    requires ConfigOk(cfg) && MemShape(cfg, model, mem)
    ensures Run(cfg, model, Start(cfg, mem), events).Done?
    ensures var m := Schedule(cfg, Run(cfg, model, Start(cfg, mem), events).e.st);
      && Swaps.OneWay(m) && Swaps.Inside(cfg, m) && Modes.EndShape(cfg, m)
      && forall i, q: nat :: 0 <= i < |m.items| && m.items[i].s.computed <= q < m.items[i].s.computed + m.items[i].n ==> WritesPrivately(cfg, m, i, q)
  {
    hide Run, StateOk, KvOk, AllOnCourse, AllSettled, Modes.ModeOk, Modes.EndShape, Guarantees.FailedOutgrown, MidOk,
      Schedule, Swaps.OneWay, Swaps.Inside, WritesPrivately;
    Reached(cfg, model, mem, events);
    var st := Run(cfg, model, Start(cfg, mem), events).e.st;
    var m := Schedule(cfg, st);
    ScheduleOk(cfg, st);
    Swaps.ScheduleOneWay(cfg, st);
    Swaps.ScheduleInside(cfg, st);
    Modes.ScheduleShape(cfg, st);
    forall i, q: nat | 0 <= i < |m.items| && m.items[i].s.computed <= q < m.items[i].s.computed + m.items[i].n
      ensures WritesPrivately(cfg, m, i, q)
    {
      PageIsPrivate(cfg, m, i, q);
    }
  }

  /** The page of position q of item i has this one holder, in no table twice, and is not published. */
  ghost predicate WritesPrivately(cfg: Config, m: Mid, i: nat, q: nat)
    requires cfg.blockSize > 0 && i < |m.items|
  {
    && Page(cfg.blockSize, q) < |m.items[i].s.table|
    && var b := m.items[i].s.table[Page(cfg.blockSize, q)];
    && 0 <= b < cfg.numBlocks && RefsOf(m.pool, b) == 1 && HashOf(m.pool, b) == None
    && forall j :: 0 <= j < |m.items| && j != i ==> b !in m.items[j].s.table
  }

  lemma {:induction false} PageIsPrivate(cfg: Config, m: Mid, i: nat, q: nat)
    requires cfg.blockSize > 0 && MidOk(cfg, m) && m.todo == [] && i < |m.items|
    requires m.items[i].s.computed <= q < m.items[i].s.computed + m.items[i].n
    ensures WritesPrivately(cfg, m, i, q)
  {
    hide MidOk;
    WritesArePrivate(cfg, m, i, q);
  }
}
