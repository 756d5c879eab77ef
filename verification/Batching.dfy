// The batch and the scheduler as the engine runs them: queues of request objects, a block manager and a
// waiting queue changed in place, loop by loop. A ghost plan follows them; every method takes exactly the
// decision that the functions on values take on the plan.
module Batching {
  import opened Basics
  import opened Paging
  import opened BlockPool
  import opened Streaming
  import opened Scheduling
  import opened Accounting
  import opened Planning
  import opened Stepping
  import opened Sequences
  import opened Allocator
  import opened Queueing
  import opened Taking
  import opened Mirrors
  import opened Requests
  import opened EngineRun
  import Handling
  import opened Memory
  import Execute

  // --- the batch -------------------------------------------------------------------------------------------------------

  /** The objects of the items that compute something, in order. */
  function Chosen(list: seq<Sequence>, items: seq<Item>): seq<Sequence>
    requires |items| <= |list|
  {
    if items == [] then []
    else
      var last := |items| - 1;
      Chosen(list, items[..last]) + (if items[last].n > 0 then [list[last]] else [])
  }

  lemma {:induction false} ChosenSnoc(list: seq<Sequence>, items: seq<Item>, s: Sequence, it: Item)
    requires |items| == |list|
    ensures Chosen(list + [s], items + [it]) == Chosen(list, items) + (if it.n > 0 then [s] else [])
  {
    assert (items + [it])[..|items|] == items;
    ChosenFront(list, list + [s], items);
  }

  lemma {:induction false} ChosenFront(list: seq<Sequence>, more: seq<Sequence>, items: seq<Item>)
    requires |items| <= |list| && list <= more
    ensures Chosen(more, items) == Chosen(list, items)
    decreases |items|
  {
    if items != [] {
      ChosenFront(list, more, items[..|items| - 1]);
    }
  }

  lemma {:induction false} NoTokens(items: seq<Item>)
    requires Batch(items) == []
    ensures BatchTokens(items) == 0
    decreases |items|
  {
    if items != [] {
      NoTokens(items[..|items| - 1]);
    }
  }

  /** As many objects as items in the batch. */
  lemma {:induction false} ChosenLength(list: seq<Sequence>, items: seq<Item>)
    requires |items| <= |list|
    ensures |Chosen(list, items)| == |Batch(items)|
    decreases |items|
  {
    if items != [] {
      ChosenLength(list, items[..|items| - 1]);
    }
  }

  /** An item's object stands in the batch at the item's rank. */
  lemma {:induction false} ChosenAt(list: seq<Sequence>, items: seq<Item>, i: nat)
    requires |items| == |list| && i < |items| && items[i].n > 0
    ensures Rank(items, i) < |Chosen(list, items)| && Chosen(list, items)[Rank(items, i)] == list[i]
    decreases |items|
  {
    var last := |items| - 1;
    assert items[..last] + [items[last]] == items && list[..last] + [list[last]] == list;
    ChosenSnoc(list[..last], items[..last], list[last], items[last]);
    ChosenLength(list[..last], items[..last]);
    if i < last {
      assert items[..last][..i] == items[..i];
      ChosenAt(list[..last], items[..last], i);
    }
  }

  class ScheduledBatch {
    var seqs: seq<Sequence>
    var numNewTokens: seq<nat>
    var doSample: seq<bool>
    var swapOut: seq<(Block, Block)>
    var swapIn: seq<(Block, Block)>
    var numPreempted: nat
    var numTokens: nat
    var numDecodeTokens: nat

    constructor ()
      ensures Lists([], []) && swapOut == [] && swapIn == [] && numPreempted == 0 && numDecodeTokens == 0
    {
      seqs, numNewTokens, doSample, swapOut, swapIn := [], [], [], [], [];
      numPreempted, numTokens, numDecodeTokens := 0, 0, 0;
    }

    /** The batch lists the visited requests that compute something, in order, and adds up their tokens. */
    ghost predicate Lists(list: seq<Sequence>, items: seq<Item>)
      reads `seqs, `numNewTokens, `doSample, `numTokens
    {
      && |items| == |list| && seqs == Chosen(list, items)
      && |seqs| == |numNewTokens| == |doSample| == |Batch(items)|
      && (forall k :: 0 <= k < |seqs| ==> numNewTokens[k] == Batch(items)[k].n && doSample[k] == Samples(Batch(items)[k]))
      && numTokens == BatchTokens(items)
    }

    method Add(s: Sequence, n: nat, ghost list: seq<Sequence>, ghost items: seq<Item>, ghost v: Seq,
               ghost decode: seq<Token> -> string)
      requires Lists(list, items) && n > 0 && s.Is(v, decode)
      modifies this`seqs, this`numNewTokens, this`doSample, this`numTokens, this`numDecodeTokens
      ensures Lists(list + [s], items + [Item(v, n)])
      ensures numDecodeTokens == old(numDecodeTokens) + (if n == 1 && v.computed >= v.gen.promptLen then 1 else 0)
    {
      BatchSnoc(items, Item(v, n));
      ChosenSnoc(list, items, s, Item(v, n));
      hide Batch, BatchTokens, Chosen;
      seqs := seqs + [s];
      numNewTokens := numNewTokens + [n];
      doSample := doSample + [s.numComputedTokens + n == s.NumTokens()];
      numTokens := numTokens + n;
      if n == 1 && s.numComputedTokens >= |s.promptTokenIds| {
        numDecodeTokens := numDecodeTokens + 1;
      }
    }

    /** A visited request that computes nothing is not in the batch. */
    lemma {:induction false} Passed(list: seq<Sequence>, items: seq<Item>, s: Sequence, v: Seq)
      requires Lists(list, items)
      ensures Lists(list + [s], items + [Item(v, 0)])
    {
      BatchSnoc(items, Item(v, 0));
      ChosenSnoc(list, items, s, Item(v, 0));
      hide Batch, BatchTokens, Chosen;
    }

    /** Nobody scheduled so far: the visits may start over. */
    lemma {:induction false} StartOver(list: seq<Sequence>, items: seq<Item>)
      requires Lists(list, items) && Batch(items) == []
      ensures Lists([], [])
    {
      NoTokens(items);
    }
    method IsEmpty(ghost list: seq<Sequence>, ghost items: seq<Item>) returns (empty: bool)
      requires Lists(list, items)
      ensures empty == (Batch(items) == [] && swapOut == [] && swapIn == [])
    {
      empty := seqs == [] && swapOut == [] && swapIn == [];
    }
  }

  // --- the lists of a plan ---------------------------------------------------------------------------------------------

  /** The four lists of objects stand for the plan's. */
  ghost predicate Placed(l: Ledger, running: seq<Sequence>, swapped: seq<Sequence>, preempted: seq<Sequence>,
                         queue: seq<Sequence>, m: Mid) {
    && Mirror(l, running, Seqs(m.items) + Seqs(m.todo)) && Mirror(l, swapped, m.swapped)
    && Mirror(l, preempted, m.preempted) && Mirror(l, queue, m.waiting)
  }

  /** Nothing changes in the lists when a request that is in none of them changes or leaves. */
  lemma {:induction false} PlacedChange(l: Ledger, running: seq<Sequence>, swapped: seq<Sequence>,
                                        preempted: seq<Sequence>, queue: seq<Sequence>,
                                        m: Mid, m': Mid, id: int, v: Seq)
    requires Placed(l, running, swapped, preempted, queue, m) && Apart(m, id)
    requires m'.items == m.items && m'.todo == m.todo && m'.swapped == m.swapped && m'.preempted == m.preempted && m'.waiting == m.waiting
    ensures Placed(Revised(l, id, v), running, swapped, preempted, queue, m')
    ensures Placed(Struck(l, id), running, swapped, preempted, queue, m')
  {
    hide Mirror;
    MirrorChange(l, running, Seqs(m.items) + Seqs(m.todo), id, v);
    MirrorChange(l, swapped, m.swapped, id, v);
    MirrorChange(l, preempted, m.preempted, id, v);
    MirrorChange(l, queue, m.waiting, id, v);
  }

  lemma {:induction false} KeysWithout(keys: set<int>, ids: multiset<int>, id: int)
    requires KeysAre(keys, ids + multiset{id}) && ids[id] == 0
    ensures KeysAre(keys - {id}, ids)
  {
  }

  lemma {:induction false} FailLists(m: Mid, s: Seq)
    ensures var f := Fail(m, s);
      f.items == m.items && f.todo == m.todo && f.swapped == m.swapped && f.preempted == m.preempted && f.waiting == m.waiting
      && f.swapOut == m.swapOut && f.swapIn == m.swapIn && f.numPreempted == m.numPreempted
      && f.outputs == m.outputs + [FailureOutput(s)] && f.pool == Handling.PoolWithout(m.pool, s)
  {
  }

  lemma {:induction false} HandIsApart(cfg: Config, m: Mid, s: Seq)
    requires cfg.blockSize > 0 && OkBut(cfg, m, s)
    ensures Apart(m, s.id) && Ids(m)[s.id] == 0
  {
    hide Valid, CpuValid, ItemsOk, TodosOk, QueuesOk, Apart, Total;
    HandApart(m, s.id);
    assert (Ids(m) + multiset{s.id})[s.id] <= 1;
    hide Ids;
    assert Ids(m)[s.id] == 0;
  }

  /** A request in hand still holds its blocks. */
  lemma {:induction false} HandBlocks(cfg: Config, m: Mid, s: Seq, bm: BlockManager)
    requires cfg.blockSize > 0 && OkBut(cfg, m, s) && bm.Valid() && bm.cfg == cfg && bm.View() == m.pool
    ensures multiset(s.table) <= bm.held
  {
    hide CpuValid, ItemsOk, TodosOk, QueuesOk, Unique;
    HeldIs(cfg.numBlocks, m.pool, bm.held, Held(m.items, m.todo) + multiset(s.table));
  }

  /** A victim goes to the front of its queue. */
  lemma {:induction false} PlacedVictim(l: Ledger, running: seq<Sequence>, swapped: seq<Sequence>,
                                        preempted: seq<Sequence>, queue: seq<Sequence>,
                                        m: Mid, m': Mid, s: Sequence, v: Seq)
    requires Placed(l, running, swapped, preempted, queue, m) && Apart(m, s.id) && Stands(Revised(l, s.id, v), s, v)
    requires m'.items == m.items && m'.todo == m.todo && m'.waiting == m.waiting
    ensures m'.swapped == [v] + m.swapped && m'.preempted == m.preempted
      ==> Placed(Revised(l, s.id, v), running, [s] + swapped, preempted, queue, m')
    ensures m'.preempted == [v] + m.preempted && m'.swapped == m.swapped
      ==> Placed(Revised(l, s.id, v), running, swapped, [s] + preempted, queue, m')
  {
    hide Mirror, Stands, Revised, Apart;
    PlacedChange(l, running, swapped, preempted, queue, m, m, s.id, v);
    var l' := Revised(l, s.id, v);
    MirrorOne(l', s, v);
    MirrorLength(l', swapped, m.swapped);
    MirrorLength(l', preempted, m.preempted);
    MirrorConcat(l', [s], swapped, [v], m.swapped);
    MirrorConcat(l', [s], preempted, [v], m.preempted);
  }

  /** The oldest unvisited request is visited where it stands. */
  lemma {:induction false} PlacedVisit(l: Ledger, running: seq<Sequence>, swapped: seq<Sequence>,
                                       preempted: seq<Sequence>, queue: seq<Sequence>,
                                       m: Mid, m': Mid, v: Seq, n: nat)
    requires m.todo != [] && Placed(l, running, swapped, preempted, queue, m) && Apart(m.(todo := m.todo[1..]), m.todo[0].s.id)
    requires v.id == m.todo[0].s.id && Fixed(running[|m.items|], v)
    requires m' == m.(pool := m'.pool, items := m.items + [Item(v, n)], todo := m.todo[1..])
    ensures Placed(Revised(l, v.id, v), running, swapped, preempted, queue, m')
  {
    var before, after := Seqs(m.items) + Seqs(m.todo), Seqs(m'.items) + Seqs(m'.todo);
    var rest := Seqs(m.items) + Seqs(m.todo[1..]);
    var k := |m.items|;
    assert before[k] == m.todo[0].s && after[k] == v;
    hide Fixed;
    forall i | 0 <= i < |running| ensures Stands(Revised(l, v.id, v), running[i], after[i]) {
      assert Stands(l, running[i], before[i]);
      if i < k {
        assert before[i] == rest[i] && after[i] == rest[i];
      } else if i > k {
        assert before[i] == rest[i - 1] && after[i] == rest[i - 1];
      }
    }
    MirrorChange(l, swapped, m.swapped, v.id, v);
    MirrorChange(l, preempted, m.preempted, v.id, v);
    MirrorChange(l, queue, m.waiting, v.id, v);
  }

  /** The newest running request is taken off. */
  lemma {:induction false} PlacedNewest(l: Ledger, running: seq<Sequence>, swapped: seq<Sequence>,
                                        preempted: seq<Sequence>, queue: seq<Sequence>, m: Mid)
    requires m.todo != [] && Placed(l, running, swapped, preempted, queue, m)
    ensures var last := |m.todo| - 1;
      && |running| == |m.items| + |m.todo| && Placed(l, running[..|running| - 1], swapped, preempted, queue, m.(todo := m.todo[..last]))
      && Stands(l, running[|running| - 1], m.todo[last].s)
  {
    var last := |m.todo| - 1;
    MirrorEnds(l, running, Seqs(m.items) + Seqs(m.todo));
    hide Stands;
    assert (Seqs(m.items) + Seqs(m.todo))[..|running| - 1] == Seqs(m.items) + Seqs(m.todo[..last]);
  }

  /** The oldest unvisited request. */
  lemma {:induction false} PlacedHead(l: Ledger, running: seq<Sequence>, swapped: seq<Sequence>,
                                      preempted: seq<Sequence>, queue: seq<Sequence>, m: Mid)
    requires m.todo != [] && Placed(l, running, swapped, preempted, queue, m)
    ensures |running| == |m.items| + |m.todo| && Stands(l, running[|m.items|], m.todo[0].s)
  {
    assert (Seqs(m.items) + Seqs(m.todo))[|m.items|] == m.todo[0].s;
  }

  lemma {:induction false} PlacedSkip(l: Ledger, running: seq<Sequence>, swapped: seq<Sequence>,
                                      preempted: seq<Sequence>, queue: seq<Sequence>, m: Mid)
    requires m.todo != [] && Placed(l, running, swapped, preempted, queue, m)
    ensures Placed(l, running, swapped, preempted, queue, SkipHead(m))
  {
    assert Seqs(m.items) + Seqs(m.todo) == Seqs(SkipHead(m).items) + Seqs(SkipHead(m).todo);
  }

  /** The oldest of a queue is taken off. */
  lemma {:induction false} PlacedPop(l: Ledger, running: seq<Sequence>, swapped: seq<Sequence>,
                                     preempted: seq<Sequence>, queue: seq<Sequence>, m: Mid)
    requires Placed(l, running, swapped, preempted, queue, m)
    ensures |running| == |m.items| + |m.todo| && |swapped| == |m.swapped| && |preempted| == |m.preempted| && |queue| == |m.waiting|
    ensures swapped != [] ==> Stands(l, swapped[0], m.swapped[0]) && Placed(l, running, swapped[1..], preempted, queue, m.(swapped := m.swapped[1..]))
    ensures preempted != [] ==> Stands(l, preempted[0], m.preempted[0]) && Placed(l, running, swapped, preempted[1..], queue, PopNextUp(m))
    ensures preempted == [] && queue != [] ==> Stands(l, queue[0], m.waiting[0]) && Placed(l, running, swapped, preempted, queue[1..], PopNextUp(m))
  {
    hide Stands;
    if swapped != [] {
      MirrorEnds(l, swapped, m.swapped);
    }
    if preempted != [] {
      MirrorEnds(l, preempted, m.preempted);
    }
    if queue != [] {
      MirrorEnds(l, queue, m.waiting);
    }
  }

  /** A request in hand joins the running list. */
  lemma {:induction false} PlacedJoin(l: Ledger, running: seq<Sequence>, swapped: seq<Sequence>,
                                      preempted: seq<Sequence>, queue: seq<Sequence>,
                                      m: Mid, m': Mid, s: Sequence, v: Seq, n: nat)
    requires m.todo == [] && Placed(l, running, swapped, preempted, queue, m) && Apart(m, s.id) && Stands(Revised(l, s.id, v), s, v)
    requires m'.items == m.items + [Item(v, n)] && m'.todo == m.todo
    requires m'.swapped == m.swapped && m'.preempted == m.preempted && m'.waiting == m.waiting
    ensures Placed(Revised(l, s.id, v), running + [s], swapped, preempted, queue, m')
  {
    hide Mirror, Stands, Revised, Apart;
    PlacedChange(l, running, swapped, preempted, queue, m, m, s.id, v);
    var l' := Revised(l, s.id, v);
    MirrorOne(l', s, v);
    assert Seqs(m.todo) == [];
    assert Seqs(m.items) + Seqs(m.todo) == Seqs(m.items);
    assert Seqs(m'.items) + Seqs(m'.todo) == Seqs(m.items) + [v];
    MirrorLength(l', running, Seqs(m.items));
    MirrorConcat(l', running, [s], Seqs(m.items), [v]);
  }

  /** A new request enters the waiting queue. */
  lemma {:induction false} PlacedNew(cfg: Config, l: Ledger, more: set<object>, running: seq<Sequence>,
                                     swapped: seq<Sequence>, preempted: seq<Sequence>,
                                     queue: seq<Sequence>, st: State, s: Sequence, v: Seq)
    requires Placed(l, running, swapped, preempted, queue, Begin(st)) && s.id !in l.seqs && Fixed(s, v)
    ensures Placed(Entered(l, more, s, v), running, swapped, preempted, EnqueueSeq(cfg, queue, s), Begin(st.(waiting := Enqueue(cfg, st.waiting, v))))
  {
    hide Mirror, EnqueueSeq, Enqueue, Fixed;
    var l' := Entered(l, more, s, v);
    IdleConcat(st.running, []);
    MirrorNew(l, running, Seqs(Idle(st.running)) + Seqs([]), more, s, v);
    MirrorNew(l, swapped, st.swapped, more, s, v);
    MirrorNew(l, preempted, st.preempted, more, s, v);
    MirrorNew(l, queue, st.waiting, more, s, v);
    MirrorEnqueue(cfg, l', queue, st.waiting, s, v);
  }

  /** A request is taken off whatever list its own state says holds it. */
  lemma {:induction false} PlacedWithout(l: Ledger, running: seq<Sequence>, swapped: seq<Sequence>,
                                         preempted: seq<Sequence>, queue: seq<Sequence>,
                                         st: State, s: Sequence, v: Seq)
    requires Placed(l, running, swapped, preempted, queue, Begin(st)) && s.id in l.seqs && l.seqs[s.id] == s && v.id == s.id
    ensures var m := Begin(WithoutIt(st, v));
      if v.status == Running then Placed(l, Without(running, s), swapped, preempted, queue, m)
      else if v.cpuTable != [] then Placed(l, running, Without(swapped, s), preempted, queue, m)
      else if v.status == Preempted then Placed(l, running, swapped, Without(preempted, s), queue, m)
      else Placed(l, running, swapped, preempted, DropSeq(queue, s.id), m)
  {
    hide Mirror, DropId;
    IdleConcat(st.running, []);
    IdleConcat(DropId(st.running, s.id), []);
    assert Seqs([]) == [] && st.running + [] == st.running && DropId(st.running, s.id) + [] == DropId(st.running, s.id);
    MirrorDrop(l, if v.status == Running then running else if v.cpuTable != [] then swapped else if v.status == Preempted then preempted else queue,
               if v.status == Running then st.running else if v.cpuTable != [] then st.swapped else if v.status == Preempted then st.preempted else st.waiting, s);
  }

  /** The head of the admission queues changes where it stands. */
  lemma {:induction false} PlacedNote(l: Ledger, running: seq<Sequence>, swapped: seq<Sequence>,
                                      preempted: seq<Sequence>, queue: seq<Sequence>,
                                      m: Mid, s: Sequence, v: Seq)
    requires NextUp(m).Some? && Placed(l, running, swapped, preempted, queue, m) && Apart(PopNextUp(m), s.id) && Stands(Revised(l, s.id, v), s, v)
    requires preempted != [] ==> s == preempted[0]
    requires preempted == [] ==> queue != [] && s == queue[0]
    ensures Placed(Revised(l, s.id, v), running, swapped, preempted, queue, NoteNext(m, v))
  {
    PlacedPop(l, running, swapped, preempted, queue, m);
    hide Mirror, Stands, Revised, Apart;
    var l', m1 := Revised(l, s.id, v), PopNextUp(m);
    MirrorOne(l', s, v);
    if preempted != [] {
      PlacedChange(l, running, swapped, preempted[1..], queue, m1, m1, s.id, v);
      MirrorConcat(l', [s], preempted[1..], [v], m1.preempted);
      assert preempted == [s] + preempted[1..] && m.preempted[0 := v] == [v] + m1.preempted;
    } else {
      PlacedChange(l, running, swapped, preempted, queue[1..], m1, m1, s.id, v);
      MirrorConcat(l', [s], queue[1..], [v], m1.waiting);
      assert queue == [s] + queue[1..] && m.waiting[0 := v] == [v] + m1.waiting;
    }
  }

  /** No other request has the id of a visited one. */
  lemma {:induction false} ItemApart(cfg: Config, m: Mid, i: nat)
    requires cfg.blockSize > 0 && MidOk(cfg, m) && i < |m.items|
    ensures var id := m.items[i].s.id;
      && (forall j :: 0 <= j < |m.items| && j != i ==> m.items[j].s.id != id)
      && NoneHas(m.swapped, id) && NoneHas(m.preempted, id) && NoneHas(m.waiting, id)
  {
    hide Valid, CpuValid, ItemsOk, TodosOk, QueuesOk, Total, NoneHas;
    var id := m.items[i].s.id;
    TotalHas(Seqs(m.items), i, IdOf);
    assert IdOf(Seqs(m.items)[i])[id] == 1;
    assert Ids(m)[id] <= 1;
    NotAmong(m.swapped, id);
    NotAmong(m.preempted, id);
    NotAmong(m.waiting, id);
    forall j | 0 <= j < |m.items| && j != i ensures m.items[j].s.id != id {
      Execute.TotalTwo(Seqs(m.items), if i < j then i else j, if i < j then j else i, IdOf);
      assert IdOf(Seqs(m.items)[j])[m.items[j].s.id] == 1;
    }
  }

  /** A request's status says it has not finished. */
  lemma {:induction false} Unfinished(cfg: Config, m: Mid)
    requires cfg.blockSize > 0 && MidOk(cfg, m) && m.todo == []
    ensures forall i :: 0 <= i < |m.items| ==> m.items[i].s.status == Running
    ensures forall i :: 0 <= i < |m.swapped| ==> m.swapped[i].status == Preempted
    ensures forall i :: 0 <= i < |m.preempted| ==> m.preempted[i].status == Preempted
    ensures forall i :: 0 <= i < |m.waiting| ==> m.waiting[i].status == Waiting
  {
    hide Valid, CpuValid, Unique, RequestOk, TableOk;
    forall i | 0 <= i < |m.items| ensures m.items[i].s.status == Running {
      assert ItemOk(cfg, m.pool, m.items[i]);
    }
    forall i | 0 <= i < |m.swapped| ensures m.swapped[i].status == Preempted {
      assert SwappedOk(cfg, m.swapped[i]);
    }
  }

  class Scheduler {
    const cfg: Config
    const bm: BlockManager
    /** Requests not admitted yet, smallest key at the head. */
    const waiting: WaitingQueue
    /** Victims whose blocks were dropped. */
    var preempted: seq<Sequence>
    /** Oldest admission first. */
    var running: seq<Sequence>
    /** Victims whose blocks are parked on the host. */
    var swapped: seq<Sequence>
    /** Every request in the engine, by id. */
    var seqs: map<int, Sequence>
    /** Results of requests that failed since the last update. */
    var outputs: seq<Output>
    /** What each known request stands for, and the plan as a value. */
    ghost var book: Ledger
    ghost var plan: Mid

    constructor (cfg: Config)
      requires cfg.blockSize > 0
      ensures this.cfg == cfg && fresh(bm) && fresh(waiting) && book.objs == {} && outputs == []
      ensures Coupled() && View() == State(NewPool(cfg.numBlocks, cfg.numCpuBlocks), [], [], [], [], []) && plan == Begin(View())
    {
      this.cfg := cfg;
      bm := new BlockManager(cfg);
      waiting := new WaitingQueue(cfg);
      preempted, running, swapped, seqs, outputs := [], [], [], map[], [];
      book := Ledger({}, map[], map[], cfg.serving.decode);
      plan := Begin(State(NewPool(cfg.numBlocks, cfg.numCpuBlocks), [], [], [], [], []));
      new;
      NewPoolOk(cfg);
      assert Idle([]) == [] && Seqs([]) == [];
    }

    static lemma {:induction false} NewPoolOk(cfg: Config)
      requires cfg.blockSize > 0
      ensures var m := Begin(State(NewPool(cfg.numBlocks, cfg.numCpuBlocks), [], [], [], [], [])); MidOk(cfg, m) && Ids(m) == multiset{}
    {
      NewPoolValid(cfg.numBlocks, cfg.numCpuBlocks);
      NewCpuValid(cfg.numCpuBlocks);
      hide Valid, CpuValid;
      var m := Begin(State(NewPool(cfg.numBlocks, cfg.numCpuBlocks), [], [], [], [], []));
      assert Seqs(m.items) == [] && Seqs(m.todo) == [];
      assert Held(m.items, m.todo) == multiset{} && Ids(m) == multiset{} && Total(m.swapped, HostsOf) == multiset{};
    }

    /** The state between steps, as a value. */
    ghost function View(): State
      reads this
    {
      State(plan.pool, Seqs(plan.items), plan.swapped, plan.preempted, plan.waiting, plan.retired)
    }

    ghost predicate Frames()
      reads this
    {
      && cfg.blockSize > 0 && this !in book.objs && bm !in book.objs && waiting !in book.objs
      && book.seqs == seqs && book.decode == cfg.serving.decode && outputs == plan.outputs
    }

    /** The objects stand for the plan. */
    ghost predicate Follows()
      reads this, bm, waiting, book.objs
    {
      && Frames() && bm.cfg == cfg && waiting.cfg == cfg && bm.Valid() && bm.View() == plan.pool && waiting.Valid()
      && All(book) && Placed(book, running, swapped, preempted, waiting.Queue(), plan)
    }

    ghost predicate Coupled()
      reads this, bm, waiting, book.objs
    {
      Follows() && MidOk(cfg, plan) && KeysAre(seqs.Keys, Ids(plan))
    }

    /** The same, while s has been taken off its list. */
    ghost predicate InHand(s: Sequence)
      reads this, bm, waiting, book.objs
    {
      && Follows() && s.id in seqs && seqs[s.id] == s && s.id in book.vals
      && OkBut(cfg, plan, book.vals[s.id]) && KeysAre(seqs.Keys, Ids(plan) + multiset{s.id})
    }

    /** The batch lists the visited part of the running list, and the copies and counts are the plan's. */
    ghost predicate Batched(batch: ScheduledBatch)
      reads this, batch
    {
      && batch !in book.objs && |plan.items| <= |running| && batch.Lists(running[..|plan.items|], plan.items)
      && batch.swapOut == plan.swapOut && batch.swapIn == plan.swapIn && batch.numPreempted == plan.numPreempted
    }

    // --- leaving and being preempted ---------------------------------------------------------------------------------

    /** A request too large for the whole pool leaves, and the client is told. */
    method Fail(s: Sequence)
      requires InHand(s) && (book.vals[s.id].table == [] ==> book.vals[s.id].registered == 0)
      modifies this`seqs, this`book, this`plan, this`outputs, bm, s
      ensures Coupled() && plan == Scheduling.Fail(old(plan), old(book.vals[s.id])) && book.objs == old(book.objs)
    {
      hide OkBut, MidOk, All, Placed, Apart, KeysAre, Ids, BlockManager.Valid, Handling.PoolWithout,
        Handling.Dropped, Scheduling.Fail, WaitingQueue.Valid, WaitingQueue.Queue, BlockManager.View, OnlyChanges,
        FailureOutput, Fixed, Sequence.Is;
      ghost var v, m, l := book.vals[s.id], plan, book;
      AllHas(l, s);
      HandIsApart(cfg, m, v);
      HandBlocks(cfg, m, v, bm);
      FailOk(cfg, m, v);
      FailLists(m, v);
      PlacedChange(l, running, swapped, preempted, waiting.Queue(), m, Scheduling.Fail(m, v), s.id, v);
      KeysWithout(seqs.Keys, Ids(m), s.id);
      var out := Handling.Drop(bm, s, v, cfg.serving.decode);
      AllBut(l, s, Handling.Dropped(v));
      seqs := seqs - {s.id};
      assert seqs.Keys == old(seqs).Keys - {s.id};
      book := Struck(l, s.id);
      outputs := outputs + [out];
      plan := Scheduling.Fail(m, v);
    }

    /** A victim's blocks are parked on the host. */
    method Park(s: Sequence, ghost it: Item) returns (copies: seq<(Block, Block)>)
      requires InHand(s) && it.s == book.vals[s.id] && TodoOk(cfg, plan.pool, it)
      requires cfg.swap && CanSwapOut(plan.pool, it.s)
      modifies this`swapped, this`book, this`plan, bm, s
      ensures Coupled() && plan == Scheduling.Preempt(cfg, old(plan), it.s) && plan.swapOut == old(plan.swapOut) + copies
      ensures book.objs == old(book.objs)
    {
      hide OkBut, MidOk, All, Placed, Apart, KeysAre, Ids, BlockManager.Valid, Scheduling.Preempt, FreeSeq, SwapOut,
        WaitingQueue.Valid, WaitingQueue.Queue,
        BlockManager.View, OnlyChanges, Sequence.Is, TodoOk, CanSwapOut, Stands, Fixed, Revised;
      ghost var v, m, l := it.s, plan, book;
      ghost var m' := Scheduling.Preempt(cfg, m, v);
      AllHas(l, s);
      HandIsApart(cfg, m, v);
      HandBlocks(cfg, m, v, bm);
      PreemptOk(cfg, m, it);
      ParkIs(cfg, m, v);
      copies := Handling.Park(bm, s, v, cfg.serving.decode);
      ghost var v' := m'.swapped[0];
      StandsNow(l, s, v');
      PlacedVictim(l, running, swapped, preempted, waiting.Queue(), m, m', s, v');
      AllBut(l, s, v');
      swapped, plan, book := [s] + swapped, m', Revised(l, s.id, v');
    }

    static lemma {:induction false} ParkIs(cfg: Config, m: Mid, v: Seq)
      requires cfg.swap && CanSwapOut(m.pool, v)
      ensures var m', r := Scheduling.Preempt(cfg, m, v), SwapOut(m.pool, v.(status := Preempted));
        && SameButVictims(m, m') && m'.pool == r.0 && m'.swapped == [r.1] + m.swapped && m'.preempted == m.preempted
        && m'.swapOut == m.swapOut + r.2
    {
      hide SwapOut;
    }

    static lemma {:induction false} UnloadIs(cfg: Config, m: Mid, v: Seq)
      requires !cfg.swap || !CanSwapOut(m.pool, v)
      ensures var m', r := Scheduling.Preempt(cfg, m, v), FreeSeq(m.pool, v.(status := Preempted));
        && SameButVictims(m, m') && m'.pool == r.0 && m'.swapped == m.swapped && m'.preempted == [r.1.(computed := 0)] + m.preempted
        && m'.swapOut == m.swapOut
    {
      hide FreeSeq;
    }

    static ghost predicate SameButVictims(m: Mid, m': Mid) {
      && m'.items == m.items && m'.todo == m.todo && m'.waiting == m.waiting && m'.outputs == m.outputs
      && m'.swapIn == m.swapIn && m'.numPreempted == m.numPreempted + 1
    }

    /** A victim's blocks are dropped. */
    method Unload(s: Sequence, ghost it: Item)
      requires InHand(s) && it.s == book.vals[s.id] && TodoOk(cfg, plan.pool, it)
      requires !cfg.swap || !CanSwapOut(plan.pool, it.s)
      modifies this`preempted, this`book, this`plan, bm, s
      ensures Coupled() && plan == Scheduling.Preempt(cfg, old(plan), it.s) && plan.swapOut == old(plan.swapOut)
      ensures book.objs == old(book.objs)
    {
      hide OkBut, MidOk, All, Placed, Apart, KeysAre, Ids, BlockManager.Valid, Scheduling.Preempt, FreeSeq, SwapOut,
        WaitingQueue.Valid, WaitingQueue.Queue,
        BlockManager.View, OnlyChanges, Sequence.Is, TodoOk, CanSwapOut, Stands, Fixed, Revised;
      ghost var v, m, l := it.s, plan, book;
      ghost var m' := Scheduling.Preempt(cfg, m, v);
      AllHas(l, s);
      HandIsApart(cfg, m, v);
      HandBlocks(cfg, m, v, bm);
      PreemptOk(cfg, m, it);
      UnloadIs(cfg, m, v);
      Handling.Unload(bm, s, v, cfg.serving.decode);
      ghost var v' := m'.preempted[0];
      StandsNow(l, s, v');
      PlacedVictim(l, running, swapped, preempted, waiting.Queue(), m, m', s, v');
      AllBut(l, s, v');
      preempted, plan, book := [s] + preempted, m', Revised(l, s.id, v');
    }

    /** Preempt a request taken off the running list. */
    method Preempt(s: Sequence, batch: ScheduledBatch, ghost it: Item)
      requires InHand(s) && Batched(batch) && it.s == book.vals[s.id] && TodoOk(cfg, plan.pool, it)
      modifies this`swapped, this`preempted, this`book, this`plan, bm, s, batch`swapOut, batch`numPreempted
      ensures Coupled() && Batched(batch) && plan == Scheduling.Preempt(cfg, old(plan), it.s)
      ensures book.objs == old(book.objs)
    {
      hide OkBut, MidOk, All, Placed, KeysAre, Ids, BlockManager.Valid, WaitingQueue.Valid, WaitingQueue.Queue,
        Sequence.Is, TodoOk, ScheduledBatch.Lists,
        Scheduling.Preempt, CanSwapOut, SwapOut, FreeSeq;
      AllHas(book, s);
      Handling.SameBlocks(s, it.s, cfg.serving.decode, bm.View());
      PreemptCounts(cfg, plan, it.s);
      batch.numPreempted := batch.numPreempted + 1;
      var fits := bm.CanSwapOut(s);
      if cfg.swap && fits {
        var copies := Park(s, it);
        batch.swapOut := batch.swapOut + copies;
      } else {
        Unload(s, it);
      }
    }

    static lemma {:induction false} PreemptCounts(cfg: Config, m: Mid, v: Seq)
      ensures SameButVictims(m, Scheduling.Preempt(cfg, m, v))
    {
      hide SwapOut, FreeSeq;
    }

    /** The newest running request is preempted. */
    method PreemptNewest(batch: ScheduledBatch)
      requires Coupled() && Batched(batch) && plan.todo != []
      modifies this`running, this`swapped, this`preempted, this`book, this`plan, bm, book.objs, batch`swapOut, batch`numPreempted
      ensures Coupled() && Batched(batch) && plan == Scheduling.PreemptNewest(cfg, old(plan))
      ensures running == old(running)[..|old(running)| - 1] && book.objs == old(book.objs)
    {
      hide OkBut, MidOk, All, Placed, Apart, KeysAre, Ids, BlockManager.Valid, WaitingQueue.Valid, WaitingQueue.Queue,
        BlockManager.View, Sequence.Is, TodoOk, Scheduling.Preempt, ScheduledBatch.Lists;
      ghost var m := plan;
      ghost var it := m.todo[|m.todo| - 1];
      TakeNewest(cfg, m);
      PlacedNewest(book, running, swapped, preempted, waiting.Queue(), m);
      var s := running[|running| - 1];
      AllHas(book, s);
      running := running[..|running| - 1];
      plan := m.(todo := m.todo[..|m.todo| - 1]);
      assert running[..|plan.items|] == old(running)[..|plan.items|];
      Preempt(s, batch, it);
    }

    // --- the running pass ----------------------------------------------------------------------------------------------

    /** The oldest unvisited request gets room for its planned tokens. */
    method Give(s: Sequence, n: nat)
      requires Coupled() && plan.todo != [] && s == running[|plan.items|] && n == plan.todo[0].n > 0
      requires CanAppend(cfg, plan.pool, plan.todo[0].s, n)
      modifies this`book, this`plan, bm, s
      ensures Coupled() && plan == AppendHead(cfg, old(plan)) && book.objs == old(book.objs)
      ensures s.Is(plan.items[|plan.items| - 1].s, cfg.serving.decode)
    {
      hide OkBut, MidOk, All, Placed, Apart, KeysAre, Ids, BlockManager.Valid, AppendSlots, WaitingQueue.Valid,
        WaitingQueue.Queue,
        BlockManager.View, OnlyChanges, Sequence.Is, TodoOk, CanAppend, Stands, Fixed, Revised;
      ghost var m, l := plan, book;
      ghost var v := m.todo[0].s;
      ghost var m' := AppendHead(cfg, m);
      ghost var v' := m'.items[|m.items|].s;
      PlacedHead(l, running, swapped, preempted, waiting.Queue(), m);
      KnownStands(l, s, v);
      TakeHead(cfg, m);
      HandIsApart(cfg, m.(todo := m.todo[1..]), v);
      AppendHeadOk(cfg, m);
      Handling.Extend(cfg, bm, s, n, v, cfg.serving.decode);
      StandsNow(l, s, v');
      PlacedVisit(l, running, swapped, preempted, waiting.Queue(), m, m', v', n);
      AllBut(l, s, v');
      plan, book := m', Revised(l, s.id, v');
    }

    method GiveTokens(batch: ScheduledBatch, i: nat, n: nat)
      requires Coupled() && Batched(batch) && plan.todo != [] && i == |plan.items| && n == plan.todo[0].n > 0
      requires CanAppend(cfg, plan.pool, plan.todo[0].s, n)
      modifies this`book, this`plan, bm, book.objs
      modifies batch`seqs, batch`numNewTokens, batch`doSample, batch`numTokens, batch`numDecodeTokens
      ensures Coupled() && Batched(batch) && plan == AppendHead(cfg, old(plan)) && book.objs == old(book.objs)
    {
      hide MidOk, All, Placed, KeysAre, Ids, BlockManager.Valid, AppendSlots, WaitingQueue.Valid, WaitingQueue.Queue,
        BlockManager.View,
        ScheduledBatch.Lists, Sequence.Is, CanAppend, Stands, Fixed;
      ghost var m := plan;
      PlacedHead(book, running, swapped, preempted, waiting.Queue(), m);
      KnownStands(book, running[i], m.todo[0].s);
      var s := running[i];
      Give(s, n);
      batch.Add(s, n, running[..i], m.items, plan.items[i].s, cfg.serving.decode);
      assert running[..i + 1] == running[..i] + [s];
    }

    /** The oldest unvisited request is left out of this step. */
    ghost method Skip(batch: ScheduledBatch)
      requires Coupled() && Batched(batch) && plan.todo != []
      modifies this`plan
      ensures Coupled() && Batched(batch) && plan == SkipHead(old(plan))
    {
      hide MidOk, All, Placed, KeysAre, Ids, BlockManager.Valid, WaitingQueue.Valid, WaitingQueue.Queue,
        BlockManager.View, ScheduledBatch.Lists;
      ghost var m := plan;
      var i := |m.items|;
      PlacedHead(book, running, swapped, preempted, waiting.Queue(), m);
      SkipHeadOk(cfg, m);
      PlacedSkip(book, running, swapped, preempted, waiting.Queue(), m);
      batch.Passed(running[..i], m.items, running[i], m.todo[0].s);
      assert running[..i + 1] == running[..i] + [running[i]];
      plan := SkipHead(m);
    }

    /** Alone and still short of blocks: it fails. */
    method FailLast(batch: ScheduledBatch)
      requires Coupled() && Batched(batch) && |plan.todo| == 1
      modifies this`running, this`seqs, this`book, this`plan, this`outputs, bm, book.objs
      ensures Coupled() && Batched(batch) && plan == FailHead(old(plan)) && book.objs == old(book.objs)
      ensures running == old(running)[..|old(running)| - 1]
    {
      hide OkBut, Apart, Sequence.Is, TodoOk, Scheduling.Fail, Stands, MidOk, All, Placed, KeysAre, Ids,
        BlockManager.Valid, WaitingQueue.Valid, WaitingQueue.Queue, BlockManager.View, ScheduledBatch.Lists;
      ghost var m := plan;
      TakeHead(cfg, m);
      FailLists(m.(todo := []), m.todo[0].s);
      assert m.todo[1..] == [] && m.todo[..0] == [];
      PlacedNewest(book, running, swapped, preempted, waiting.Queue(), m);
      var s := running[|running| - 1];
      KnownStands(book, s, m.todo[0].s);
      HasBlocks(cfg, m.pool, m.todo[0]);
      running := running[..|running| - 1];
      plan := m.(todo := []);
      assert running[..|plan.items|] == old(running)[..|plan.items|];
      Fail(s);
    }

    static lemma {:induction false} HasBlocks(cfg: Config, p: Pool, it: Item)
      requires cfg.blockSize > 0 && TodoOk(cfg, p, it)
      ensures it.s.table != []
    {
      BlocksForMono(cfg.blockSize, it.s.computed, it.s.computed);
    }

    /** Preempt from the newest end until the request at i fits or is the newest itself. */
    method MakeRoom(batch: ScheduledBatch, i: nat, n: nat) returns (fits: bool)
      requires Coupled() && Batched(batch) && plan.todo != [] && i == |plan.items| && n == plan.todo[0].n > 0
      modifies this`running, this`swapped, this`preempted, this`book, this`plan, bm, book.objs, batch`swapOut, batch`numPreempted
      ensures Coupled() && Batched(batch) && book.objs == old(book.objs)
      ensures plan.todo != [] && plan.todo <= old(plan.todo) && plan.items == old(plan.items)
      ensures RunLoop(cfg, plan) == RunLoop(cfg, old(plan))
      ensures fits == CanAppend(cfg, plan.pool, plan.todo[0].s, n) && (fits || |plan.todo| == 1)
      ensures running <= old(running) && |running| == |plan.items| + |plan.todo|
    {
      hide Sequence.Is, Scheduling.PreemptNewest, CanAppend, RunLoop, Stands, MidOk, All, Placed, KeysAre, Ids,
        BlockManager.Valid, WaitingQueue.Valid, WaitingQueue.Queue, BlockManager.View, ScheduledBatch.Lists;
      ghost var objs := book.objs;
      PlacedHead(book, running, swapped, preempted, waiting.Queue(), plan);
      fits := Fits(i, n);
      while !fits && i < |running| - 1
        invariant Coupled() && Batched(batch) && book.objs == objs
        invariant i == |plan.items| && plan.todo != [] && plan.todo <= old(plan.todo) && plan.items == old(plan.items)
        invariant RunLoop(cfg, plan) == RunLoop(cfg, old(plan))
        invariant fits == CanAppend(cfg, plan.pool, plan.todo[0].s, n)
        invariant running <= old(running) && |running| == |plan.items| + |plan.todo|
        decreases |running|
      {
        RunLoopStep(cfg, plan);
        PreemptCuts(cfg, plan);
        PreemptNewest(batch);
        PlacedHead(book, running, swapped, preempted, waiting.Queue(), plan);
        fits := Fits(i, n);
      }
    }

    static lemma {:induction false} PreemptCuts(cfg: Config, m: Mid)
      requires m.todo != []
      ensures var m' := Scheduling.PreemptNewest(cfg, m); m'.items == m.items && m'.todo == m.todo[..|m.todo| - 1]
    {
      hide SwapOut, FreeSeq;
    }

    /** Is there room for n more tokens of the oldest unvisited request? */
    method Fits(i: nat, n: nat) returns (fits: bool)
      requires Coupled() && plan.todo != [] && i == |plan.items| < |running|
      ensures fits == CanAppend(cfg, plan.pool, plan.todo[0].s, n)
    {
      hide MidOk, All, Placed, KeysAre, Ids, WaitingQueue.Valid, WaitingQueue.Queue, Stands, BlockPool.Valid, BlocksFor;
      PlacedHead(book, running, swapped, preempted, waiting.Queue(), plan);
      KnownStands(book, running[i], plan.todo[0].s);
      fits := bm.CanAppend(running[i], n);
    }

    /** The request at i is the newest and does not fit: it fails if it is alone, else it is preempted. */
    method GiveUp(batch: ScheduledBatch, i: nat)
      requires Coupled() && Batched(batch) && |plan.todo| == 1 && i == |plan.items| && plan.todo[0].n > 0
      requires !CanAppend(cfg, plan.pool, plan.todo[0].s, plan.todo[0].n)
      modifies this`running, this`swapped, this`preempted, this`seqs, this`outputs, this`book, this`plan, bm, book.objs, batch`swapOut, batch`numPreempted
      ensures Coupled() && Batched(batch) && book.objs == old(book.objs)
      ensures plan.todo == [] && plan.items == old(plan.items) && RunLoop(cfg, plan) == RunLoop(cfg, old(plan))
    {
      hide Sequence.Is, Scheduling.PreemptNewest, FailHead, CanAppend, RunLoop, Stands, MidOk, All, Placed, KeysAre,
        Ids, BlockManager.Valid, WaitingQueue.Valid, WaitingQueue.Queue, BlockManager.View, ScheduledBatch.Lists;
      RunLoopStep(cfg, plan);
      if i == 0 {
        FailHeadCuts(plan);
        FailLast(batch);
      } else {
        PreemptCuts(cfg, plan);
        PreemptNewest(batch);
      }
      RunLoopStep(cfg, plan);
    }

    static lemma {:induction false} FailHeadCuts(m: Mid)
      requires m.todo != []
      ensures FailHead(m).items == m.items && FailHead(m).todo == m.todo[1..]
    {
      FailLists(m.(todo := m.todo[1..]), m.todo[0].s);
    }

    /** How many tokens each running request may compute this step: one each, or with chunking one for every
        decode and then chunks of what is left of the budget, oldest first. */
    method PlanRunningTokens() returns (given: seq<nat>)
      requires Coupled() && plan.todo == [] && PlanSound(cfg, Seqs(plan.items))
      ensures |given| == |running| == |plan.items| == |Plan(cfg, Seqs(plan.items))|
      ensures forall i :: 0 <= i < |given| ==> given[i] == Plan(cfg, Seqs(plan.items))[i].n
    {
      hide Follows, MidOk, KeysAre, CountDecodes, RawPlan, PlanFrom, Plan, PlanSound, Seqs;
      RunningStands();
      ghost var vals := Seqs(plan.items);
      if !cfg.chunked {
        given := seq(|running|, _ => 1);
        OneEach(cfg, vals, given);
        return;
      }
      ChunksAre(cfg, vals);
      var decodes := CountRunningDecodes(running, vals);
      given := PlanChunks(running, cfg.maxBatchTokens - decodes, vals);
    }

    static lemma {:induction false} OneEach(cfg: Config, vals: seq<Seq>, given: seq<nat>)
      requires !cfg.chunked && |given| == |vals| && forall i :: 0 <= i < |given| ==> given[i] == 1
      ensures |Plan(cfg, vals)| == |vals| && forall i :: 0 <= i < |given| ==> given[i] == Plan(cfg, vals)[i].n
    {
    }

    static lemma {:induction false} ChunksAre(cfg: Config, vals: seq<Seq>)
      requires cfg.chunked && PlanSound(cfg, vals)
      ensures var raw := RawPlan(vals, cfg.maxBatchTokens - CountDecodes(vals));
        && |Plan(cfg, vals)| == |vals| == |raw|
        && forall i :: 0 <= i < |vals| ==> 0 <= raw[i] == Plan(cfg, vals)[i].n
    {
      hide CountDecodes, RawPlan, PlanFrom;
      RawPlanIsPlan(vals, cfg.maxBatchTokens - CountDecodes(vals));
    }

    static method CountRunningDecodes(running: seq<Sequence>, ghost vals: seq<Seq>) returns (decodes: nat)
      requires |running| == |vals| && forall i :: 0 <= i < |running| ==> running[i].NumUncomputedTokens() == Uncomputed(vals[i])
      ensures decodes == CountDecodes(vals)
    {
      decodes := 0;
      var i := |running|;
      while i > 0
        invariant 0 <= i <= |running| && decodes == CountDecodes(vals[i..])
      {
        i := i - 1;
        assert vals[i..][0] == vals[i] && vals[i..][1..] == vals[i + 1..];
        if running[i].NumUncomputedTokens() == 1 {
          decodes := decodes + 1;
        }
      }
      assert vals[0..] == vals;
    }

    /** Every decode one token, and the budget left to the others in order. */
    static method PlanChunks(running: seq<Sequence>, budget: int, ghost vals: seq<Seq>) returns (given: seq<nat>)
      requires |running| == |vals| && forall i :: 0 <= i < |running| ==> running[i].NumUncomputedTokens() == Uncomputed(vals[i])
      requires |RawPlan(vals, budget)| == |vals| && forall i :: 0 <= i < |vals| ==> RawPlan(vals, budget)[i] >= 0
      ensures |given| == |vals| && forall i :: 0 <= i < |given| ==> given[i] == RawPlan(vals, budget)[i]
    {
      ghost var raw := RawPlan(vals, budget);
      var left := budget;
      given := [];
      var i := 0;
      assert vals[0..] == vals && raw[0..] == raw;
      while i < |running|
        invariant 0 <= i <= |running| && |given| == i && raw[i..] == RawPlan(vals[i..], left)
        invariant forall j :: 0 <= j < i ==> given[j] == raw[j]
      {
        assert vals[i..][0] == vals[i] && vals[i..][1..] == vals[i + 1..] && raw[i..][0] == raw[i] && raw[i..][1..] == raw[i + 1..];
        var uncomputed := running[i].NumUncomputedTokens();
        var n: int := if uncomputed == 1 then 1 else Min(uncomputed, left);
        if uncomputed != 1 {
          left := left - n;
        }
        given := given + [n];
        i := i + 1;
      }
    }

    lemma {:induction false} RunningStands()
      requires Coupled()
      ensures |running| == |plan.items| + |plan.todo| && |Seqs(plan.items)| == |plan.items|
      ensures forall i :: 0 <= i < |plan.items| ==> running[i].NumUncomputedTokens() == Uncomputed(Seqs(plan.items)[i])
    {
      hide MidOk, KeysAre, Ids, BlockManager.Valid, WaitingQueue.Valid, WaitingQueue.Queue, All;
      forall i | 0 <= i < |plan.items| ensures running[i].NumUncomputedTokens() == Uncomputed(plan.items[i].s) {
        assert (Seqs(plan.items) + Seqs(plan.todo))[i] == plan.items[i].s;
        KnownStands(book, running[i], plan.items[i].s);
      }
    }

    /** Visit the request at i: skip it, give it its tokens, or give up on it. */
    method Visit(batch: ScheduledBatch, i: nat, n: nat) returns (next: nat)
      requires Coupled() && Batched(batch) && plan.todo != [] && i == |plan.items| && n == plan.todo[0].n
      modifies this`running, this`swapped, this`preempted, this`seqs, this`outputs, this`book, this`plan, bm, book.objs, batch
      ensures Coupled() && Batched(batch) && book.objs == old(book.objs)
      ensures next == |plan.items| && plan.todo <= old(plan.todo)[1..] && i <= next <= i + 1
      ensures plan.todo != [] ==> next == i + 1
      ensures RunLoop(cfg, plan) == RunLoop(cfg, old(plan))
    {
      hide Sequence.Is, CanAppend, SkipHead, AppendHead, RunLoop, Stands, MidOk, All, Placed, KeysAre, Ids,
        BlockManager.Valid, WaitingQueue.Valid, WaitingQueue.Queue, BlockManager.View, ScheduledBatch.Lists;
      if n == 0 {
        RunLoopStep(cfg, plan);
        SkipCuts(cfg, plan);
        Skip(batch);
        return i + 1;
      }
      var fits := MakeRoom(batch, i, n);
      if !fits {
        GiveUp(batch, i);
        return i;
      }
      RunLoopStep(cfg, plan);
      SkipCuts(cfg, plan);
      GiveTokens(batch, i, n);
      return i + 1;
    }

    /** Make room for what each running request computes next. The oldest are seen to first; when the pool is
        exhausted the newest give way. */
    method ScheduleRunning(batch: ScheduledBatch)
      requires Coupled() && Batched(batch) && plan.todo == [] && Batch(plan.items) == [] && PlanSound(cfg, Seqs(plan.items))
      modifies this`running, this`swapped, this`preempted, this`seqs, this`outputs, this`book, this`plan, bm, book.objs, batch
      ensures Coupled() && Batched(batch) && book.objs == old(book.objs)
      ensures plan.todo == [] && plan == Scheduling.ScheduleRunning(cfg, old(plan))
    {
      hide Coupled, Batched, Plan, PlanSound, RunLoop, MidOk, Batch, Seqs;
      ghost var objs := book.objs;
      var given := PlanRunningTokens();
      RunningCounts();
      Replan(batch);
      ghost var m0 := plan;
      var i := 0;
      while i < |running|
        invariant Coupled() && Batched(batch) && book.objs == objs && cfg.blockSize > 0
        invariant i == |plan.items| && |running| == i + |plan.todo| && |given| >= |running|
        invariant forall j :: 0 <= j < |plan.todo| ==> given[i + j] == plan.todo[j].n
        invariant RunLoop(cfg, plan) == RunLoop(cfg, m0)
        decreases |plan.todo|
      {
        ghost var todo := plan.todo;
        assert given[i + 0] == todo[0].n;
        i := Visit(batch, i, given[i]);
        assert forall j :: 0 <= j < |plan.todo| ==> plan.todo[j] == todo[j + 1];
        RunningCounts();
      }
      RunLoopStep(cfg, plan);
    }

    lemma {:induction false} RunningCounts()
      requires Coupled()
      ensures |running| == |plan.items| + |plan.todo| && cfg.blockSize > 0
    {
      hide MidOk, KeysAre, Ids, BlockManager.Valid, WaitingQueue.Valid, WaitingQueue.Queue, All;
    }

    static lemma {:induction false} SkipCuts(cfg: Config, m: Mid)
      requires cfg.blockSize > 0 && m.todo != []
      ensures var m' := SkipHead(m); |m'.items| == |m.items| + 1 && m'.todo == m.todo[1..]
      ensures var m' := AppendHead(cfg, m); |m'.items| == |m.items| + 1 && m'.todo == m.todo[1..]
    {
      hide AppendSlots;
    }

    /** Everybody is to be visited again, with the planned numbers. */
    ghost method Replan(batch: ScheduledBatch)
      requires Coupled() && Batched(batch) && plan.todo == [] && Batch(plan.items) == []
      modifies this`plan
      ensures Coupled() && Batched(batch) && plan == old(plan).(items := [], todo := Plan(cfg, Seqs(old(plan).items)))
      ensures |plan.todo| == |old(plan).items|
    {
      hide MidOk, All, KeysAre, Ids, BlockManager.Valid, WaitingQueue.Valid, WaitingQueue.Queue, BlockManager.View,
        ScheduledBatch.Lists, Plan, Mirror, Batch;
      ghost var m := plan;
      BatchEmptyIdle(m.items);
      ReplanOk(cfg, m);
      PlanSeqs(cfg, m);
      batch.StartOver(running[..|m.items|], m.items);
      plan := m.(items := [], todo := Plan(cfg, Seqs(m.items)));
      assert Seqs(m.todo) == [] && Seqs([]) == [];
      assert Seqs(m.items) + Seqs(m.todo) == Seqs(plan.items) + Seqs(plan.todo);
      assert running[..0] == [];
    }

    static lemma {:induction false} PlanSeqs(cfg: Config, m: Mid)
      requires cfg.blockSize > 0 && MidOk(cfg, m) && AllIdle(m.items)
      ensures Seqs(Plan(cfg, Seqs(m.items))) == Seqs(m.items) && |Plan(cfg, Seqs(m.items))| == |m.items|
    {
      hide BlockPool.Valid, CpuValid, ItemsOk, TodosOk, QueuesOk, Unique, Ids, Plan;
      PlanTodosOk(cfg, m.pool, m.items);
      assert |Seqs(Plan(cfg, Seqs(m.items)))| == |Plan(cfg, Seqs(m.items))|;
    }

    // --- swap-ins ------------------------------------------------------------------------------------------------------

    /** The oldest swapped request gets its blocks back and runs. */
    method Restore(n: nat) returns (s: Sequence, copies: seq<(Block, Block)>)
      requires Coupled() && plan.todo == [] && plan.swapped != [] && |plan.items| < cfg.maxNumSeqs
      requires 0 < n <= Uncomputed(plan.swapped[0]) && BlocksFor(cfg.blockSize, plan.swapped[0].computed + n) <= NumFree(plan.pool)
      modifies this`swapped, this`running, this`book, this`plan, bm, book.objs
      ensures Coupled() && plan == SwapInOne(cfg, old(plan), n) && book.objs == old(book.objs)
      ensures plan.swapIn == old(plan.swapIn) + copies && |plan.items| == |old(plan).items| + 1
      ensures running == old(running) + [s] && s.Is(plan.items[|plan.items| - 1].s, cfg.serving.decode)
    {
      hide OkBut, MidOk, All, Placed, Apart, KeysAre, Ids, BlockManager.Valid, WaitingQueue.Valid,
        WaitingQueue.Queue, BlockManager.View, OnlyChanges,
        Sequence.Is, Stands, Fixed, Revised, SwappedOk, Handling.Resumed, SwapInOne, BlocksFor, NumFree;
      ghost var m, l := plan, book;
      ghost var v, m1, m' := m.swapped[0], m.(swapped := m.swapped[1..]), SwapInOne(cfg, m, n);
      PlacedPop(l, running, swapped, preempted, waiting.Queue(), m);
      s := swapped[0];
      KnownStands(l, s, v);
      TakeSwapped(cfg, m);
      HandIsApart(cfg, m1, v);
      SwapInOneOk(cfg, m, n);
      SwapInOneIs(cfg, m, n);
      Parked(cfg, v);
      swapped := swapped[1..];
      copies := Handling.Resume(cfg, bm, s, n, v, cfg.serving.decode);
      ghost var v' := m'.items[|m.items|].s;
      StandsNow(l, s, v');
      PlacedJoin(l, running, swapped, preempted, waiting.Queue(), m1, m', s, v', n);
      AllBut(l, s, v');
      running, plan, book := running + [s], m', Revised(l, s.id, v');
    }

    static lemma {:induction false} Parked(cfg: Config, v: Seq)
      requires cfg.blockSize > 0 && SwappedOk(cfg, v)
      ensures v.table == [] && |v.cpuTable| == BlocksFor(cfg.blockSize, v.computed) && v.registered == 0
    {
    }

    static lemma {:induction false} SwapInOneIs(cfg: Config, m: Mid, n: nat)
      requires cfg.blockSize > 0 && m.swapped != []
      ensures var m', r := SwapInOne(cfg, m, n), Handling.Resumed(cfg, m.pool, m.swapped[0], n);
        && m'.pool == r.0 && m'.items == m.items + [Item(r.1, n)] && m'.swapped == m.swapped[1..] && m'.swapIn == m.swapIn + r.2
        && m'.todo == m.todo && m'.preempted == m.preempted && m'.waiting == m.waiting && m'.outputs == m.outputs
        && m'.swapOut == m.swapOut && m'.numPreempted == m.numPreempted
    {
      hide Scheduling.SwapIn, AppendSlots;
    }

    method BringIn(batch: ScheduledBatch, n: nat)
      requires Coupled() && Batched(batch) && plan.todo == [] && plan.swapped != [] && |plan.items| < cfg.maxNumSeqs
      requires 0 < n <= Uncomputed(plan.swapped[0]) && BlocksFor(cfg.blockSize, plan.swapped[0].computed + n) <= NumFree(plan.pool)
      modifies this`swapped, this`running, this`book, this`plan, bm, book.objs, batch
      ensures Coupled() && Batched(batch) && plan == SwapInOne(cfg, old(plan), n) && book.objs == old(book.objs)
    {
      hide MidOk, All, Placed, KeysAre, Ids, BlockManager.Valid, WaitingQueue.Valid, WaitingQueue.Queue,
        BlockManager.View, ScheduledBatch.Lists, Sequence.Is, SwapInOne, BlocksFor, NumFree, Handling.Resumed;
      ghost var m, list := plan, running;
      RunningCounts();
      SwapInOneIs(cfg, m, n);
      var s, copies := Restore(n);
      batch.swapIn := batch.swapIn + copies;
      assert list[..|m.items|] == list;
      batch.Add(s, n, list, m.items, plan.items[|m.items|].s, cfg.serving.decode);
      assert running[..|plan.items|] == running;
    }

    method FailOldestSwapped(batch: ScheduledBatch)
      requires Coupled() && Batched(batch) && plan.swapped != []
      modifies this`swapped, this`seqs, this`book, this`plan, this`outputs, bm, book.objs
      ensures Coupled() && Batched(batch) && plan == FailSwapped(old(plan)) && book.objs == old(book.objs)
    {
      hide OkBut, Apart, Sequence.Is, SwappedOk, Scheduling.Fail, Stands, MidOk, All, Placed, KeysAre, Ids,
        BlockManager.Valid, WaitingQueue.Valid, WaitingQueue.Queue, BlockManager.View, ScheduledBatch.Lists;
      ghost var m := plan;
      ghost var m1 := m.(swapped := m.swapped[1..]);
      TakeSwapped(cfg, m);
      FailLists(m1, m.swapped[0]);
      PlacedPop(book, running, swapped, preempted, waiting.Queue(), m);
      var s := swapped[0];
      KnownStands(book, s, m.swapped[0]);
      Parked(cfg, m.swapped[0]);
      swapped := swapped[1..];
      plan := m1;
      Fail(s);
    }

    /** Can the oldest swapped request come back with n tokens to compute? */
    method CanReturn(n: nat) returns (ok: bool)
      requires Coupled() && plan.swapped != [] && plan.todo == []
      ensures ok == CanSwapIn(cfg, plan.pool, plan.swapped[0], n, plan.items != [])
      ensures swapped != []
    {
      hide MidOk, All, Placed, KeysAre, Ids, WaitingQueue.Valid, WaitingQueue.Queue, Stands, BlockPool.Valid, BlocksFor, NumFree;
      PlacedPop(book, running, swapped, preempted, waiting.Queue(), plan);
      KnownStands(book, swapped[0], plan.swapped[0]);
      ok := bm.CanSwapIn(swapped[0], n, running != []);
    }

    lemma {:induction false} SwappedStands()
      requires Coupled() && plan.todo == []
      ensures |swapped| == |plan.swapped| && |running| == |plan.items| && cfg.blockSize > 0
      ensures swapped != [] ==> swapped[0].NumUncomputedTokens() == Uncomputed(plan.swapped[0])
    {
      hide MidOk, KeysAre, Ids, BlockManager.Valid, WaitingQueue.Valid, WaitingQueue.Queue, All, Placed, Stands;
      PlacedPop(book, running, swapped, preempted, waiting.Queue(), plan);
      if swapped != [] {
        KnownStands(book, swapped[0], plan.swapped[0]);
      }
    }

    /** Bring swapped requests back, oldest first, while they fit. */
    method SwapIn(batch: ScheduledBatch, budget: Option<int>)
      requires Coupled() && Batched(batch) && plan.todo == []
      modifies this`swapped, this`running, this`seqs, this`book, this`plan, this`outputs, bm, book.objs, batch
      ensures Coupled() && Batched(batch) && plan.todo == [] && plan == SwapInLoop(cfg, old(plan), budget) && book.objs == old(book.objs)
    {
      hide Coupled, Batched, CanSwapIn, SwapInOne, FailSwapped, SwapInLoop, MidOk, BlocksFor, NumFree;
      ghost var objs := book.objs;
      var left := budget;
      SwappedStands();
      while swapped != [] && |running| < cfg.maxNumSeqs
        invariant Coupled() && Batched(batch) && plan.todo == [] && book.objs == objs && cfg.blockSize > 0
        invariant |swapped| == |plan.swapped| && |running| == |plan.items|
        invariant swapped != [] ==> swapped[0].NumUncomputedTokens() == Uncomputed(plan.swapped[0])
        invariant SwapInLoop(cfg, plan, left) == SwapInLoop(cfg, old(plan), budget)
        decreases |plan.swapped|
      {
        SwapInLoopStep(cfg, plan, left);
        var uncomputed := swapped[0].NumUncomputedTokens();
        var n := match left case None => uncomputed case Some(b) => Min(uncomputed, b);
        if n <= 0 {
          return;
        }
        SwapInCuts(cfg, plan, n);
        var fits := CanReturn(n);
        if fits {
          SwapInTokensOk(cfg, plan, left);
          BringIn(batch, n);
          left := Spend(left, n);
        } else if running == [] {
          FailOldestSwapped(batch);
        } else {
          return;
        }
        SwappedStands();
      }
      SwapInLoopStep(cfg, plan, left);
    }

    static lemma {:induction false} SwapInCuts(cfg: Config, m: Mid, n: nat)
      requires cfg.blockSize > 0 && m.swapped != []
      ensures |SwapInOne(cfg, m, n).swapped| == |m.swapped| - 1 && SwapInOne(cfg, m, n).todo == m.todo
      ensures |FailSwapped(m).swapped| == |m.swapped| - 1 && FailSwapped(m).todo == m.todo
    {
      hide Scheduling.Fail, Handling.Resumed;
      FailLists(m.(swapped := m.swapped[1..]), m.swapped[0]);
      SwapInOneIs(cfg, m, n);
    }

    // --- admissions ----------------------------------------------------------------------------------------------------

    /** s heads the admission queues: recompute victims go before new requests. */
    ghost predicate Heads(s: Sequence)
      reads this, waiting
    {
      && NextUp(plan).Some? && (preempted != [] ==> s == preempted[0])
      && (preempted == [] ==> waiting.Queue() != [] && s == waiting.Queue()[0])
    }

    /** The request to admit next, if there is one. */
    method Head() returns (s: Sequence?)
      requires Coupled() && plan.todo == []
      modifies waiting`heap
      ensures Coupled() && (s == null <==> NextUp(plan).None?)
      ensures s != null ==> Heads(s) && s.Is(NextUp(plan).value, cfg.serving.decode) && s in book.objs
    {
      hide MidOk, All, KeysAre, Ids, BlockManager.Valid, WaitingQueue.Valid, WaitingQueue.Queue, BlockManager.View,
        Sequence.Is, Stands, Placed;
      PlacedPop(book, running, swapped, preempted, waiting.Queue(), plan);
      if preempted != [] {
        s := preempted[0];
        KnownStands(book, s, plan.preempted[0]);
      } else {
        s := waiting.Peek();
        if s != null {
          KnownStands(book, s, plan.waiting[0]);
        }
      }
    }

    /** Take the head off its queue. */
    method PopHead(s: Sequence)
      requires Coupled() && plan.todo == [] && Heads(s)
      modifies this`preempted, this`plan, waiting
      ensures InHand(s) && plan == PopNextUp(old(plan)) && book.vals[s.id] == NextUp(old(plan)).value
      ensures s in book.objs && book.vals[s.id].table == [] && book.vals[s.id].registered == 0
      ensures Ids(old(plan)) == Ids(plan) + multiset{s.id} && KeysAre(seqs.Keys, Ids(old(plan)))
    {
      hide MidOk, OkBut, All, KeysAre, Ids, BlockManager.Valid, WaitingQueue.Valid, WaitingQueue.Queue,
        BlockManager.View, Sequence.Is, Stands, Placed, Fixed, ParkedOk;
      ghost var m := plan;
      PlacedPop(book, running, swapped, preempted, waiting.Queue(), m);
      TakeNext(cfg, m);
      NoBlocks(cfg, NextUp(m).value, if m.preempted != [] then Preempted else Waiting);
      KnownStands(book, s, NextUp(m).value);
      if preempted != [] {
        preempted := preempted[1..];
      } else {
        var popped := waiting.Pop();
      }
      plan := PopNextUp(m);
    }

    static lemma {:induction false} NoBlocks(cfg: Config, v: Seq, status: Status)
      requires cfg.blockSize > 0 && ParkedOk(cfg, v, status)
      ensures v.table == [] && v.registered == 0 && RequestOk(cfg, v)
    {
      hide RequestOk;
    }

    method FailHeadRequest(batch: ScheduledBatch, s: Sequence)
      requires Coupled() && Batched(batch) && plan.todo == [] && Heads(s)
      modifies this`preempted, this`seqs, this`book, this`plan, this`outputs, bm, waiting, book.objs
      ensures Coupled() && Batched(batch) && plan == FailNext(old(plan)) && book.objs == old(book.objs)
    {
      hide OkBut, Apart, Sequence.Is, Scheduling.Fail, Stands, MidOk, All, Placed, KeysAre, Ids, BlockManager.Valid,
        WaitingQueue.Valid, WaitingQueue.Queue, BlockManager.View, ScheduledBatch.Lists;
      FailLists(PopNextUp(plan), NextUp(plan).value);
      PopHead(s);
      Fail(s);
    }

    /** Look the head up in the prefix cache; its hashes are memoised where it stands. */
    method Lookup(s: Sequence) returns (cached: seq<Block>)
      requires Coupled() && plan.todo == [] && Heads(s) && s.Is(NextUp(plan).value, cfg.serving.decode) && s in book.objs
      modifies this`book, this`plan, s`blockHashes
      ensures var r := CachedPrefix(cfg, old(plan).pool, NextUp(old(plan)).value);
        plan == NoteNext(old(plan), r.0) && cached == r.1 && s.Is(r.0, cfg.serving.decode)
      ensures Coupled() && Heads(s) && book.objs == old(book.objs)
    {
      hide OkBut, MidOk, All, Placed, Apart, KeysAre, Ids, BlockManager.Valid, WaitingQueue.Valid,
        WaitingQueue.Queue, BlockManager.View, OnlyChanges,
        Sequence.Is, Stands, Fixed, Revised, CachedPrefix, ParkedOk;
      ghost var m, l := plan, book;
      ghost var v := NextUp(m).value;
      PlacedPop(l, running, swapped, preempted, waiting.Queue(), m);
      KnownStands(l, s, v);
      TakeNext(cfg, m);
      HandIsApart(cfg, PopNextUp(m), v);
      NoteNextOk(cfg, m);
      HasTokens(cfg, v, if m.preempted != [] then Preempted else Waiting);
      cached := Handling.Lookup(cfg, bm, s, v, cfg.serving.decode);
      ghost var v' := CachedPrefix(cfg, m.pool, v).0;
      StandsNow(l, s, v');
      PlacedNote(l, running, swapped, preempted, waiting.Queue(), m, s, v');
      AllBut(l, s, v');
      plan, book := NoteNext(m, v'), Revised(l, s.id, v');
    }

    static lemma {:induction false} HasTokens(cfg: Config, v: Seq, status: Status)
      requires cfg.blockSize > 0 && ParkedOk(cfg, v, status)
      ensures Scheduling.NumTokens(v) > 0
    {
    }

    /** The head joins the running list behind its cached prefix. `m` is the plan before its lookup. */
    method Place(s: Sequence, n: nat, cached: seq<Block>, ghost m: Mid, ghost budget: int)
      requires Coupled() && plan.todo == [] && Heads(s) && |plan.items| < cfg.maxNumSeqs && budget > 0 && s in book.objs
      requires NextUp(m).Some? && MidOk(cfg, m) && m.todo == []
      requires var r := CachedPrefix(cfg, m.pool, NextUp(m).value);
        plan == NoteNext(m, r.0) && cached == r.1 && Admissible(cfg, m, r.0, cached, budget) && n == AdmitTokens(cfg, r.0, cached, budget)
      modifies this`preempted, this`running, this`book, this`plan, bm, waiting, s
      ensures Coupled() && plan == AdmitOne(cfg, m, CachedPrefix(cfg, m.pool, NextUp(m).value).0, n, cached)
      ensures running == old(running) + [s] && book.objs == old(book.objs)
      ensures |plan.items| == |m.items| + 1 && s.Is(plan.items[|m.items|].s, cfg.serving.decode)
    {
      hide OkBut, MidOk, All, Placed, Apart, KeysAre, Ids, BlockManager.Valid, WaitingQueue.Valid,
        WaitingQueue.Queue, BlockManager.View, OnlyChanges,
        Sequence.Is, Stands, Fixed, Revised, CachedPrefix, Allocate, CanAllocate, AdmitTokens, NoteNext, AdmitOne, PopNextUp, Scheduler.InHand, HashOf, Distinct;
      ghost var v := CachedPrefix(cfg, m.pool, NextUp(m).value).0;
      NotedNext(m, v);
      NoteNextOk(cfg, m);
      AdmitOneOk(cfg, m, budget);
      AdmitOneIs(cfg, m, v, n, cached);
      HitsUsable(cfg, m, bm);
      PopHead(s);
      assert CanAllocate(cfg, m.pool, n, cached, m.items != []);
      Enter(s, n, cached, m.items != [], AdmitOne(cfg, m, v, n, cached));
    }

    /** A request in hand gets its first table and joins the running list. */
    method Enter(s: Sequence, n: nat, cached: seq<Block>, ghost wm: bool, ghost m': Mid)
      requires InHand(s) && plan.todo == [] && s in book.objs && MidOk(cfg, m') && KeysAre(seqs.Keys, Ids(m'))
      requires book.vals[s.id].table == [] && CanAllocate(cfg, plan.pool, n, cached, wm) && Distinct(cached)
      requires forall i :: 0 <= i < |cached| ==> 0 <= cached[i] < cfg.numBlocks && HashOf(plan.pool, cached[i]).Some?
      requires var r := Allocate(cfg, plan.pool, book.vals[s.id], n, cached);
        && m'.pool == r.0 && m'.items == plan.items + [Item(r.1.(status := Running), n)] && m'.outputs == plan.outputs
        && m'.todo == plan.todo && m'.swapped == plan.swapped && m'.preempted == plan.preempted && m'.waiting == plan.waiting
      modifies this`running, this`book, this`plan, bm, s
      ensures Coupled() && plan == m' && running == old(running) + [s] && book.objs == old(book.objs)
      ensures s.Is(m'.items[|m'.items| - 1].s, cfg.serving.decode)
    {
      hide OkBut, MidOk, All, Placed, Apart, KeysAre, Ids, BlockManager.Valid, WaitingQueue.Valid,
        WaitingQueue.Queue, BlockManager.View, OnlyChanges,
        Sequence.Is, Stands, Fixed, Revised, Allocate, CanAllocate, HashOf, Distinct;
      ghost var m, l := plan, book;
      ghost var v := l.vals[s.id];
      AllHas(l, s);
      HandIsApart(cfg, m, v);
      Handling.Admit(cfg, bm, s, n, cached, v, wm, cfg.serving.decode);
      ghost var v' := m'.items[|m.items|].s;
      StandsNow(l, s, v');
      PlacedJoin(l, running, swapped, preempted, waiting.Queue(), m, m', s, v', n);
      AllBut(l, s, v');
      running, plan, book := running + [s], m', Revised(l, s.id, v');
    }

    static lemma {:induction false} NotedNext(m: Mid, v: Seq)
      requires NextUp(m).Some?
      ensures NextUp(NoteNext(m, v)) == Some(v) && PopNextUp(NoteNext(m, v)) == PopNextUp(m)
      ensures var m' := NoteNext(m, v);
        && m'.pool == m.pool && m'.items == m.items && m'.todo == m.todo && m'.swapped == m.swapped && m'.outputs == m.outputs
        && m'.swapOut == m.swapOut && m'.swapIn == m.swapIn && m'.numPreempted == m.numPreempted
    {
      assert m.preempted != [] ==> m.preempted[0 := v][1..] == m.preempted[1..];
      assert m.preempted == [] ==> m.waiting[0 := v][1..] == m.waiting[1..];
    }

    static lemma {:induction false} AdmitOneIs(cfg: Config, m: Mid, v: Seq, n: nat, cached: seq<Block>)
      requires cfg.blockSize > 0
      ensures var m', m1, r := AdmitOne(cfg, m, v, n, cached), PopNextUp(m), Allocate(cfg, m.pool, v, n, cached);
        && m'.pool == r.0 && m'.items == m1.items + [Item(r.1.(status := Running), n)] && m1.items == m.items && m1.pool == m.pool
        && m'.todo == m1.todo == m.todo && m'.swapped == m1.swapped && m'.preempted == m1.preempted && m'.waiting == m1.waiting
        && m'.outputs == m1.outputs == m.outputs && m'.swapOut == m.swapOut && m'.swapIn == m.swapIn && m'.numPreempted == m.numPreempted
    {
      hide Allocate;
    }

    /** The hits of a lookup are distinct published blocks. */
    static lemma {:induction false} HitsUsable(cfg: Config, m: Mid, bm: BlockManager)
      requires cfg.blockSize > 0 && MidOk(cfg, m) && NextUp(m).Some? && bm.cfg == cfg && bm.Valid() && bm.View() == m.pool
      ensures var r := CachedPrefix(cfg, m.pool, NextUp(m).value);
        && Distinct(r.1) && |r.1| * cfg.blockSize < Scheduling.NumTokens(r.0) && r.0.gen == NextUp(m).value.gen
        && forall i :: 0 <= i < |r.1| ==> 0 <= r.1[i] < cfg.numBlocks && HashOf(m.pool, r.1[i]).Some?
    {
      hide OkBut, BlockPool.Valid, MidOk, ParkedOk, CachedPrefix, HashOf, Distinct;
      TakeNext(cfg, m);
      NoBlocks(cfg, NextUp(m).value, if m.preempted != [] then Preempted else Waiting);
      CachedPrefixOk(cfg, m.pool, bm.held, NextUp(m).value);
    }

    /** The head is admitted: it leaves its queue, runs, and joins the batch. */
    method AdmitHead(batch: ScheduledBatch, s: Sequence, n: nat, cached: seq<Block>, ghost m: Mid, ghost budget: int)
      requires Coupled() && Batched(batch) && plan.todo == [] && Heads(s) && |plan.items| < cfg.maxNumSeqs && budget > 0 && s in book.objs
      requires NextUp(m).Some? && MidOk(cfg, m) && m.todo == [] && n > 0
      requires var r := CachedPrefix(cfg, m.pool, NextUp(m).value);
        plan == NoteNext(m, r.0) && cached == r.1 && Admissible(cfg, m, r.0, cached, budget) && n == AdmitTokens(cfg, r.0, cached, budget)
      modifies this`preempted, this`running, this`book, this`plan, bm, waiting, book.objs, batch
      ensures Coupled() && Batched(batch) && plan == AdmitOne(cfg, m, CachedPrefix(cfg, m.pool, NextUp(m).value).0, n, cached)
      ensures book.objs == old(book.objs)
    {
      hide MidOk, All, Placed, KeysAre, Ids, BlockManager.Valid, WaitingQueue.Valid, WaitingQueue.Queue,
        BlockManager.View, ScheduledBatch.Lists, Sequence.Is, AdmitOne, NoteNext, Admissible, AdmitTokens,
        CachedPrefix;
      ghost var list := running;
      RunningCounts();
      ghost var v := CachedPrefix(cfg, m.pool, NextUp(m).value).0;
      NotedNext(m, v);
      AdmitOneIs(cfg, m, v, n, cached);
      Place(s, n, cached, m, budget);
      assert list[..|m.items|] == list;
      batch.Add(s, n, list, m.items, plan.items[|m.items|].s, cfg.serving.decode);
      assert running[..|plan.items|] == running;
    }

    /** How many tokens the head would compute behind its hits, and whether it may be admitted with them. */
    method MayAdmit(s: Sequence, cached: seq<Block>, budget: int, ghost m: Mid) returns (n: int, ok: bool)
      requires Coupled() && plan.todo == [] && NextUp(m).Some? && MidOk(cfg, m) && budget > 0
      requires var r := CachedPrefix(cfg, m.pool, NextUp(m).value);
        plan == NoteNext(m, r.0) && cached == r.1 && s.Is(r.0, cfg.serving.decode)
      ensures var v := CachedPrefix(cfg, m.pool, NextUp(m).value).0;
        n == AdmitTokens(cfg, v, cached, budget) > 0 && ok == Admissible(cfg, m, v, cached, budget)
    {
      hide MidOk, All, Placed, KeysAre, Ids, WaitingQueue.Valid, WaitingQueue.Queue, CachedPrefix, BlockPool.Valid,
        NoteNext, Distinct, HashOf, Scheduling.CanAllocate;
      ghost var v := CachedPrefix(cfg, m.pool, NextUp(m).value).0;
      NotedNext(m, v);
      HitsUsable(cfg, m, bm);
      ValidSizes(cfg.numBlocks, bm.View(), bm.held);
      RunningCounts();
      var remaining := s.NumTokens() - |cached| * cfg.blockSize;
      n := if cfg.chunked then Min(remaining, budget) else remaining;
      if n > budget {
        return n, false;
      }
      ok := bm.CanAllocate(n, cached, running != []);
    }

    /** Let requests in, dropped victims before new ones, up to the budget and the limit on running requests; once
        one does not fit, none behind it is tried. */
    method Admit(batch: ScheduledBatch, budget: int)
      requires Coupled() && Batched(batch) && plan.todo == []
      modifies this`preempted, this`running, this`seqs, this`book, this`plan, this`outputs, bm, waiting, book.objs, batch
      ensures Coupled() && Batched(batch) && plan.todo == [] && plan == AdmitLoop(cfg, old(plan), budget) && book.objs == old(book.objs)
    {
      hide Batched, CachedPrefix, AdmitTokens, Admissible, BlocksFor, AdmitOne, FailNext, NoteNext, AdmitLoop, Heads,
        Sequence.Is, MidOk, All, Placed, KeysAre, Ids, BlockManager.Valid, WaitingQueue.Valid, WaitingQueue.Queue,
        BlockManager.View, ScheduledBatch.Lists;
      ghost var objs, end := book.objs, AdmitLoop(cfg, plan, budget);
      var left := budget;
      RunningCounts();
      while left > 0 && |running| < cfg.maxNumSeqs
        invariant Coupled() && Batched(batch) && plan.todo == [] && book.objs == objs && |running| == |plan.items|
        invariant AdmitLoop(cfg, plan, left) == end
        decreases |plan.preempted| + |plan.waiting|
      {
        AdmitLoopStep(cfg, plan, left);
        var head := Head();
        if head == null {
          return;
        }
        var left' := AdmitNext(batch, head, left);
        if left'.None? {
          return;
        }
        left := left'.value;
        RunningCounts();
      }
      AdmitLoopStep(cfg, plan, left);
    }

    /** Deal with the head: fail it, admit it, or stop. */
    method AdmitNext(batch: ScheduledBatch, s: Sequence, budget: int) returns (left: Option<int>)
      requires Coupled() && Batched(batch) && plan.todo == [] && Heads(s) && s.Is(NextUp(plan).value, cfg.serving.decode) && s in book.objs
      requires budget > 0 && |plan.items| < cfg.maxNumSeqs
      modifies this`preempted, this`running, this`seqs, this`book, this`plan, this`outputs, bm, waiting, book.objs, batch
      ensures Coupled() && Batched(batch) && plan.todo == [] && book.objs == old(book.objs)
      ensures AdmitLoop(cfg, old(plan), budget) == if left.None? then plan else AdmitLoop(cfg, plan, left.value)
      ensures left.Some? ==> |plan.preempted| + |plan.waiting| < |old(plan).preempted| + |old(plan).waiting|
    {
      hide Batched, CachedPrefix, AdmitTokens, Admissible, BlocksFor, AdmitOne, FailNext, NoteNext, AdmitLoop, MidOk,
        All, Placed, KeysAre, Ids, BlockManager.Valid, WaitingQueue.Valid, WaitingQueue.Queue, BlockManager.View,
        ScheduledBatch.Lists, Sequence.Is;
      ghost var m := plan;
      AdmitLoopStep(cfg, m, budget);
      AdmitCuts(cfg, m);
      TokensOf(s, NextUp(m).value);
      if BlocksFor(cfg.blockSize, s.NumTokens()) > cfg.numBlocks {
        FailHeadRequest(batch, s);
        return Some(budget);
      }
      var cached := LookupHead(batch, s);
      var n, ok := MayAdmit(s, cached, budget, m);
      if !ok {
        return None;
      }
      AdmitHead(batch, s, n, cached, m, budget);
      return Some(budget - n);
    }

    method LookupHead(batch: ScheduledBatch, s: Sequence) returns (cached: seq<Block>)
      requires Coupled() && Batched(batch) && plan.todo == [] && Heads(s) && s.Is(NextUp(plan).value, cfg.serving.decode) && s in book.objs
      modifies this`book, this`plan, book.objs
      ensures var r := CachedPrefix(cfg, old(plan).pool, NextUp(old(plan)).value);
        plan == NoteNext(old(plan), r.0) && cached == r.1 && s.Is(r.0, cfg.serving.decode) && plan.todo == [] && plan.items == old(plan).items
      ensures Coupled() && Batched(batch) && Heads(s) && book.objs == old(book.objs)
    {
      hide MidOk, All, Placed, KeysAre, BlockManager.Valid, WaitingQueue.Valid, WaitingQueue.Queue,
        ScheduledBatch.Lists, CachedPrefix, NoteNext, Sequence.Is;
      NotedNext(plan, CachedPrefix(cfg, plan.pool, NextUp(plan).value).0);
      cached := Lookup(s);
    }

    lemma {:induction false} TokensOf(s: Sequence, v: Seq)
      requires s.Is(v, cfg.serving.decode)
      ensures s.NumTokens() == Scheduling.NumTokens(v)
    {
    }

    static lemma {:induction false} AdmitCuts(cfg: Config, m: Mid)
      requires cfg.blockSize > 0 && NextUp(m).Some?
      ensures var f := FailNext(m); |f.preempted| + |f.waiting| < |m.preempted| + |m.waiting| && f.todo == m.todo
      ensures var r := CachedPrefix(cfg, m.pool, NextUp(m).value);
        && NoteNext(m, r.0).todo == m.todo
        && forall n: nat :: var a := AdmitOne(cfg, m, r.0, n, r.1); |a.preempted| + |a.waiting| < |m.preempted| + |m.waiting| && a.todo == m.todo
    {
      hide CachedPrefix, Scheduling.Fail, Allocate;
      FailLists(PopNextUp(m), NextUp(m).value);
      var r := CachedPrefix(cfg, m.pool, NextUp(m).value);
      forall n: nat ensures var a := AdmitOne(cfg, m, r.0, n, r.1); |a.preempted| + |a.waiting| < |m.preempted| + |m.waiting| && a.todo == m.todo {
        AdmitOneIs(cfg, m, r.0, n, r.1);
      }
    }

    // --- one step's plan -----------------------------------------------------------------------------------------------

    method SchedulePrefillPriority(batch: ScheduledBatch)
      requires Coupled() && Batched(batch) && plan.todo == [] && Batch(plan.items) == [] && !cfg.chunked
      modifies this`preempted, this`running, this`swapped, this`seqs, this`book, this`plan, this`outputs, bm, waiting, book.objs, batch
      ensures Coupled() && Batched(batch) && plan.todo == [] && book.objs == old(book.objs)
      ensures plan == Scheduling.SchedulePrefillPriority(cfg, old(plan))
    {
      hide Coupled, Batched, AdmitLoop, SwapInLoop, Scheduling.ScheduleRunning, Batch;
      ghost var m := plan;
      SwappedStands();
      Unchunked(cfg, Seqs(plan.items));
      if swapped == [] {
        Admit(batch, cfg.maxBatchTokens);
        CountsOf(batch);
        if batch.seqs != [] {
          return;
        }
        Unchunked(cfg, Seqs(plan.items));
      }
      ScheduleRunning(batch);
      CountsOf(batch);
      if batch.numPreempted == 0 {
        SwapIn(batch, None);
      }
    }

    static lemma {:induction false} Unchunked(cfg: Config, running: seq<Seq>)
      requires !cfg.chunked
      ensures PlanSound(cfg, running)
    {
    }

    lemma {:induction false} CountsOf(batch: ScheduledBatch)
      requires Batched(batch)
      ensures batch.numTokens == BatchTokens(plan.items) && (batch.seqs == [] <==> Batch(plan.items) == [])
      ensures batch.numPreempted == plan.numPreempted
    {
    }

    method ScheduleChunked(batch: ScheduledBatch)
      requires Coupled() && Batched(batch) && plan.todo == [] && Batch(plan.items) == [] && PlanSound(cfg, Seqs(plan.items))
      modifies this`preempted, this`running, this`swapped, this`seqs, this`book, this`plan, this`outputs, bm, waiting, book.objs, batch
      ensures Coupled() && Batched(batch) && plan.todo == [] && book.objs == old(book.objs)
      ensures plan == Scheduling.ScheduleChunked(cfg, old(plan))
    {
      hide Coupled, Batched, AdmitLoop, SwapInLoop, Scheduling.ScheduleRunning, BatchTokens, PlanSound, Batch;
      SwappedStands();
      ScheduleRunning(batch);
      CountsOf(batch);
      if batch.numPreempted > 0 {
        return;
      }
      SwapIn(batch, Some(cfg.maxBatchTokens - batch.numTokens));
      SwappedStands();
      CountsOf(batch);
      if swapped == [] {
        Admit(batch, cfg.maxBatchTokens - batch.numTokens);
      }
    }

    /** Decide one step: its batch, its copies and whoever has to give way or fail. */
    method Schedule() returns (batch: ScheduledBatch)
      requires Coupled() && plan == Begin(View()) && PlanSound(cfg, View().running)
      modifies this`preempted, this`running, this`swapped, this`seqs, this`book, this`plan, this`outputs, bm, waiting, book.objs
      ensures fresh(batch) && Coupled() && Batched(batch) && plan.todo == [] && book.objs == old(book.objs)
      ensures plan == Scheduling.Schedule(cfg, old(View()))
    {
      hide Coupled, Scheduling.ScheduleChunked, Scheduling.SchedulePrefillPriority, PlanSound, ScheduledBatch.Lists,
        Batch, BatchTokens;
      RunningCounts();
      batch := new ScheduledBatch();
      NobodyScheduled(batch, running, View().running);
      assert running[..|plan.items|] == running;
      if cfg.chunked {
        ScheduleChunked(batch);
      } else {
        SchedulePrefillPriority(batch);
      }
    }

    /** An empty batch lists a running list where nobody computes anything. */
    static lemma {:induction false} NobodyScheduled(batch: ScheduledBatch, list: seq<Sequence>, running: seq<Seq>)
      requires batch.Lists([], []) && |list| == |running|
      ensures batch.Lists(list, Idle(running)) && Batch(Idle(running)) == []
      decreases |running|
    {
      if running != [] {
        var k := |running| - 1;
        NobodyScheduled(batch, list[..k], running[..k]);
        batch.Passed(list[..k], Idle(running[..k]), list[k], running[k]);
        assert Idle(running[..k]) + [Item(running[k], 0)] == Idle(running) && list[..k] + [list[k]] == list;
        BatchSnoc(Idle(running[..k]), Item(running[k], 0));
      }
    }

    // --- after the forward pass ----------------------------------------------------------------------------------------

    /** Part of the batch has been dealt with: the running requests stand for `values`, finished ones included. */
    ghost predicate Updating(values: seq<Seq>)
      reads this, bm, waiting, book.objs
    {
      && cfg.blockSize > 0 && bm.cfg == cfg && waiting.cfg == cfg && this !in book.objs && bm !in book.objs && waiting !in book.objs
      && bm.Valid() && waiting.Valid() && book.decode == cfg.serving.decode && All(book) && LivePart(seqs, book)
      && Mirror(book, running, values) && Mirror(book, swapped, plan.swapped)
      && Mirror(book, preempted, plan.preempted) && Mirror(book, waiting.Queue(), plan.waiting)
    }

    /** The id of values[i] is nobody else's. */
    ghost predicate Alone(values: seq<Seq>, i: nat)
      requires i < |values|
      reads this
    {
      && (forall j :: 0 <= j < |values| && j != i ==> values[j].id != values[i].id)
      && NoneHas(plan.swapped, values[i].id) && NoneHas(plan.preempted, values[i].id) && NoneHas(plan.waiting, values[i].id)
    }

    /** One request's result. */
    method TakeResult(s: Sequence, n: nat, doSample: bool, token: Token, ghost values: seq<Seq>, ghost i: nat)
      returns (outs: seq<Output>, finished: bool)
      requires Updating(values) && i < |values| && i < |running| && s == running[i] && Alone(values, i)
      requires n > 0 && doSample == Samples(Item(values[i], n)) && ItemOk(cfg, bm.View(), Item(values[i], n)) && values[i].status == Running
      requires multiset(values[i].table) <= bm.held
      modifies this`seqs, this`book, bm, book.objs
      ensures var u := UpdateItem(cfg, old(bm.View()), Item(values[i], n), if doSample then [token] else []);
        && bm.View() == u.pool && outs == u.outputs
        && |u.running + u.retired| == 1 && Updating(values[i := (u.running + u.retired)[0]])
        && (finished <==> u.running == [])
      ensures book.objs == old(book.objs) && book.seqs == old(book.seqs)
    {
      hide All, Mirror, BlockManager.Valid, WaitingQueue.Valid, WaitingQueue.Queue, Sequence.Is, ItemOk, UpdateItem,
        Samples, NoneHas, OnlyChanges, LivePart, Fixed, Stands, Revised;
      ghost var l, v := book, values[i];
      ghost var u := UpdateItem(cfg, bm.View(), Item(v, n), if doSample then [token] else []);
      OneResult(cfg, bm.View(), Item(v, n), if doSample then [token] else []);
      MirrorLength(l, running, values);
      MirrorAt(l, running, values, i);
      KnownStands(l, s, v);
      outs := Handling.Take(cfg, bm, s, n, doSample, token, v);
      ghost var v' := (u.running + u.retired)[0];
      StandsNow(l, s, v');
      AllBut(l, s, v');
      finished := s.status != Running;
      if finished {
        seqs := seqs - {s.id};
      }
      book := Revised(l, s.id, v');
      MirrorUpdate(l, running, values, i, v');
      MirrorChange(l, swapped, plan.swapped, v.id, v');
      MirrorChange(l, preempted, plan.preempted, v.id, v');
      MirrorChange(l, waiting.Queue(), plan.waiting, v.id, v');
      LiveStep(old(seqs), seqs, l, s.id, v, v');
    }

    /** A planned step is about to be taken: nobody has finished yet. */
    lemma {:induction false} NobodyFinished()
      requires Coupled() && plan.todo == []
      ensures Updating(Seqs(plan.items)) && |running| == |plan.items| && bm.View() == plan.pool
    {
      hide All, BlockManager.Valid, WaitingQueue.Valid, WaitingQueue.Queue, Ids, KeysAre, MidOk;
      Unfinished(cfg, plan);
      assert Seqs(plan.todo) == [];
      assert Seqs(plan.items) + Seqs(plan.todo) == Seqs(plan.items);
      forall id | id in seqs ensures id in book.vals && book.vals[id].status != Finished {
        KnownIs(id);
      }
      AllKeys(book);
    }

    /** Every known request is in one of the lists. */
    lemma {:induction false} KnownIs(id: int)
      requires Coupled() && plan.todo == [] && id in seqs
      ensures id in book.vals && book.vals[id].status != Finished
    {
      hide All, BlockManager.Valid, WaitingQueue.Valid, WaitingQueue.Queue, Total, Apart;
      HandApart(plan, id);
      assert id in Ids(plan);
      hide Ids;
      Unfinished(cfg, plan);
      hide MidOk;
      AllKeys(book);
      assert !Apart(plan, id);
      ListedUnfinished(id);
    }

    lemma {:induction false} ListedUnfinished(id: int)
      requires Follows() && plan.todo == [] && id in seqs && id in book.vals && !Apart(plan, id)
      requires forall i :: 0 <= i < |plan.items| ==> plan.items[i].s.status == Running
      requires forall i :: 0 <= i < |plan.swapped| ==> plan.swapped[i].status == Preempted
      requires forall i :: 0 <= i < |plan.preempted| ==> plan.preempted[i].status == Preempted
      requires forall i :: 0 <= i < |plan.waiting| ==> plan.waiting[i].status == Waiting
      ensures book.vals[id].status != Finished
    {
      hide All, BlockManager.Valid, WaitingQueue.Valid, WaitingQueue.Queue;
      assert Seqs(plan.todo) == [];
      var all := Seqs(plan.items) + Seqs(plan.todo);
      if !NoneHas(all, id) {
        var i :| 0 <= i < |all| && all[i].id == id;
        assert Stands(book, running[i], all[i]);
      } else if !NoneHas(plan.swapped, id) {
        var i :| 0 <= i < |plan.swapped| && plan.swapped[i].id == id;
        assert Stands(book, swapped[i], plan.swapped[i]);
      } else if !NoneHas(plan.preempted, id) {
        var i :| 0 <= i < |plan.preempted| && plan.preempted[i].id == id;
        assert Stands(book, preempted[i], plan.preempted[i]);
      } else {
        var i :| 0 <= i < |plan.waiting| && plan.waiting[i].id == id;
        assert Stands(book, waiting.Queue()[i], plan.waiting[i]);
      }
    }

    /** The first k results have been taken, using the first `used` samples. */
    ghost predicate Turned(b: seq<Item>, sampled: seq<Token>, k: nat, used: nat, others: multiset<Block>,
                           outs: seq<Output>, anyFinished: bool)
      requires cfg.blockSize > 0
      reads this, bm, waiting, book.objs
    {
      var after := After(cfg, plan.pool, b, sampled);
      && k <= |b| && Half(cfg, plan.pool, b, sampled, k, used, bm.View(), others, outs)
      && Updating(Progress(plan.items, after[..k]))
      && (!anyFinished ==> forall j :: 0 <= j < k ==> after[j].status == Running)
    }

    /** Take the results of the batch in order. */
    method TakeResults(batch: ScheduledBatch, sampled: seq<Token>) returns (outs: seq<Output>, anyFinished: bool)
      requires Coupled() && Batched(batch) && plan.todo == [] && |sampled| == NumSampled(plan.items)
      modifies this`seqs, this`book, bm, book.objs
      ensures var u, after := UpdateItems(cfg, plan.pool, plan.items, sampled), After(cfg, plan.pool, Batch(plan.items), sampled);
        && bm.View() == u.pool && outs == u.outputs && u.running == StillRunning(Progress(plan.items, after))
        && Updating(Progress(plan.items, after)) && |running| == |plan.items|
        && (!anyFinished ==> forall i :: 0 <= i < |plan.items| ==> Progress(plan.items, after)[i].status == Running)
        && (forall i :: 0 <= i < |plan.items| ==>
              && Progress(plan.items, after)[i].id == plan.items[i].s.id
              && (Progress(plan.items, after)[i].status == Running || Progress(plan.items, after)[i].status == Finished))
      ensures book.objs == old(book.objs) && book.seqs == old(book.seqs)
    {
      hide Coupled, Turned, Batch, UpdateItems, After, Progress, StillRunning, NumSampled, MidOk, Batched, Updating,
        ScheduledBatch.Lists;
      KnownKeys();
      ghost var b, objs, known := Batch(plan.items), book.objs, book.seqs;
      BatchSize(batch);
      ghost var others := NoTurn(batch, sampled);
      outs, anyFinished := [], false;
      var k: nat, used: nat := 0, 0;
      while k < |batch.seqs|
        invariant k <= |batch.seqs| == |b| && book.objs == objs && book.seqs == known
        invariant batch.Lists(running, plan.items) && Turned(b, sampled, k, used, others, outs, anyFinished)
      {
        var more: seq<Output>, finished: bool;
        more, finished, used, others := TakeTurn(batch, sampled, k, used, others, outs, anyFinished);
        outs, anyFinished := outs + more, anyFinished || finished;
        k := k + 1;
      }
      AllTurned(b, sampled, used, others, outs, anyFinished);
    }

    lemma {:induction false} BatchSize(batch: ScheduledBatch)
      requires Batched(batch) && |running| == |plan.items|
      ensures |batch.seqs| == |Batch(plan.items)| && batch !in book.objs && batch.Lists(running, plan.items)
    {
      hide Batch, Chosen;
      assert running[..|plan.items|] == running;
    }

    lemma {:induction false} NoTurn(batch: ScheduledBatch, sampled: seq<Token>) returns (others: multiset<Block>)
      requires Coupled() && Batched(batch) && plan.todo == [] && |sampled| == NumSampled(plan.items)
      ensures Turned(Batch(plan.items), sampled, 0, 0, others, [], false) && |running| == |plan.items|
    {
      hide Updating, Batch, Half, Ready, After, NumSampled, MidOk, Progress, Batched;
      NobodyFinished();
      others := Ready0(batch, sampled);
      HalfStart(cfg, plan.pool, others, Batch(plan.items), sampled);
      NoProgress(plan.items);
      assert After(cfg, plan.pool, Batch(plan.items), sampled)[..0] == [];
    }

    lemma {:induction false} AllTurned(b: seq<Item>, sampled: seq<Token>, used: nat, others: multiset<Block>,
                                       outs: seq<Output>, anyFinished: bool)
      requires cfg.blockSize > 0 && MidOk(cfg, plan) && plan.todo == [] && b == Batch(plan.items) && |running| == |plan.items|
      requires Turned(b, sampled, |b|, used, others, outs, anyFinished)
      ensures var u, after := UpdateItems(cfg, plan.pool, plan.items, sampled), After(cfg, plan.pool, b, sampled);
        && bm.View() == u.pool && outs == u.outputs && u.running == StillRunning(Progress(plan.items, after))
        && Updating(Progress(plan.items, after))
        && (!anyFinished ==> forall i :: 0 <= i < |plan.items| ==> Progress(plan.items, after)[i].status == Running)
        && (forall i :: 0 <= i < |plan.items| ==>
              && Progress(plan.items, after)[i].id == plan.items[i].s.id
              && (Progress(plan.items, after)[i].status == Running || Progress(plan.items, after)[i].status == Finished))
    {
      hide Updating, Batch, Half, After, UpdateItems, StillRunning, MidOk, Progress;
      var items := plan.items;
      var after := After(cfg, plan.pool, b, sampled);
      Unfinished(cfg, plan);
      BatchRunning(items);
      AfterIs(cfg, plan.pool, b, sampled);
      OverBatch(cfg, plan.pool, items, sampled);
      assert after[..|b|] == after;
      HalfDone(cfg, plan.pool, b, sampled, used, bm.View(), others, outs);
      ProgressIs(items, after, |b|);
    }

    /** The k-th result, when `used` samples have been consumed. */
    method TakeTurn(batch: ScheduledBatch, sampled: seq<Token>, k: nat, used: nat, ghost others: multiset<Block>,
                    ghost outs: seq<Output>, ghost anyFinished: bool)
      returns (more: seq<Output>, finished: bool, used': nat, ghost others': multiset<Block>)
      requires cfg.blockSize > 0 && MidOk(cfg, plan) && plan.todo == [] && batch.Lists(running, plan.items) && batch !in book.objs
      requires k < |Batch(plan.items)| && this !in book.objs && bm !in book.objs && waiting !in book.objs
      requires Turned(Batch(plan.items), sampled, k, used, others, outs, anyFinished)
      modifies this`seqs, this`book, bm, book.objs
      ensures Turned(Batch(plan.items), sampled, k + 1, used', others', outs + more, anyFinished || finished)
      ensures book.objs == old(book.objs) && book.seqs == old(book.seqs)
    {
      hide Updating, Half, Ready, After, UpdateItem, UpdateItems, Samples, MidOk, Progress, Rank, ItemOk,
        BlockPool.Valid, ScheduledBatch.Lists, Batch, Total;
      ghost var items, p0 := plan.items, plan.pool;
      ghost var b := Batch(items);
      ghost var after := After(cfg, p0, b, sampled);
      ghost var u := UpdateItem(cfg, bm.View(), b[k], if Samples(b[k]) && used < |sampled| then [sampled[used]] else []);
      Unfinished(cfg, plan);
      BatchRunning(items);
      AfterIs(cfg, p0, b, sampled);
      HalfStep(cfg, p0, b, sampled, k, used, bm.View(), others, outs);
      ghost var i := ItemOfBatch(items, k);
      BatchTurn(batch, k, i, after);
      assert after[..k + 1] == after[..k] + [after[k]];
      ProgressStep(items, after[..k], after[k], i);
      BmValid(Progress(items, after[..k]));
      used' := if batch.doSample[k] then used + 1 else used;
      others' := others + Total(u.running, TableOf);
      var token := if batch.doSample[k] then sampled[used] else 0;
      more, finished := TakeResult(batch.seqs[k], batch.numNewTokens[k], batch.doSample[k], token, Progress(items, after[..k]), i);
    }

    lemma {:induction false} BmValid(values: seq<Seq>)
      requires Updating(values)
      ensures cfg.blockSize > 0 && bm.cfg == cfg && BlockPool.Valid(cfg.numBlocks, bm.View(), bm.held) && |running| == |values|
    {
      hide All, WaitingQueue.Valid, WaitingQueue.Queue, BlockPool.Valid;
    }

    lemma {:induction false} Ready0(batch: ScheduledBatch, sampled: seq<Token>) returns (others: multiset<Block>)
      requires Coupled() && plan.todo == [] && |sampled| == NumSampled(plan.items)
      ensures Ready(cfg, plan.pool, others, Batch(plan.items), sampled)
    {
      hide All, Mirror, BlockManager.Valid, WaitingQueue.Valid, WaitingQueue.Queue, KeysAre, MidOk, Batch,
        BlockPool.Valid, ItemsOk, NumSampled;
      WholePool(cfg, plan);
      others := BatchReady(cfg, plan.pool, multiset{}, plan.items, sampled);
    }

    /** The k-th of the batch is a running request that is nobody else's. */
    lemma {:induction false} BatchTurn(batch: ScheduledBatch, k: nat, i: nat, after: seq<Seq>)
      requires batch.Lists(running, plan.items) && cfg.blockSize > 0 && MidOk(cfg, plan) && plan.todo == []
      requires |after| == |Batch(plan.items)| && k < |after| && i < |plan.items| && plan.items[i].n > 0 && Rank(plan.items, i) == k
      requires forall j :: 0 <= j < |after| ==>
        after[j].id == Batch(plan.items)[j].s.id && (after[j].status == Running || after[j].status == Finished)
      ensures k < |batch.seqs| == |batch.numNewTokens| == |batch.doSample|
      ensures batch.seqs[k] == running[i] && Batch(plan.items)[k] == plan.items[i]
      ensures batch.numNewTokens[k] == plan.items[i].n && batch.doSample[k] == Samples(plan.items[i])
      ensures Alone(Progress(plan.items, after[..k]), i)
    {
      hide Batch, Chosen, Rank, MidOk, NoneHas, Samples, Progress;
      ChosenAt(running, plan.items, i);
      RankIs(plan.items, i);
      ItemApart(cfg, plan, i);
      Unfinished(cfg, plan);
      ProgressIs(plan.items, after, k);
    }

    /** The running list without those that finished. */
    static method KeepRunning(list: seq<Sequence>, ghost values: seq<Seq>) returns (kept: seq<Sequence>)
      requires |list| == |values| && forall i :: 0 <= i < |list| ==> list[i].status == values[i].status
      ensures kept == Selected(list, values)
    {
      kept := [];
      var i := 0;
      while i < |list|
        invariant 0 <= i <= |list| && kept == Selected(list[..i], values[..i])
      {
        assert list[..i + 1][..i] == list[..i] && values[..i + 1][..i] == values[..i];
        if list[i].status == Running {
          kept := kept + [list[i]];
        }
        i := i + 1;
      }
      assert list[..i] == list && values[..i] == values;
    }

    lemma {:induction false} Statuses(values: seq<Seq>)
      requires Updating(values)
      ensures |running| == |values| && forall i :: 0 <= i < |running| ==> running[i].status == values[i].status
    {
      hide All, BlockManager.Valid, WaitingQueue.Valid, WaitingQueue.Queue;
      forall i | 0 <= i < |running| ensures running[i].status == values[i].status {
        KnownStands(book, running[i], values[i]);
      }
    }

    /** Take a step's results: computed counts advance, sampled tokens are appended, and finished requests give
        their blocks back and leave. */
    method Update(batch: ScheduledBatch, sampled: seq<Token>) returns (outs: seq<Output>)
      requires Coupled() && Batched(batch) && plan.todo == [] && |sampled| == NumSampled(plan.items)
      modifies this`running, this`seqs, this`book, this`plan, this`outputs, bm, book.objs
      ensures Coupled() && plan == Begin(View()) && (View(), outs) == Scheduling.Update(cfg, old(plan), sampled)
      ensures book.objs == old(book.objs)
    {
      hide Updating, After, UpdateItems, StillRunning, NumSampled, MidOk, Progress, Batch, Ids, KeysAre, Coupled, Batched;
      KnownKeys();
      ghost var m := plan;
      ghost var values := Progress(m.items, After(cfg, m.pool, Batch(m.items), sampled));
      ghost var st := Scheduling.Update(cfg, m, sampled).0;
      Unfinished(cfg, m);
      UpdateOk(cfg, m, sampled);
      var failed := outputs;
      var news, anyFinished := TakeResults(batch, sampled);
      outs := failed + news;
      KeysAfter(values, st);
      Conclude(values, anyFinished, st);
      IdleConcat(st.running, []);
    }

    lemma {:induction false} KnownKeys()
      requires Coupled()
      ensures outputs == plan.outputs && cfg.blockSize > 0 && KeysAre(book.seqs.Keys, Ids(plan)) && MidOk(cfg, plan)
      ensures this !in book.objs && bm !in book.objs && waiting !in book.objs && |running| == |plan.items| + |plan.todo|
    {
      hide All, BlockManager.Valid, WaitingQueue.Valid, WaitingQueue.Queue, MidOk, Ids;
    }

    /** The ids known when the results have been taken are those of the new state. */
    lemma {:induction false} KeysAfter(values: seq<Seq>, st: State)
      requires Updating(values) && plan.todo == [] && KeysAre(book.seqs.Keys, Ids(plan)) && |values| == |plan.items|
      requires forall i :: 0 <= i < |values| ==> values[i].id == plan.items[i].s.id && (values[i].status == Running || values[i].status == Finished)
      requires forall i :: 0 <= i < |plan.swapped| ==> plan.swapped[i].status == Preempted
      requires forall i :: 0 <= i < |plan.preempted| ==> plan.preempted[i].status == Preempted
      requires forall i :: 0 <= i < |plan.waiting| ==> plan.waiting[i].status == Waiting
      requires st.running == StillRunning(values) && st.swapped == plan.swapped && st.preempted == plan.preempted && st.waiting == plan.waiting
      ensures KeysAre(seqs.Keys, Ids(Begin(st)))
    {
      hide All, Mirror, BlockManager.Valid, WaitingQueue.Valid, WaitingQueue.Queue, StillRunning, Total, NoneHas,
        Updating, KeysAre, Apart, Ids;
      IdleConcat(st.running, []);
      assert Seqs([]) == [];
      forall id ensures id in seqs.Keys <==> id in Ids(Begin(st)) {
        HandApart(Begin(st), id);
        HandApart(plan, id);
        KnownBefore(id);
        StillKnown(values, id);
        assert Seqs(Begin(st).items) + Seqs(Begin(st).todo) == StillRunning(values);
        OneApart(Begin(st), id);
      }
      AllKeysAre(seqs.Keys, Ids(Begin(st)));
    }

    lemma {:induction false} KnownBefore(id: int)
      requires KeysAre(book.seqs.Keys, Ids(plan))
      ensures id in book.seqs <==> id in Ids(plan)
    {
      hide Ids;
      assert id in book.seqs <==> id in book.seqs.Keys;
    }

    /** Who is known after the results have been taken. */
    lemma {:induction false} StillKnown(values: seq<Seq>, id: int)
      requires Updating(values) && plan.todo == [] && |values| == |plan.items| && (id in book.seqs <==> !Apart(plan, id))
      requires forall i :: 0 <= i < |values| ==> values[i].id == plan.items[i].s.id && (values[i].status == Running || values[i].status == Finished)
      requires forall i :: 0 <= i < |plan.swapped| ==> plan.swapped[i].status == Preempted
      requires forall i :: 0 <= i < |plan.preempted| ==> plan.preempted[i].status == Preempted
      requires forall i :: 0 <= i < |plan.waiting| ==> plan.waiting[i].status == Waiting
      ensures id !in seqs <==> NoneHas(StillRunning(values), id) && NoneHas(plan.swapped, id) && NoneHas(plan.preempted, id) && NoneHas(plan.waiting, id)
    {
      hide All, BlockManager.Valid, WaitingQueue.Valid, WaitingQueue.Queue, StillRunning;
      StillRunningIds(values, id);
      AllKeys(book);
      assert Seqs(plan.todo) == [];
      var before := Seqs(plan.items) + Seqs(plan.todo);
      assert forall i :: 0 <= i < |before| ==> before[i] == plan.items[i].s;
      MirrorSays(book, running, values, id);
      MirrorSays(book, swapped, plan.swapped, id);
      MirrorSays(book, preempted, plan.preempted, id);
      MirrorSays(book, waiting.Queue(), plan.waiting, id);
      if !NoneHas(before, id) {
        var i :| 0 <= i < |before| && before[i].id == id;
        assert values[i].id == id && values[i] in values;
      }
    }

    /** Leaving the finished out, the lists stand for the new state's. */
    lemma {:induction false} Settled(values: seq<Seq>, st: State)
      requires Updating(values)
      requires forall i :: 0 <= i < |plan.swapped| ==> plan.swapped[i].status == Preempted
      requires forall i :: 0 <= i < |plan.preempted| ==> plan.preempted[i].status == Preempted
      requires forall i :: 0 <= i < |plan.waiting| ==> plan.waiting[i].status == Waiting
      requires st.running == StillRunning(values)
      requires st.swapped == plan.swapped && st.preempted == plan.preempted && st.waiting == plan.waiting
      ensures |running| == |values| && forall i :: 0 <= i < |running| ==> running[i].status == values[i].status
      ensures All(Trimmed(book, seqs)) && Placed(Trimmed(book, seqs), Selected(running, values), swapped, preempted, waiting.Queue(), Begin(st))
      ensures cfg.blockSize > 0 && bm.cfg == cfg && waiting.cfg == cfg && this !in book.objs && bm !in book.objs && waiting !in book.objs
      ensures bm.Valid() && waiting.Valid() && book.decode == cfg.serving.decode
    {
      hide All, Mirror, BlockManager.Valid, WaitingQueue.Valid, WaitingQueue.Queue, StillRunning, Selected, LivePart, Stands;
      var l := book;
      Statuses(values);
      SelectedStands(l, running, values);
      AllTrimmed(l, seqs);
      StillRunningMembers(values);
      IdleConcat(st.running, []);
      assert Seqs([]) == [] && st.running + [] == st.running;
      assert forall i :: 0 <= i < |st.running| ==> st.running[i] in st.running;
      MirrorTrimmed(l, seqs, Selected(running, values), st.running);
      MirrorTrimmed(l, seqs, swapped, st.swapped);
      MirrorTrimmed(l, seqs, preempted, st.preempted);
      MirrorTrimmed(l, seqs, waiting.Queue(), st.waiting);
    }

    /** A new state takes the place of the plan. */
    method Conclude(ghost values: seq<Seq>, anyFinished: bool, ghost st: State)
      requires Updating(values) && (!anyFinished ==> forall i :: 0 <= i < |values| ==> values[i].status == Running)
      requires forall i :: 0 <= i < |plan.swapped| ==> plan.swapped[i].status == Preempted
      requires forall i :: 0 <= i < |plan.preempted| ==> plan.preempted[i].status == Preempted
      requires forall i :: 0 <= i < |plan.waiting| ==> plan.waiting[i].status == Waiting
      requires st.pool == bm.View() && st.running == StillRunning(values)
      requires st.swapped == plan.swapped && st.preempted == plan.preempted && st.waiting == plan.waiting
      requires StateOk(cfg, st) && KeysAre(seqs.Keys, Ids(Begin(st)))
      modifies this`running, this`book, this`plan, this`outputs
      ensures Coupled() && plan == Begin(st) && book.objs == old(book.objs)
    {
      hide All, Mirror, BlockManager.Valid, WaitingQueue.Valid, WaitingQueue.Queue, Updating, StillRunning, KeysAre,
        Ids, MidOk, Selected, LivePart, Placed, BlockManager.View, Idle;
      Settled(values, st);
      if anyFinished {
        running := KeepRunning(running, values);
      } else {
        AllSelected(running, values);
      }
      outputs, plan, book := [], Begin(st), Trimmed(book, seqs);
    }

    // --- between steps -------------------------------------------------------------------------------------------------

    method HasWork() returns (work: bool)
      requires Coupled() && plan == Begin(View())
      ensures work == Scheduling.HasWork(View())
    {
      hide All, BlockManager.Valid, WaitingQueue.Valid, WaitingQueue.Queue, MidOk, KeysAre, Placed;
      PlacedPop(book, running, swapped, preempted, waiting.Queue(), plan);
      var noneWaiting := waiting.IsEmpty();
      work := running != [] || swapped != [] || preempted != [] || !noneWaiting;
    }

    /** Hand out the results of failures when nothing else happens this step. */
    method TakeOutputs() returns (taken: seq<Output>)
      requires Coupled() && plan.todo == [] && Batch(plan.items) == []
      modifies this`outputs, this`plan
      ensures taken == old(plan).outputs && Coupled() && plan == Begin(View()) && View() == old(View())
    {
      hide All, BlockManager.Valid, WaitingQueue.Valid, WaitingQueue.Queue, KeysAre, Ids, BlockPool.Valid, CpuValid,
        ItemsOk, TodosOk, QueuesOk, Unique, Placed, Batch;
      ghost var m := plan;
      BatchEmptyIdle(m.items);
      assert Idle(Seqs(m.items)) == m.items;
      SameLists(book, running, swapped, preempted, waiting.Queue(), m, Begin(View()));
      taken, outputs := outputs, [];
      plan := Begin(View());
    }

    static lemma {:induction false} SameLists(l: Ledger, running: seq<Sequence>, swapped: seq<Sequence>,
                                              preempted: seq<Sequence>, queue: seq<Sequence>, m: Mid, m': Mid)
      requires Placed(l, running, swapped, preempted, queue, m)
      requires m'.items == m.items && m'.todo == m.todo && m'.swapped == m.swapped && m'.preempted == m.preempted && m'.waiting == m.waiting
      ensures Placed(l, running, swapped, preempted, queue, m') && Ids(m') == Ids(m)
    {
    }

    // --- requests ------------------------------------------------------------------------------------------------------

    /** The ids known are those a lookup in the state finds. */
    lemma {:induction false} KnownIsFound(id: int)
      requires Coupled() && plan == Begin(View())
      ensures id in seqs <==> FindId(LiveSeqs(View()), id).Some?
    {
      hide All, BlockManager.Valid, WaitingQueue.Valid, WaitingQueue.Queue, MidOk, Placed, Ids, Total;
      var st := View();
      BeginIds(st);
      Found(LiveSeqs(st), id);
      TotalConcat(st.running, st.swapped, IdOf);
      TotalConcat(st.running + st.swapped, st.preempted, IdOf);
      TotalConcat(st.running + st.swapped + st.preempted, st.waiting, IdOf);
      assert id in seqs <==> id in seqs.Keys;
    }

    /** A request waits only if it is known. */
    lemma {:induction false} QueueKnown(id: int)
      requires Coupled()
      ensures id in waiting.live ==> id in seqs
    {
      hide All, BlockManager.Valid, MidOk, KeysAre, Ids;
      if id in waiting.live {
        var i :| 0 <= i < |waiting.heap| && waiting.heap[i].s == waiting.live[id];
        LiveFound(waiting.heap, waiting.live, i);
        var q := waiting.Queue();
        var j :| 0 <= j < |q| && q[j] == waiting.live[id];
        assert Stands(book, q[j], plan.waiting[j]);
      }
    }

    static lemma {:induction false} StillParked(cfg: Config, v: Seq)
      requires cfg.blockSize > 0 && ParkedOk(cfg, v, Waiting)
      ensures v.status == Waiting
    {
    }

    lemma {:induction false} Foreign(s: Sequence)
      ensures this !in ObjectsOf(s) && bm !in ObjectsOf(s) && waiting !in ObjectsOf(s)
    {
    }

    static lemma {:induction false} NewKeys(cfg: Config, st: State, v: Seq, keys: set<int>)
      requires KeysAre(keys, Ids(Begin(st)))
      ensures KeysAre(keys + {v.id}, Ids(Begin(st.(waiting := Enqueue(cfg, st.waiting, v)))))
    {
      BeginIds(st);
      BeginIds(st.(waiting := Enqueue(cfg, st.waiting, v)));
      EnqueueTotal(cfg, st.waiting, v, IdOf);
      hide Ids, Total, Enqueue;
    }

    /** Queue a request whose id is not in use. */
    method Enroll(s: Sequence, ghost v: Seq)
      requires Coupled() && plan == Begin(View()) && s.Is(v, cfg.serving.decode) && ParkedOk(cfg, v, Waiting)
      requires !Holds(waiting.heap, s) && s !in book.objs && (s.detokenizer != null ==> s.detokenizer !in book.objs)
      requires s.id !in seqs && FindId(LiveSeqs(View()), s.id).None?
      modifies this`seqs, this`book, this`plan, waiting, s`status
      ensures Coupled() && plan == Begin(View()) && View() == old(View()).(waiting := Enqueue(cfg, old(View()).waiting, v))
      ensures book.objs == old(book.objs) + ObjectsOf(s)
    {
      hide All, BlockManager.Valid, WaitingQueue.Valid, WaitingQueue.Queue, MidOk, Placed, KeysAre, Ids, ParkedOk, EnqueueSeq,
        Enqueue, Holds, Sequence.Is, Fixed, BlockManager.View, ObjectsOf, Entered, Acceptable, FindId, LiveSeqs;
      ghost var l, st := book, View();
      ghost var st' := st.(waiting := Enqueue(cfg, st.waiting, v));
      Foreign(s);
      QueueKnown(s.id);
      IsFixed(s, v, cfg.serving.decode);
      StillParked(cfg, v);
      AddStateOk(cfg, st, v);
      NewKeys(cfg, st, v, seqs.Keys);
      PlacedNew(cfg, l, ObjectsOf(s), running, swapped, preempted, waiting.Queue(), st, s, v);
      Handling.Enlist(s, v, cfg.serving.decode);
      assert All(l) && s.Is(v, l.decode);
      seqs := seqs[s.id := s];
      assert All(l) && s.Is(v, l.decode);
      waiting.Push(s);
      assert All(l) && s.Is(v, l.decode);
      book := Entered(l, ObjectsOf(s), s, v);
      plan := Begin(st');
      IdleConcat(st.running, []);
      assert seqs.Keys == old(seqs).Keys + {s.id};
      AllNew(l, s, v);
    }

    /** Queue a new request; an id in use is refused. */
    method Add(s: Sequence, ghost v: Seq) returns (ok: bool)
      requires Coupled() && plan == Begin(View()) && s.Is(v, cfg.serving.decode) && ParkedOk(cfg, v, Waiting)
      requires !Holds(waiting.heap, s) && s !in book.objs && (s.detokenizer != null ==> s.detokenizer !in book.objs)
      modifies this`seqs, this`book, this`plan, waiting, s`status
      ensures ok == FindId(LiveSeqs(old(View())), s.id).None?
      ensures Coupled() && plan == Begin(View())
      ensures View() == if ok then old(View()).(waiting := Enqueue(cfg, old(View()).waiting, v)) else old(View())
      ensures book.objs == if ok then old(book.objs) + ObjectsOf(s) else old(book.objs)
    {
      hide Scheduler.Coupled, ParkedOk, Enqueue, Holds, Sequence.Is, ObjectsOf, FindId, LiveSeqs;
      KnownIsFound(s.id);
      ok := s.id !in seqs;
      if ok {
        Enroll(s, v);
      }
    }

    /** What a known id stands for is what a lookup in the state finds. */
    lemma {:induction false} FoundIs(id: int)
      requires Coupled() && plan == Begin(View()) && id in seqs
      ensures FindId(LiveSeqs(View()), id) == Some(book.vals[id]) && id in book.vals && book.vals[id].id == id
      ensures seqs[id].id == id && seqs[id] in book.objs && seqs[id].Is(book.vals[id], cfg.serving.decode)
    {
      hide BlockManager.Valid, WaitingQueue.Valid, WaitingQueue.Queue, MidOk, KeysAre, Mirror, LiveSeqs;
      KnownIsFound(id);
      AllHas(book, seqs[id]);
      var st := View();
      IdleConcat(st.running, []);
      assert Seqs([]) == [] && st.running + [] == st.running;
      MirrorLength(book, running, st.running);
      MirrorLength(book, swapped, st.swapped);
      MirrorLength(book, preempted, st.preempted);
      MirrorLength(book, waiting.Queue(), st.waiting);
      MirrorConcat(book, running, swapped, st.running, st.swapped);
      MirrorConcat(book, running + swapped, preempted, st.running + st.swapped, st.preempted);
      MirrorConcat(book, running + swapped + preempted, waiting.Queue(), st.running + st.swapped + st.preempted, st.waiting);
      LiveAre(st);
      var all := running + swapped + preempted + waiting.Queue();
      MirrorSays(book, all, LiveSeqs(st), id);
      DropMembers(LiveSeqs(st), id);
    }

    static lemma {:induction false} LiveAre(st: State)
      ensures LiveSeqs(st) == st.running + st.swapped + st.preempted + st.waiting
    {
    }

    /** A request is taken off its list, as its own state says which. */
    method TakeOff(s: Sequence, ghost v: Seq)
      requires Coupled() && plan == Begin(View()) && s.id in seqs && seqs[s.id] == s && s in book.objs
      requires FindId(LiveSeqs(View()), s.id) == Some(v) && s.id in book.vals && book.vals[s.id] == v && v.id == s.id && s.Is(v, cfg.serving.decode)
      modifies this`running, this`swapped, this`preempted, this`plan, waiting`live
      ensures InHand(s) && plan == Begin(WithoutIt(old(View()), v))
      ensures (v.status == Running ==> v.cpuTable == []) && (v.status != Running ==> v.table == [])
    {
      hide OkBut, MidOk, All, Placed, Apart, KeysAre, Ids, BlockManager.Valid, WaitingQueue.Valid,
        WaitingQueue.Queue, BlockManager.View, OnlyChanges, Stands, Fixed, FindId, LiveSeqs, WithoutIt, DropSeq;
      ghost var st := View();
      TakenTables(cfg, st, s.id);
      TakeAborted(cfg, st, s.id);
      WithoutKeeps(st, v);
      PlacedWithout(book, running, swapped, preempted, waiting.Queue(), st, s, v);
      QueueHolds(s, v);
      if s.status == Running {
        running := Without(running, s);
      } else if s.cpuBlockTable != [] {
        swapped := Without(swapped, s);
      } else if s.status == Preempted {
        preempted := Without(preempted, s);
      } else {
        var removed := waiting.Remove(s.id);
      }
      plan := Begin(WithoutIt(st, v));
    }

    static lemma {:induction false} WithoutKeeps(st: State, v: Seq)
      ensures WithoutIt(st, v).pool == st.pool
    {
      hide DropId;
    }

    /** A request that is not running, swapped or preempted waits. */
    lemma {:induction false} QueueHolds(s: Sequence, v: Seq)
      requires Coupled() && plan == Begin(View()) && s.id in seqs && seqs[s.id] == s && v.id == s.id
      requires FindId(LiveSeqs(View()), s.id) == Some(v)
      ensures v.status != Running && v.cpuTable == [] && v.status != Preempted ==> s.id in waiting.live
    {
      hide All, BlockManager.Valid, MidOk, KeysAre, Ids;
      AbortDispatch(cfg, View(), s.id);
      if v.status != Running && v.cpuTable == [] && v.status != Preempted {
        DropMembers(plan.waiting, s.id);
        var i :| 0 <= i < |plan.waiting| && plan.waiting[i] == v;
        var q := waiting.Queue();
        assert Stands(book, q[i], plan.waiting[i]);
        assert q[i] in q;
      }
    }

    /** A request in hand leaves for good; nobody is told. */
    method Discard(s: Sequence, ghost st: State)
      requires InHand(s) && s in book.objs && plan.todo == []
      requires var v := book.vals[s.id]; (v.status == Running ==> v.cpuTable == []) && (v.status != Running ==> v.table == [])
      requires st == State(Handling.PoolWithout(plan.pool, book.vals[s.id]), Seqs(plan.items), plan.swapped, plan.preempted, plan.waiting, st.retired)
      requires plan.items == Idle(Seqs(plan.items)) && outputs == []
      modifies this`seqs, this`book, this`plan, bm, s
      ensures Coupled() && plan == Begin(st) && book.objs == old(book.objs)
    {
      hide OkBut, MidOk, All, Placed, Apart, KeysAre, Ids, BlockManager.Valid, WaitingQueue.Valid,
        WaitingQueue.Queue, BlockManager.View, OnlyChanges,
        Sequence.Is, Stands, Fixed, Handling.PoolWithout, Handling.Discarded, Scheduling.Fail;
      ghost var v, m, l := book.vals[s.id], plan, book;
      AllHas(l, s);
      HandIsApart(cfg, m, v);
      HandBlocks(cfg, m, v, bm);
      FailOk(cfg, m, v);
      FailLists(m, v);
      SettledAbort(cfg, m, v, st);
      PlacedChange(l, running, swapped, preempted, waiting.Queue(), m, Begin(st), s.id, v);
      KeysWithout(seqs.Keys, Ids(m), s.id);
      Handling.Discard(bm, s, v, cfg.serving.decode);
      AllBut(l, s, Handling.Discarded(v));
      seqs := seqs - {s.id};
      assert seqs.Keys == old(seqs).Keys - {s.id};
      book, plan := Struck(l, s.id), Begin(st);
    }

    static lemma {:induction false} SettledAbort(cfg: Config, m: Mid, v: Seq, st: State)
      requires cfg.blockSize > 0 && MidOk(cfg, Scheduling.Fail(m, v)) && m.todo == [] && m.items == Idle(Seqs(m.items))
      requires st == State(Handling.PoolWithout(m.pool, v), Seqs(m.items), m.swapped, m.preempted, m.waiting, st.retired)
      ensures MidOk(cfg, Begin(st)) && Ids(Begin(st)) == Ids(m)
      ensures Begin(st).items == m.items && Begin(st).todo == []
    {
      hide BlockPool.Valid, CpuValid, ItemsOk, TodosOk, QueuesOk, Unique, Total, Handling.PoolWithout;
      FailLists(m, v);
    }

    /** Take a request out wherever it stands, and give back what it holds. Other ids are ignored. */
    method Abort(id: int) returns (known: bool)
      requires Coupled() && plan == Begin(View())
      modifies this`running, this`swapped, this`preempted, this`seqs, this`book, this`plan, bm, waiting, book.objs
      ensures known == FindId(LiveSeqs(old(View())), id).Some?
      ensures Coupled() && plan == Begin(View()) && book.objs == old(book.objs)
      ensures forall mem :: Engine(View(), mem) == AbortRequest(Engine(old(View()), mem), id)
    {
      hide All, BlockManager.Valid, WaitingQueue.Valid, WaitingQueue.Queue, MidOk, Placed, KeysAre, Ids, FindId,
        LiveSeqs, AbortRequest, WithoutIt, OkBut, Handling.PoolWithout;
      ghost var st := View();
      KnownIsFound(id);
      if id !in seqs {
        NotThere(st, id);
        return false;
      }
      var s := seqs[id];
      FoundIs(id);
      ghost var v := book.vals[id];
      AbortIs(cfg, st, id);
      TakeOff(s, v);
      ghost var st' := AbortRequest(Engine(st, Mem([], [])), id).st;
      Discard(s, st');
      return true;
    }

    static lemma {:induction false} NotThere(st: State, id: int)
      requires FindId(LiveSeqs(st), id).None?
      ensures forall mem :: AbortRequest(Engine(st, mem), id) == Engine(st, mem)
    {
      hide FindId, LiveSeqs;
    }

    /** An abort in terms of the request taken off its list. */
    static lemma {:induction false} AbortIs(cfg: Config, st: State, id: int)
      requires cfg.blockSize > 0 && StateOk(cfg, st) && FindId(LiveSeqs(st), id).Some?
      ensures var v := FindId(LiveSeqs(st), id).value;
        var m, st' := Begin(WithoutIt(st, v)), AbortRequest(Engine(st, Mem([], [])), id).st;
        && m.todo == [] && m.items == Idle(Seqs(m.items))
        && st' == State(Handling.PoolWithout(m.pool, v), Seqs(m.items), m.swapped, m.preempted, m.waiting, st'.retired)
        && (forall mem :: AbortRequest(Engine(st, mem), id) == Engine(st', mem))
    {
      AbortPool(cfg, st, id);
      hide FindId, LiveSeqs, DropId, StateOk, Handling.PoolWithout;
      var v := FindId(LiveSeqs(st), id).value;
      FailLists(Begin(WithoutIt(st, v)), v);
      IdleConcat(WithoutIt(st, v).running, []);
    }

    /** What the batch's objects hold is what the batch of the plan says. */
    lemma {:induction false} BatchCarries(batch: ScheduledBatch)
      requires Coupled() && Batched(batch) && plan.todo == []
      ensures Carries(batch.seqs, batch.numNewTokens, Batch(plan.items))
      ensures |batch.doSample| == |Batch(plan.items)| && forall k :: 0 <= k < |batch.doSample| ==> batch.doSample[k] == Samples(Batch(plan.items)[k])
      ensures batch.swapOut == plan.swapOut && batch.swapIn == plan.swapIn
    {
      hide All, BlockManager.Valid, WaitingQueue.Valid, WaitingQueue.Queue, MidOk, KeysAre, Batch, Chosen, Samples, Stands;
      assert Seqs(plan.todo) == [];
      assert Seqs(plan.items) + Seqs(plan.todo) == Seqs(plan.items);
      assert running[..|plan.items|] == running;
      forall k | 0 <= k < |batch.seqs|
        ensures batch.seqs[k].tokenIds == Batch(plan.items)[k].s.gen.tokens && batch.seqs[k].blockTable == Batch(plan.items)[k].s.table
        ensures batch.seqs[k].numComputedTokens == Batch(plan.items)[k].s.computed
      {
        var i := ItemOfBatch(plan.items, k);
        ChosenAt(running, plan.items, i);
        MirrorAt(book, running, Seqs(plan.items), i);
        KnownStands(book, running[i], plan.items[i].s);
        Holds1(running[i], plan.items[i].s);
      }
    }

    lemma {:induction false} Holds1(s: Sequence, v: Seq)
      requires s.Is(v, cfg.serving.decode)
      ensures s.tokenIds == v.gen.tokens && s.blockTable == v.table && s.numComputedTokens == v.computed
    {
    }
  }
}
