// The scheduler's structural invariant, kept by every single decision a step is made of.
module Planning {
  import opened Basics
  import opened Paging
  import opened BlockPool
  import opened Streaming
  import opened Scheduling
  import opened Accounting

  // --- totals over a list of sequences -----------------------------------------------------------------

  function TableOf(s: Seq): multiset<Block> { multiset(s.table) }
  function HostsOf(s: Seq): multiset<Block> { multiset(s.cpuTable) }
  function IdOf(s: Seq): multiset<int> { multiset{s.id} }

  ghost function Total<T>(seqs: seq<Seq>, f: Seq -> multiset<T>): multiset<T> {
    if seqs == [] then multiset{} else f(seqs[0]) + Total(seqs[1..], f)
  }

  lemma {:induction false} TotalConcat<T>(a: seq<Seq>, b: seq<Seq>, f: Seq -> multiset<T>)
    ensures Total(a + b, f) == Total(a, f) + Total(b, f)
  {
    if a == [] {
      assert a + b == b;
    } else {
      assert (a + b)[1..] == a[1..] + b;
      TotalConcat(a[1..], b, f);
    }
  }

  lemma {:induction false} TotalSnoc<T>(a: seq<Seq>, s: Seq, f: Seq -> multiset<T>)
    ensures Total(a + [s], f) == Total(a, f) + f(s)
  {
    TotalConcat(a, [s], f);
    assert Total([s], f) == f(s) + Total([], f);
  }

  lemma {:induction false} TotalHas<T>(seqs: seq<Seq>, i: nat, f: Seq -> multiset<T>)
    requires i < |seqs|
    ensures f(seqs[i]) <= Total(seqs, f)
  {
    if i > 0 {
      TotalHas(seqs[1..], i - 1, f);
    }
  }

  /** Cutting the first or the last element off. */
  lemma {:induction false} TotalEnds<T>(seqs: seq<Seq>, f: Seq -> multiset<T>)
    requires seqs != []
    ensures Total(seqs, f) == f(seqs[0]) + Total(seqs[1..], f)
    ensures Total(seqs, f) == Total(seqs[..|seqs| - 1], f) + f(seqs[|seqs| - 1])
  {
    TotalSnoc(seqs[..|seqs| - 1], seqs[|seqs| - 1], f);
    assert seqs[..|seqs| - 1] + [seqs[|seqs| - 1]] == seqs;
  }

  lemma {:induction false} SeqsSnoc(items: seq<Item>, it: Item)
    ensures Seqs(items + [it]) == Seqs(items) + [it.s]
  {
  }

  lemma {:induction false} SeqsCuts(items: seq<Item>)
    requires items != []
    ensures Seqs(items)[1..] == Seqs(items[1..])
    ensures Seqs(items)[..|items| - 1] == Seqs(items[..|items| - 1])
  {
  }

  // --- the invariant -------------------------------------------------------------------------------------

  ghost predicate ItemOk(cfg: Config, p: Pool, it: Item)
    requires cfg.blockSize > 0
  {
    && RequestOk(cfg, it.s) && RunOk(cfg, p, it.s, it.n)
    && it.s.computed < NumTokens(it.s) && 1 <= it.s.computed + it.n
  }

  ghost predicate TodoOk(cfg: Config, p: Pool, it: Item)
    requires cfg.blockSize > 0
  {
    && RequestOk(cfg, it.s) && RunOk(cfg, p, it.s, 0)
    && 1 <= it.s.computed < NumTokens(it.s) && it.s.computed + it.n <= NumTokens(it.s)
  }

  ghost predicate SwappedOk(cfg: Config, s: Seq)
    requires cfg.blockSize > 0
  {
    && RequestOk(cfg, s) && s.status == Preempted && s.table == [] && s.registered == 0
    && 1 <= s.computed < NumTokens(s) && |s.cpuTable| == BlocksFor(cfg.blockSize, s.computed)
  }

  ghost predicate ParkedOk(cfg: Config, s: Seq, status: Status)
    requires cfg.blockSize > 0
  {
    && RequestOk(cfg, s) && s.status == status
    && s.table == [] && s.cpuTable == [] && s.registered == 0 && s.computed == 0
    && (status == Waiting ==> NumOutput(s.gen) == 0)
  }

  ghost predicate ItemsOk(cfg: Config, p: Pool, items: seq<Item>)
    requires cfg.blockSize > 0
  {
    forall i :: 0 <= i < |items| ==> ItemOk(cfg, p, items[i])
  }

  ghost predicate TodosOk(cfg: Config, p: Pool, todo: seq<Item>)
    requires cfg.blockSize > 0
  {
    forall i :: 0 <= i < |todo| ==> TodoOk(cfg, p, todo[i])
  }

  /** The sequences that hold no GPU block. */
  ghost predicate QueuesOk(cfg: Config, swapped: seq<Seq>, preempted: seq<Seq>, waiting: seq<Seq>)
    requires cfg.blockSize > 0
  {
    && (forall i :: 0 <= i < |swapped| ==> SwappedOk(cfg, swapped[i]))
    && (forall i :: 0 <= i < |preempted| ==> ParkedOk(cfg, preempted[i], Preempted))
    && (forall i :: 0 <= i < |waiting| ==> ParkedOk(cfg, waiting[i], Waiting))
  }

  ghost function Held(items: seq<Item>, todo: seq<Item>): multiset<Block> {
    Total(Seqs(items), TableOf) + Total(Seqs(todo), TableOf)
  }

  ghost function Ids(m: Mid): multiset<int> {
    Total(Seqs(m.items), IdOf) + Total(Seqs(m.todo), IdOf)
    + Total(m.swapped, IdOf) + Total(m.preempted, IdOf) + Total(m.waiting, IdOf)
  }

  ghost predicate Unique(ids: multiset<int>) {
    forall id :: ids[id] <= 1
  }

  ghost predicate MidOk(cfg: Config, m: Mid)
    requires cfg.blockSize > 0
  {
    && Valid(cfg.numBlocks, m.pool, Held(m.items, m.todo))
    && CpuValid(cfg.numCpuBlocks, m.pool.cpuFree, Total(m.swapped, HostsOf))
    && Unique(Ids(m))
    && ItemsOk(cfg, m.pool, m.items) && TodosOk(cfg, m.pool, m.todo)
    && QueuesOk(cfg, m.swapped, m.preempted, m.waiting)
    && |m.items| + |m.todo| <= cfg.maxNumSeqs
  }

  // --- what stays untouched ----------------------------------------------------------------------------

  lemma {:induction false} ItemsKept(cfg: Config, p: Pool, q: Pool, held: multiset<Block>, items: seq<Item>)
    requires cfg.blockSize > 0 && ItemsOk(cfg, p, items) && KeepsHash(p, q, held)
    requires Total(Seqs(items), TableOf) <= held
    ensures ItemsOk(cfg, q, items)
  {
    hide KeepsHash, RunOk, RequestOk, Total;
    forall i | 0 <= i < |items| ensures ItemOk(cfg, q, items[i]) {
      TotalHas(Seqs(items), i, TableOf);
      assert ItemOk(cfg, p, items[i]);
      RunOkKept(cfg, p, q, held, items[i].s, items[i].n);
    }
  }

  lemma {:induction false} TodosKept(cfg: Config, p: Pool, q: Pool, held: multiset<Block>, todo: seq<Item>)
    requires cfg.blockSize > 0 && TodosOk(cfg, p, todo) && KeepsHash(p, q, held)
    requires Total(Seqs(todo), TableOf) <= held
    ensures TodosOk(cfg, q, todo)
  {
    hide KeepsHash, RunOk, RequestOk, Total;
    forall i | 0 <= i < |todo| ensures TodoOk(cfg, q, todo[i]) {
      TotalHas(Seqs(todo), i, TableOf);
      assert TodoOk(cfg, p, todo[i]);
      RunOkKept(cfg, p, q, held, todo[i].s, 0);
    }
  }

  /** Both halves of the running list survive a change that keeps the hashes of the blocks held. */
  lemma {:induction false} RunningKept(cfg: Config, p: Pool, q: Pool, items: seq<Item>, todo: seq<Item>)
    requires cfg.blockSize > 0 && ItemsOk(cfg, p, items) && TodosOk(cfg, p, todo)
    requires KeepsHash(p, q, Held(items, todo))
    ensures ItemsOk(cfg, q, items) && TodosOk(cfg, q, todo)
  {
    hide KeepsHash, ItemsOk, TodosOk, Total;
    ItemsKept(cfg, p, q, Held(items, todo), items);
    TodosKept(cfg, p, q, Held(items, todo), todo);
  }

  lemma {:induction false} ItemsSnoc(cfg: Config, p: Pool, items: seq<Item>, it: Item)
    requires cfg.blockSize > 0 && ItemsOk(cfg, p, items) && ItemOk(cfg, p, it)
    ensures ItemsOk(cfg, p, items + [it])
  {
    hide ItemOk;
  }

  lemma {:induction false} TodosCut(cfg: Config, p: Pool, todo: seq<Item>)
    requires cfg.blockSize > 0 && todo != [] && TodosOk(cfg, p, todo)
    ensures TodosOk(cfg, p, todo[1..]) && TodosOk(cfg, p, todo[..|todo| - 1])
    ensures TodoOk(cfg, p, todo[0]) && TodoOk(cfg, p, todo[|todo| - 1])
  {
    hide TodoOk;
  }

  /** The head of the queue moves from one half of a total to the other. */
  lemma {:induction false} HeadMoves<T>(items: seq<Item>, todo: seq<Item>, it: Item, f: Seq -> multiset<T>)
    requires todo != []
    ensures Total(Seqs(items), f) + Total(Seqs(todo), f)
         == Total(Seqs(items), f) + Total(Seqs(todo[1..]), f) + f(todo[0].s)
    ensures Total(Seqs(items + [it]), f) == Total(Seqs(items), f) + f(it.s)
    ensures Total(Seqs(todo), f) == Total(Seqs(todo[..|todo| - 1]), f) + f(todo[|todo| - 1].s)
  {
    SeqsSnoc(items, it);
    TotalSnoc(Seqs(items), it.s, f);
    SeqsCuts(todo);
    TotalEnds(Seqs(todo), f);
  }

  lemma {:induction false} FewerUnique(a: multiset<int>, b: multiset<int>)
    requires Unique(a) && b <= a
    ensures Unique(b)
  {
    forall id ensures b[id] <= 1 {
      assert b[id] <= a[id];
    }
  }

  // --- the decisions of the running pass ---------------------------------------------------------------

  lemma {:induction false} SkipHeadOk(cfg: Config, m: Mid)
    requires cfg.blockSize > 0 && m.todo != [] && MidOk(cfg, m)
    ensures MidOk(cfg, SkipHead(m)) && Ids(SkipHead(m)) == Ids(m)
  {
    hide Valid, CpuValid, ItemsOk, TodosOk, QueuesOk, Unique, Total, RunOk, RequestOk;
    var it := Item(m.todo[0].s, 0);
    HeadMoves(m.items, m.todo, it, TableOf);
    HeadMoves(m.items, m.todo, it, IdOf);
    TodosCut(cfg, m.pool, m.todo);
    ItemsSnoc(cfg, m.pool, m.items, it);
    assert Held(m.items + [it], m.todo[1..]) == Held(m.items, m.todo);
    assert Ids(SkipHead(m)) == Ids(m);
  }

  lemma {:induction false} AppendHeadOk(cfg: Config, m: Mid)
    requires cfg.blockSize > 0 && m.todo != [] && MidOk(cfg, m)
    requires m.todo[0].n > 0 && CanAppend(cfg, m.pool, m.todo[0].s, m.todo[0].n)
    ensures MidOk(cfg, AppendHead(cfg, m)) && Ids(AppendHead(cfg, m)) == Ids(m)
  {
    hide Valid, CpuValid, ItemsOk, TodosOk, QueuesOk, Unique, Total, RequestOk, CanAppend, AppendSlots, TableOk,
      BlocksFor, KeepsHash;
    var Item(s, n) := m.todo[0];
    var (q, s') := AppendSlots(cfg, m.pool, s, n);
    var it := Item(s', n);
    var others := Held(m.items, m.todo[1..]);
    HeadMoves(m.items, m.todo, it, TableOf);
    HeadMoves(m.items, m.todo, it, IdOf);
    TodosCut(cfg, m.pool, m.todo);
    assert Held(m.items, m.todo) == others + multiset(s.table);
    assert Held(m.items + [it], m.todo[1..]) == others + multiset(s'.table);
    BlocksForMono(cfg.blockSize, s.computed, s.computed + n);
    AppendSlotsValid(cfg, m.pool, others, s, n);
    AppendSlotsRunOk(cfg, m.pool, others, s, n);
    KeepsFewer(m.pool, q, others, multiset(s.table));
    RunningKept(cfg, m.pool, q, m.items, m.todo[1..]);
    assert s'.(status := Running) == s';
    SameRequestOk(cfg, s, s');
    ItemsSnoc(cfg, q, m.items, it);
    assert Ids(AppendHead(cfg, m)) == Ids(m);
  }

  lemma {:induction false} KeepsFewer(p: Pool, q: Pool, held: multiset<Block>, more: multiset<Block>)
    requires KeepsHash(p, q, held + more)
    ensures KeepsHash(p, q, held)
  {
  }

  lemma {:induction false} SameRequestOk(cfg: Config, s: Seq, t: Seq)
    requires cfg.blockSize > 0 && RequestOk(cfg, s) && t.gen == s.gen && t.params == s.params && t.hashes == s.hashes
    ensures RequestOk(cfg, t)
  {
  }

  // --- a sequence in hand --------------------------------------------------------------------------------

  /** The invariant while s has been taken off its queue and still holds its blocks. */
  ghost predicate OkBut(cfg: Config, m: Mid, s: Seq)
    requires cfg.blockSize > 0
  {
    && Valid(cfg.numBlocks, m.pool, Held(m.items, m.todo) + multiset(s.table))
    && CpuValid(cfg.numCpuBlocks, m.pool.cpuFree, Total(m.swapped, HostsOf) + multiset(s.cpuTable))
    && Unique(Ids(m) + multiset{s.id})
    && ItemsOk(cfg, m.pool, m.items) && TodosOk(cfg, m.pool, m.todo)
    && QueuesOk(cfg, m.swapped, m.preempted, m.waiting)
    && |m.items| + |m.todo| <= cfg.maxNumSeqs
  }

  lemma {:induction false} TakeHead(cfg: Config, m: Mid)
    requires cfg.blockSize > 0 && m.todo != [] && MidOk(cfg, m)
    ensures OkBut(cfg, m.(todo := m.todo[1..]), m.todo[0].s)
    ensures TodoOk(cfg, m.pool, m.todo[0])
    ensures Ids(m) == Ids(m.(todo := m.todo[1..])) + multiset{m.todo[0].s.id}
  {
    hide Valid, CpuValid, ItemsOk, TodosOk, QueuesOk, Unique, Total, TodoOk;
    HeadMoves(m.items, m.todo, m.todo[0], TableOf);
    HeadMoves(m.items, m.todo, m.todo[0], IdOf);
    TodosCut(cfg, m.pool, m.todo);
    EmptyTable(cfg, m.pool, m.todo[0]);
    var m1, s := m.(todo := m.todo[1..]), m.todo[0].s;
    assert Held(m1.items, m1.todo) + multiset(s.table) == Held(m.items, m.todo);
    assert Total(m.swapped, HostsOf) + multiset(s.cpuTable) == Total(m.swapped, HostsOf);
    assert Ids(m1) + multiset{s.id} == Ids(m);
  }

  lemma {:induction false} EmptyTable(cfg: Config, p: Pool, it: Item)
    requires cfg.blockSize > 0 && TodoOk(cfg, p, it)
    ensures it.s.cpuTable == []
  {
  }

  lemma {:induction false} TakeNewest(cfg: Config, m: Mid)
    requires cfg.blockSize > 0 && m.todo != [] && MidOk(cfg, m)
    ensures OkBut(cfg, m.(todo := m.todo[..|m.todo| - 1]), m.todo[|m.todo| - 1].s)
    ensures TodoOk(cfg, m.pool, m.todo[|m.todo| - 1])
    ensures Ids(m) == Ids(m.(todo := m.todo[..|m.todo| - 1])) + multiset{m.todo[|m.todo| - 1].s.id}
  {
    hide Valid, CpuValid, ItemsOk, TodosOk, QueuesOk, Unique, Total, TodoOk;
    var last := m.todo[|m.todo| - 1];
    HeadMoves(m.items, m.todo, last, TableOf);
    HeadMoves(m.items, m.todo, last, IdOf);
    TodosCut(cfg, m.pool, m.todo);
    EmptyTable(cfg, m.pool, last);
    var m1, s := m.(todo := m.todo[..|m.todo| - 1]), last.s;
    assert Held(m1.items, m1.todo) + multiset(s.table) == Held(m.items, m.todo);
    assert Total(m.swapped, HostsOf) + multiset(s.cpuTable) == Total(m.swapped, HostsOf);
    assert Ids(m1) + multiset{s.id} == Ids(m);
  }

  lemma {:induction false} SwappedCut(cfg: Config, m: Mid)
    requires cfg.blockSize > 0 && m.swapped != [] && QueuesOk(cfg, m.swapped, m.preempted, m.waiting)
    ensures QueuesOk(cfg, m.swapped[1..], m.preempted, m.waiting) && SwappedOk(cfg, m.swapped[0])
  {
    hide SwappedOk, ParkedOk;
  }

  lemma {:induction false} TakeSwapped(cfg: Config, m: Mid)
    requires cfg.blockSize > 0 && m.swapped != [] && MidOk(cfg, m)
    ensures OkBut(cfg, m.(swapped := m.swapped[1..]), m.swapped[0])
    ensures SwappedOk(cfg, m.swapped[0])
    ensures Ids(m) == Ids(m.(swapped := m.swapped[1..])) + multiset{m.swapped[0].id}
  {
    hide Valid, CpuValid, ItemsOk, TodosOk, Unique, SwappedOk, QueuesOk, Total;
    var m1, s := m.(swapped := m.swapped[1..]), m.swapped[0];
    SwappedCut(cfg, m);
    NoTable(cfg, s);
    TotalEnds(m.swapped, HostsOf);
    TotalEnds(m.swapped, IdOf);
    assert Held(m1.items, m1.todo) + multiset(s.table) == Held(m.items, m.todo);
    assert Ids(m1) + multiset{s.id} == Ids(m);
    assert Total(m1.swapped, HostsOf) + multiset(s.cpuTable) == Total(m.swapped, HostsOf);
  }

  lemma {:induction false} NoTable(cfg: Config, s: Seq)
    requires cfg.blockSize > 0 && SwappedOk(cfg, s)
    ensures s.table == []
  {
  }

  lemma {:induction false} QueuesPop(cfg: Config, m: Mid)
    requires cfg.blockSize > 0 && NextUp(m).Some? && QueuesOk(cfg, m.swapped, m.preempted, m.waiting)
    ensures QueuesOk(cfg, m.swapped, PopNextUp(m).preempted, PopNextUp(m).waiting)
    ensures ParkedOk(cfg, NextUp(m).value, if m.preempted != [] then Preempted else Waiting)
  {
    hide SwappedOk, ParkedOk;
    if m.preempted != [] {
      assert ParkedOk(cfg, m.preempted[0], Preempted);
    } else {
      assert ParkedOk(cfg, m.waiting[0], Waiting);
    }
  }

  lemma {:induction false} TakeNext(cfg: Config, m: Mid)
    requires cfg.blockSize > 0 && NextUp(m).Some? && MidOk(cfg, m)
    ensures OkBut(cfg, PopNextUp(m), NextUp(m).value)
    ensures Ids(m) == Ids(PopNextUp(m)) + multiset{NextUp(m).value.id}
    ensures ParkedOk(cfg, NextUp(m).value, if m.preempted != [] then Preempted else Waiting)
  {
    hide Valid, CpuValid, ItemsOk, TodosOk, Unique, RequestOk, QueuesOk;
    var m1, s := PopNextUp(m), NextUp(m).value;
    QueuesPop(cfg, m);
    assert Held(m1.items, m1.todo) + multiset(s.table) == Held(m.items, m.todo);
    assert Ids(m1) + multiset{s.id} == Ids(m);
    assert Total(m1.swapped, HostsOf) + multiset(s.cpuTable) == Total(m.swapped, HostsOf);
  }

  // --- preempting and failing ----------------------------------------------------------------------------

  lemma {:induction false} SwappedFront(cfg: Config, m: Mid, v: Seq)
    requires cfg.blockSize > 0 && SwappedOk(cfg, v) && QueuesOk(cfg, m.swapped, m.preempted, m.waiting)
    ensures QueuesOk(cfg, [v] + m.swapped, m.preempted, m.waiting)
    ensures Total([v] + m.swapped, HostsOf) == multiset(v.cpuTable) + Total(m.swapped, HostsOf)
    ensures Total([v] + m.swapped, IdOf) == multiset{v.id} + Total(m.swapped, IdOf)
  {
    hide SwappedOk, ParkedOk;
    assert ([v] + m.swapped)[1..] == m.swapped;
  }

  lemma {:induction false} PreemptedFront(cfg: Config, m: Mid, v: Seq)
    requires cfg.blockSize > 0 && ParkedOk(cfg, v, Preempted) && QueuesOk(cfg, m.swapped, m.preempted, m.waiting)
    ensures QueuesOk(cfg, m.swapped, [v] + m.preempted, m.waiting)
    ensures Total([v] + m.preempted, IdOf) == multiset{v.id} + Total(m.preempted, IdOf)
  {
    hide SwappedOk, ParkedOk;
    assert ([v] + m.preempted)[1..] == m.preempted;
  }

  lemma {:induction false} PreemptOk(cfg: Config, m: Mid, it: Item)
    requires cfg.blockSize > 0 && OkBut(cfg, m, it.s) && TodoOk(cfg, m.pool, it)
    ensures MidOk(cfg, Preempt(cfg, m, it.s)) && Ids(Preempt(cfg, m, it.s)) == Ids(m) + multiset{it.s.id}
  {
    hide Valid, CpuValid, ItemsOk, TodosOk, QueuesOk, Unique, Total, RequestOk, SwapOut, FreeSeq, TableOk, BlocksFor, KeepsHash;
    var others := Held(m.items, m.todo);
    var v := it.s.(status := Preempted);
    var m' := Preempt(cfg, m, it.s);
    NoHosts(cfg, m.pool, it.s);
    SameRequestOk(cfg, it.s, v);
    if cfg.swap && CanSwapOut(m.pool, v) {
      var (q, v', copies) := SwapOut(m.pool, v);
      assert Total(m.swapped, HostsOf) + multiset(v.cpuTable) == Total(m.swapped, HostsOf);
      SwapOutValid(cfg, m.pool, others, Total(m.swapped, HostsOf), v);
      SameRequestOk(cfg, v, v');
      SwappedFront(cfg, m, v');
      RunningKept(cfg, m.pool, q, m.items, m.todo);
      assert Total(m.swapped, HostsOf) + multiset(v'.cpuTable) == multiset(v'.cpuTable) + Total(m.swapped, HostsOf);
    } else {
      var (q, v') := FreeSeq(m.pool, v);
      assert Total(m.swapped, HostsOf) + multiset(v.cpuTable) == Total(m.swapped, HostsOf);
      FreeSeqValid(cfg, m.pool, others, v);
      SameRequestOk(cfg, v, v'.(computed := 0));
      PreemptedFront(cfg, m, v'.(computed := 0));
      RunningKept(cfg, m.pool, q, m.items, m.todo);
    }
    assert Ids(m') == Ids(m) + multiset{it.s.id};
  }

  lemma {:induction false} NoHosts(cfg: Config, p: Pool, s: Seq)
    requires cfg.blockSize > 0 && RunOk(cfg, p, s, 0)
    ensures s.cpuTable == []
  {
  }

  lemma {:induction false} PreemptNewestOk(cfg: Config, m: Mid)
    requires cfg.blockSize > 0 && m.todo != [] && MidOk(cfg, m)
    ensures MidOk(cfg, PreemptNewest(cfg, m))
  {
    hide MidOk, OkBut, TodoOk, Preempt;
    TakeNewest(cfg, m);
    PreemptOk(cfg, m.(todo := m.todo[..|m.todo| - 1]), m.todo[|m.todo| - 1]);
  }

  lemma {:induction false} FailOk(cfg: Config, m: Mid, s: Seq)
    requires cfg.blockSize > 0 && OkBut(cfg, m, s)
    ensures MidOk(cfg, Fail(m, s)) && Ids(Fail(m, s)) == Ids(m)
  {
    hide Valid, CpuValid, ItemsOk, TodosOk, QueuesOk, Unique, Total, FreeSeq, KeepsHash;
    var others := Held(m.items, m.todo);
    var (p1, s1) := FreeSeq(m.pool, s);
    var (p2, s2) := FreeCpu(p1, s1);
    FreeSeqValid(cfg, m.pool, others, s);
    GiveCpu(cfg.numCpuBlocks, p1.cpuFree, Total(m.swapped, HostsOf), s.cpuTable);
    ValidCpuFree(cfg.numBlocks, p1, others, p2.cpuFree);
    CpuKeepsHash(m.pool, p1, p2, others);
    RunningKept(cfg, m.pool, p2, m.items, m.todo);
    assert Ids(Fail(m, s)) == Ids(m);
    FewerUnique(Ids(m) + multiset{s.id}, Ids(m));
  }

  lemma {:induction false} CpuKeepsHash(p: Pool, p1: Pool, q: Pool, held: multiset<Block>)
    requires KeepsHash(p, p1, held) && q.hash == p1.hash
    ensures KeepsHash(p, q, held)
  {
  }

  // --- bringing sequences in -----------------------------------------------------------------------------

  /** A sequence in hand joins the running list with new tables. */
  lemma {:induction false} PlaceOk(cfg: Config, m: Mid, s: Seq, q: Pool, it: Item)
    requires cfg.blockSize > 0 && OkBut(cfg, m, s) && s.table == [] && m.todo == [] && |m.items| < cfg.maxNumSeqs
    requires it.s.id == s.id && ItemOk(cfg, q, it)
    requires Valid(cfg.numBlocks, q, Held(m.items, m.todo) + multiset(it.s.table))
    requires KeepsHash(m.pool, q, Held(m.items, m.todo))
    requires CpuValid(cfg.numCpuBlocks, q.cpuFree, Total(m.swapped, HostsOf))
    ensures forall copies :: MidOk(cfg, m.(pool := q, swapIn := copies, items := m.items + [it]))
    ensures Ids(m.(pool := q, items := m.items + [it])) == Ids(m) + multiset{s.id}
  {
    hide Valid, CpuValid, ItemsOk, TodosOk, QueuesOk, Unique, Total, KeepsHash, ItemOk;
    var m' := m.(pool := q, items := m.items + [it]);
    RunningKept(cfg, m.pool, q, m.items, m.todo);
    ItemsSnoc(cfg, q, m.items, it);
    Joins(m.items, it, TableOf);
    Joins(m.items, it, IdOf);
    assert Held(m'.items, m'.todo) == Held(m.items, m.todo) + multiset(it.s.table);
    assert Ids(m') == Ids(m) + multiset{s.id};
  }

  lemma {:induction false} KeepsTwice(p: Pool, p1: Pool, q: Pool, held: multiset<Block>, more: multiset<Block>)
    requires KeepsHash(p, p1, held) && KeepsHash(p1, q, held + more)
    ensures KeepsHash(p, q, held)
  {
  }

  lemma {:induction false} Joins<T>(items: seq<Item>, it: Item, f: Seq -> multiset<T>)
    ensures Total(Seqs(items + [it]), f) == Total(Seqs(items), f) + f(it.s)
  {
    SeqsSnoc(items, it);
    TotalSnoc(Seqs(items), it.s, f);
  }

  /** A swap-in takes exactly the blocks its guard counted, and so, like an admission, leaves the watermark free when
      anything is running. */
  lemma {:induction false} SwapInOneOk(cfg: Config, m: Mid, n: nat)
    requires cfg.blockSize > 0 && m.swapped != [] && m.todo == [] && MidOk(cfg, m) && |m.items| < cfg.maxNumSeqs
    requires 0 < n <= Uncomputed(m.swapped[0]) && BlocksFor(cfg.blockSize, m.swapped[0].computed + n) <= NumFree(m.pool)
    ensures MidOk(cfg, SwapInOne(cfg, m, n)) && Ids(SwapInOne(cfg, m, n)) == Ids(m)
    ensures NumFree(SwapInOne(cfg, m, n).pool) == NumFree(m.pool) - BlocksFor(cfg.blockSize, m.swapped[0].computed + n)
    ensures CanSwapIn(cfg, m.pool, m.swapped[0], n, m.items != []) ==>
      NumFree(SwapInOne(cfg, m, n).pool) >= (if m.items != [] then cfg.watermarkBlocks else 0)
  {
    hide MidOk, Valid, CpuValid, ItemsOk, TodosOk, QueuesOk, Unique, Total, RequestOk, SwapIn, AppendSlots, TableOk,
      BlocksFor, KeepsHash, NumFree;
    var s, m1 := m.swapped[0], m.(swapped := m.swapped[1..]);
    TakeSwapped(cfg, m);
    BlocksForMono(cfg.blockSize, s.computed, s.computed + n);
    var others := Held(m1.items, m1.todo);
    var (p1, s1, copies) := SwapIn(m.pool, s);
    var (p2, s2) := AppendSlots(cfg, p1, s1, n);
    assert others + multiset(s.table) == others;
    SwapInValid(cfg, m.pool, others, Total(m1.swapped, HostsOf), s);
    AppendSlotsValid(cfg, p1, others, s1, n);
    AppendSlotsRunOk(cfg, p1, others, s1, n);
    KeepsTwice(m.pool, p1, p2, others, multiset(s1.table));
    var it := Item(s2.(status := Running), n);
    SameRequestOk(cfg, s, it.s);
    PlaceOk(cfg, m1, s, p2, it);
    assert SwapInOne(cfg, m, n) == m1.(pool := p2, swapIn := m.swapIn + copies, items := m.items + [it]);
  }

  /** An admission leaves the watermark free when anything is running. */
  lemma {:induction false} AdmitOneOk(cfg: Config, m: Mid, budget: int)
    requires cfg.blockSize > 0 && NextUp(m).Some? && m.todo == [] && MidOk(cfg, m) && |m.items| < cfg.maxNumSeqs && budget > 0
    requires var (s, cached) := CachedPrefix(cfg, m.pool, NextUp(m).value);
      Admissible(cfg, m, s, cached, budget)
    ensures var (s, cached) := CachedPrefix(cfg, m.pool, NextUp(m).value);
      var n := AdmitTokens(cfg, s, cached, budget);
      && 0 < n <= NumTokens(s) - |cached| * cfg.blockSize
      && MidOk(cfg, AdmitOne(cfg, m, s, n, cached)) && Ids(AdmitOne(cfg, m, s, n, cached)) == Ids(m)
      && NumFree(AdmitOne(cfg, m, s, n, cached).pool) >= (if m.items != [] then cfg.watermarkBlocks else 0)
  {
    hide MidOk, Valid, CpuValid, ItemsOk, TodosOk, QueuesOk, Unique, Total, RequestOk, CachedPrefix, Allocate,
      CanAllocate, TableOk, BlocksFor, KeepsHash, NumFree, HashOf, PrefixHash, Distinct;
    var s0, m1 := NextUp(m).value, PopNextUp(m);
    TakeNext(cfg, m);
    var (s, cached) := CachedPrefix(cfg, m.pool, s0);
    var n := AdmitTokens(cfg, s, cached, budget);
    var others := Held(m1.items, m1.todo);
    assert others + multiset(s0.table) == others;
    CachedPrefixOk(cfg, m.pool, others, s0);
    AllocateValid(cfg, m.pool, others, s, n, cached, m.items != []);
    var (q, s') := Allocate(cfg, m.pool, s, n, cached);
    var it := Item(s'.(status := Running), n);
    SameRequestOk(cfg, s, it.s);
    assert Total(m1.swapped, HostsOf) + multiset(s0.cpuTable) == Total(m1.swapped, HostsOf);
    PlaceOk(cfg, m1, s0, q, it);
    assert AdmitOne(cfg, m, s, n, cached) == m1.(pool := q, swapIn := m1.swapIn, items := m.items + [it]);
  }

  lemma {:induction false} NoteNextQueues(cfg: Config, m: Mid, s: Seq)
    requires cfg.blockSize > 0 && NextUp(m).Some? && QueuesOk(cfg, m.swapped, m.preempted, m.waiting)
    requires s == NextUp(m).value.(hashes := s.hashes) && RequestOk(cfg, s)
    ensures var m' := NoteNext(m, s);
      && QueuesOk(cfg, m'.swapped, m'.preempted, m'.waiting)
      && Total(m'.preempted, IdOf) == Total(m.preempted, IdOf) && Total(m'.waiting, IdOf) == Total(m.waiting, IdOf)
  {
    hide SwappedOk, RequestOk;
    if m.preempted != [] {
      assert ParkedOk(cfg, m.preempted[0], Preempted);
      assert m.preempted[0 := s][1..] == m.preempted[1..];
    } else {
      assert ParkedOk(cfg, m.waiting[0], Waiting);
      assert m.waiting[0 := s][1..] == m.waiting[1..];
    }
  }

  lemma {:induction false} NoteNextOk(cfg: Config, m: Mid)
    requires cfg.blockSize > 0 && NextUp(m).Some? && MidOk(cfg, m)
    ensures MidOk(cfg, NoteNext(m, CachedPrefix(cfg, m.pool, NextUp(m).value).0))
    ensures Ids(NoteNext(m, CachedPrefix(cfg, m.pool, NextUp(m).value).0)) == Ids(m)
  {
    hide Valid, CpuValid, ItemsOk, TodosOk, Unique, RequestOk, CachedPrefix, QueuesOk, HashOf, PrefixHash, Distinct, Total;
    QueuesPop(cfg, m);
    CachedPrefixOk(cfg, m.pool, Held(m.items, m.todo), NextUp(m).value);
    NoteNextQueues(cfg, m, CachedPrefix(cfg, m.pool, NextUp(m).value).0);
  }
}
