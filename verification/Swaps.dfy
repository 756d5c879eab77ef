// The copies a step asks for: never in both directions, never two onto one page, never from or onto a
// sequence of the other kind; so performing them together before the forward pass is performing each
// at the moment it was decided.
module Swaps {
  import opened Basics
  import opened Paging
  import opened BlockPool
  import opened Scheduling
  import opened Accounting
  import opened Planning
  import opened Stepping
  import opened Memory
  import Census
  import KvKept
  import opened Progress
  import opened Order

  function Destinations(copies: seq<(Block, Block)>): (r: seq<Block>)
    ensures |r| == |copies| && forall i :: 0 <= i < |copies| ==> r[i] == copies[i].1
  {
    seq(|copies|, i requires 0 <= i < |copies| => copies[i].1)
  }

  lemma {:induction false} ZipDestinations(a: seq<Block>, b: seq<Block>)
    requires |a| == |b|
    ensures Destinations(Zip(a, b)) == b
  {
  }

  /** Distinct pages, each held by the sequences that the copies are for. */
  ghost predicate Landing(copies: seq<(Block, Block)>, held: multiset<Block>) {
    Distinct(Destinations(copies)) && forall b :: b in Destinations(copies) ==> b in held
  }

  lemma {:induction false} LandingMore(copies: seq<(Block, Block)>, held: multiset<Block>, a: seq<Block>, b: seq<Block>)
    requires Landing(copies, held) && |a| == |b| && Distinct(b) && forall c :: c in b ==> c !in held
    ensures Landing(copies + Zip(a, b), held + multiset(b))
  {
    var old', all := Destinations(copies), Destinations(copies + Zip(a, b));
    ZipDestinations(a, b);
    assert all == old' + b;
    forall i, j | 0 <= i < j < |all| ensures all[i] != all[j] {
      if i < |old'| && |old'| <= j {
        assert old'[i] in held && b[j - |old'|] in b;
      }
    }
    forall c | c in all ensures c in held + multiset(b) {
      if c in b {
        assert c in multiset(b);
      }
    }
  }

  lemma {:induction false} LandingWider(copies: seq<(Block, Block)>, held: multiset<Block>, wider: multiset<Block>)
    requires Landing(copies, held) && held <= wider
    ensures Landing(copies, wider)
  {
  }

  // --- copying out -------------------------------------------------------------------------------------------------

  lemma {:induction false} PreemptLanding(cfg: Config, m: Mid)
    requires cfg.blockSize > 0 && m.todo != [] && MidOk(cfg, m) && Landing(m.swapOut, Total(m.swapped, HostsOf))
    ensures var m' := PreemptNewest(cfg, m); Landing(m'.swapOut, Total(m'.swapped, HostsOf))
  {
    hide MidOk, Valid, CpuValid, Total, TodoOk, OkBut, FreeSeq, SwapOut, Landing;
    var m1, it := m.(todo := m.todo[..|m.todo| - 1]), m.todo[|m.todo| - 1];
    TakeNewest(cfg, m);
    HandValid(cfg, m1, it.s);
    NoHostsYet(cfg, m.pool, it);
    var v := it.s.(status := Preempted);
    if cfg.swap && CanSwapOut(m.pool, v) {
      var hosts := Total(m.swapped, HostsOf);
      assert hosts + multiset(it.s.cpuTable) == hosts;
      SwapOutValid(cfg, m.pool, Held(m1.items, m1.todo), hosts, v);
      var (q, v', copies) := SwapOut(m.pool, v);
      LandingMore(m.swapOut, hosts, v.table, v'.cpuTable);
      FrontHosts(v', m.swapped);
      assert hosts + multiset(v'.cpuTable) == multiset(v'.cpuTable) + hosts;
    }
  }

  lemma {:induction false} FrontHosts(v: Seq, swapped: seq<Seq>)
    ensures Total([v] + swapped, HostsOf) == multiset(v.cpuTable) + Total(swapped, HostsOf)
  {
    assert ([v] + swapped)[1..] == swapped;
  }

  lemma {:induction false} HandValid(cfg: Config, m: Mid, s: Seq)
    requires cfg.blockSize > 0 && OkBut(cfg, m, s)
    ensures Valid(cfg.numBlocks, m.pool, Held(m.items, m.todo) + multiset(s.table))
    ensures CpuValid(cfg.numCpuBlocks, m.pool.cpuFree, Total(m.swapped, HostsOf) + multiset(s.cpuTable))
  {
  }

  lemma {:induction false} NoHostsYet(cfg: Config, p: Pool, it: Item)
    requires cfg.blockSize > 0 && TodoOk(cfg, p, it)
    ensures it.s.cpuTable == []
  {
  }

  lemma {:induction false} RunLoopLanding(cfg: Config, m: Mid)
    requires cfg.blockSize > 0 && MidOk(cfg, m) && Landing(m.swapOut, Total(m.swapped, HostsOf))
    ensures Landing(RunLoop(cfg, m).swapOut, Total(RunLoop(cfg, m).swapped, HostsOf))
    decreases |m.todo|
  {
    hide MidOk, CanAppend, Fail, AppendSlots, Preempt, Total, Landing;
    if m.todo != [] {
      if m.todo[0].n == 0 {
        SkipHeadOk(cfg, m);
        RunLoopLanding(cfg, SkipHead(m));
      } else if CanAppend(cfg, m.pool, m.todo[0].s, m.todo[0].n) {
        AppendHeadOk(cfg, m);
        RunLoopLanding(cfg, AppendHead(cfg, m));
      } else if |m.todo| > 1 {
        PreemptNewestOk(cfg, m);
        PreemptLanding(cfg, m);
        Census.PreemptLength(cfg, m);
        RunLoopLanding(cfg, PreemptNewest(cfg, m));
      } else if m.items == [] {
        FailShape(m.(todo := m.todo[1..]), m.todo[0].s);
      } else {
        PreemptLanding(cfg, m);
      }
    }
  }


  // --- copying in --------------------------------------------------------------------------------------------------

  lemma {:induction false} SwapInOneLanding(cfg: Config, m: Mid, n: nat)
    requires cfg.blockSize > 0 && m.swapped != [] && m.todo == [] && MidOk(cfg, m) && Landing(m.swapIn, Held(m.items, []))
    requires 0 < n <= Uncomputed(m.swapped[0]) && BlocksFor(cfg.blockSize, m.swapped[0].computed + n) <= NumFree(m.pool)
    ensures var m' := SwapInOne(cfg, m, n); Landing(m'.swapIn, Held(m'.items, []))
  {
    hide MidOk, Valid, CpuValid, Total, OkBut, SwapIn, AppendSlots, Landing, BlocksFor, NumFree, SwappedOk;
    var s, m1 := m.swapped[0], m.(swapped := m.swapped[1..]);
    TakeSwapped(cfg, m);
    HandValid(cfg, m1, s);
    SwappedSize(cfg, s, n);
    var others := Held(m.items, m.todo);
    assert others + multiset(s.table) == others;
    SwapInValid(cfg, m.pool, others, Total(m1.swapped, HostsOf), s);
    var (p1, s1, copies) := SwapIn(m.pool, s);
    TableDistinct(cfg, p1, s1);
    LandingMore(m.swapIn, others, s.cpuTable, s1.table);
    var m' := SwapInOne(cfg, m, n);
    var it := m'.items[|m.items|];
    assert m'.items == m.items + [it];
    Joins(m.items, it, TableOf);
    MoreTable(cfg, p1, s1, n);
    LandingWider(m'.swapIn, others + multiset(s1.table), Held(m'.items, []));
  }

  lemma {:induction false} SwappedSize(cfg: Config, s: Seq, n: nat)
    requires cfg.blockSize > 0 && SwappedOk(cfg, s)
    ensures s.table == [] && |s.cpuTable| <= BlocksFor(cfg.blockSize, s.computed + n)
  {
    BlocksForMono(cfg.blockSize, s.computed, s.computed + n);
  }

  lemma {:induction false} TableDistinct(cfg: Config, p: Pool, s: Seq)
    requires cfg.blockSize > 0 && TableOk(cfg, p, s)
    ensures Distinct(s.table)
  {
  }

  lemma {:induction false} MoreTable(cfg: Config, p: Pool, s: Seq, n: nat)
    requires cfg.blockSize > 0
    ensures multiset(s.table) <= multiset(AppendSlots(cfg, p, s, n).1.table)
  {
    var blocks := Grow(p, Needed(cfg, s, n)).1;
    assert multiset(s.table + blocks) == multiset(s.table) + multiset(blocks);
  }

  lemma {:induction false} SwapInLoopLanding(cfg: Config, m: Mid, budget: Option<int>)
    requires cfg.blockSize > 0 && m.todo == [] && MidOk(cfg, m) && Landing(m.swapIn, Held(m.items, []))
    ensures var r := SwapInLoop(cfg, m, budget); Landing(r.swapIn, Held(r.items, [])) && r.swapOut == m.swapOut
    decreases |m.swapped|
  {
    hide MidOk, CanSwapIn, SwapInTokens, Fail, SwapIn, AppendSlots, Landing, Held;
    if m.swapped != [] && |m.items| < cfg.maxNumSeqs {
      var n := SwapInTokens(m.swapped[0], budget);
      if n > 0 {
        if CanSwapIn(cfg, m.pool, m.swapped[0], n, m.items != []) {
          SwapInTokensOk(cfg, m, budget);
          SwapInOneOk(cfg, m, n);
          SwapInOneLanding(cfg, m, n);
          SwapInLoopLanding(cfg, SwapInOne(cfg, m, n), Spend(budget, n));
        } else if m.items == [] {
          FailSwappedOk(cfg, m);
          FailShape(m.(swapped := m.swapped[1..]), m.swapped[0]);
          SwapInLoopLanding(cfg, FailSwapped(m), budget);
        }
      }
    }
  }

  // --- whole steps -------------------------------------------------------------------------------------------------

  /** A step's copies go one way, onto distinct pages. */
  ghost predicate OneWay(m: Mid) {
    && (m.swapOut == [] || m.swapIn == [])
    && Distinct(Destinations(m.swapOut)) && Distinct(Destinations(m.swapIn))
  }

  lemma {:induction false} NoLanding(held: multiset<Block>)
    ensures Landing([], held)
  {
  }

  lemma {:induction false} LandingDistinct(copies: seq<(Block, Block)>, held: multiset<Block>)
    requires Landing(copies, held)
    ensures Distinct(Destinations(copies))
  {
  }

  /** A running pass followed, when it preempted nobody, by swap-ins. */
  lemma {:induction false} RunThenSwapIn(cfg: Config, m: Mid, budget: Option<int>)
    requires cfg.blockSize > 0 && MidOk(cfg, m) && m.todo == [] && AllIdle(m.items)
    requires m.numPreempted == 0 && m.swapOut == [] && m.swapIn == []
    ensures var m1 := ScheduleRunning(cfg, m);
      OneWay(if m1.numPreempted == 0 then SwapInLoop(cfg, m1, budget) else m1)
  {
    hide MidOk, RunLoop, SwapInLoop, Plan, Landing, Distinct;
    var m0 := m.(items := [], todo := Plan(cfg, Seqs(m.items)));
    var m1 := ScheduleRunning(cfg, m);
    ReplanOk(cfg, m);
    ScheduleRunningOk(cfg, m);
    ScheduleRunningVictims(cfg, m);
    NoLanding(Total(m.swapped, HostsOf));
    NoLanding(Held(m1.items, []));
    RunLoopLanding(cfg, m0);
    LandingDistinct(m1.swapOut, Total(m1.swapped, HostsOf));
    LandingDistinct(m1.swapIn, Held(m1.items, []));
    if m1.numPreempted == 0 {
      SwapInLoopLanding(cfg, m1, budget);
      var m2 := SwapInLoop(cfg, m1, budget);
      LandingDistinct(m2.swapIn, Held(m2.items, []));
    }
  }

  /** A step copies in one direction only, and no two of its copies land on one page. */
  lemma {:induction false} ScheduleOneWay(cfg: Config, st: State)
    requires cfg.blockSize > 0 && StateOk(cfg, st)
    ensures OneWay(Schedule(cfg, st))
  {
    hide MidOk, AdmitLoop, SwapInLoop, ScheduleRunning, Batch, BatchTokens, Destinations;
    var m := Begin(st);
    NoDestinations();
    if cfg.chunked {
      var m1 := ScheduleRunning(cfg, m);
      var b1 := Some(cfg.maxBatchTokens - BatchTokens(m1.items));
      RunThenSwapIn(cfg, m, b1);
      var m2 := SwapInLoop(cfg, m1, b1);
      AdmitLoopCounts(cfg, m2, cfg.maxBatchTokens - BatchTokens(m2.items));
    } else {
      AdmitLoopCounts(cfg, m, cfg.maxBatchTokens);
      AdmitLoopOk(cfg, m, cfg.maxBatchTokens);
      var m1 := if m.swapped == [] then AdmitLoop(cfg, m, cfg.maxBatchTokens) else m;
      BatchEmptyIdle(m1.items);
      if Batch(m1.items) == [] {
        RunThenSwapIn(cfg, m1, None);
      }
    }
  }

  /** Every copy is between a device page and a host page that exist. */
  ghost predicate Inside(cfg: Config, m: Mid) {
    && (forall i :: 0 <= i < |m.swapOut| ==> 0 <= m.swapOut[i].0 < cfg.numBlocks && 0 <= m.swapOut[i].1 < cfg.numCpuBlocks)
    && (forall i :: 0 <= i < |m.swapIn| ==> 0 <= m.swapIn[i].0 < cfg.numCpuBlocks && 0 <= m.swapIn[i].1 < cfg.numBlocks)
  }

  lemma {:induction false} PreemptInside(cfg: Config, m: Mid)
    requires cfg.blockSize > 0 && m.todo != [] && MidOk(cfg, m) && Inside(cfg, m)
    ensures Inside(cfg, PreemptNewest(cfg, m))
  {
    hide MidOk, Valid, CpuValid, Total, TodoOk, OkBut, FreeSeq, SwapOut;
    var m1, it := m.(todo := m.todo[..|m.todo| - 1]), m.todo[|m.todo| - 1];
    TakeNewest(cfg, m);
    HandValid(cfg, m1, it.s);
    NoHostsYet(cfg, m.pool, it);
    var v := it.s.(status := Preempted);
    if cfg.swap && CanSwapOut(m.pool, v) {
      var hosts := Total(m.swapped, HostsOf);
      assert hosts + multiset(it.s.cpuTable) == hosts;
      SwapOutValid(cfg, m.pool, Held(m1.items, m1.todo), hosts, v);
      KvKept.HeldInRange(cfg.numBlocks, m.pool, Held(m1.items, m1.todo) + multiset(v.table), v.table);
      var (q, v', copies) := SwapOut(m.pool, v);
      assert forall i :: 0 <= i < |v'.cpuTable| ==> v'.cpuTable[i] in v'.cpuTable;
    }
  }

  lemma {:induction false} RunLoopInside(cfg: Config, m: Mid)
    requires cfg.blockSize > 0 && MidOk(cfg, m) && Inside(cfg, m)
    ensures Inside(cfg, RunLoop(cfg, m))
    decreases |m.todo|
  {
    hide MidOk, Ids, CanAppend, Fail, AppendSlots, Preempt;
    if m.todo != [] {
      if m.todo[0].n == 0 {
        SkipHeadOk(cfg, m);
        RunLoopInside(cfg, SkipHead(m));
      } else if CanAppend(cfg, m.pool, m.todo[0].s, m.todo[0].n) {
        AppendHeadOk(cfg, m);
        RunLoopInside(cfg, AppendHead(cfg, m));
      } else if |m.todo| > 1 {
        PreemptNewestOk(cfg, m);
        PreemptInside(cfg, m);
        Census.PreemptLength(cfg, m);
        RunLoopInside(cfg, PreemptNewest(cfg, m));
      } else if m.items == [] {
        FailShape(m.(todo := m.todo[1..]), m.todo[0].s);
      } else {
        PreemptInside(cfg, m);
      }
    }
  }

  lemma {:induction false} CpuInRange(n: nat, cpuFree: seq<Block>, held: multiset<Block>, table: seq<Block>)
    requires CpuValid(n, cpuFree, held) && multiset(table) <= held
    ensures forall i :: 0 <= i < |table| ==> 0 <= table[i] < n
  {
    forall i | 0 <= i < |table| ensures 0 <= table[i] < n {
      assert table[i] in multiset(table);
    }
  }

  lemma {:induction false} SwapInOneInside(cfg: Config, m: Mid, n: nat)
    requires cfg.blockSize > 0 && m.swapped != [] && m.todo == [] && MidOk(cfg, m) && Inside(cfg, m)
    requires 0 < n <= Uncomputed(m.swapped[0]) && BlocksFor(cfg.blockSize, m.swapped[0].computed + n) <= NumFree(m.pool)
    ensures Inside(cfg, SwapInOne(cfg, m, n))
  {
    hide MidOk, Valid, CpuValid, Total, OkBut, SwapIn, AppendSlots, BlocksFor, NumFree, SwappedOk;
    var s, m1 := m.swapped[0], m.(swapped := m.swapped[1..]);
    TakeSwapped(cfg, m);
    HandValid(cfg, m1, s);
    SwappedSize(cfg, s, n);
    var others := Held(m.items, m.todo);
    assert others + multiset(s.table) == others;
    SwapInValid(cfg, m.pool, others, Total(m1.swapped, HostsOf), s);
    CpuInRange(cfg.numCpuBlocks, m.pool.cpuFree, Total(m1.swapped, HostsOf) + multiset(s.cpuTable), s.cpuTable);
    var (p1, s1, copies) := SwapIn(m.pool, s);
    assert forall i :: 0 <= i < |s1.table| ==> s1.table[i] in s1.table;
  }

  lemma {:induction false} SwapInLoopInside(cfg: Config, m: Mid, budget: Option<int>)
    requires cfg.blockSize > 0 && m.todo == [] && MidOk(cfg, m) && Inside(cfg, m)
    ensures Inside(cfg, SwapInLoop(cfg, m, budget))
    decreases |m.swapped|
  {
    hide MidOk, Ids, CanSwapIn, SwapInTokens, Fail, SwapIn, AppendSlots;
    if m.swapped != [] && |m.items| < cfg.maxNumSeqs {
      var n := SwapInTokens(m.swapped[0], budget);
      if n > 0 {
        if CanSwapIn(cfg, m.pool, m.swapped[0], n, m.items != []) {
          SwapInTokensOk(cfg, m, budget);
          SwapInOneOk(cfg, m, n);
          SwapInOneInside(cfg, m, n);
          SwapInLoopInside(cfg, SwapInOne(cfg, m, n), Spend(budget, n));
        } else if m.items == [] {
          FailSwappedOk(cfg, m);
          FailShape(m.(swapped := m.swapped[1..]), m.swapped[0]);
          SwapInLoopInside(cfg, FailSwapped(m), budget);
        }
      }
    }
  }

  lemma {:induction false} RunningInside(cfg: Config, m: Mid)
    requires cfg.blockSize > 0 && MidOk(cfg, m) && m.todo == [] && AllIdle(m.items) && Inside(cfg, m)
    ensures Inside(cfg, ScheduleRunning(cfg, m))
  {
    hide MidOk, RunLoop, Plan;
    ReplanOk(cfg, m);
    RunLoopInside(cfg, m.(items := [], todo := Plan(cfg, Seqs(m.items))));
  }

  /** All of a step's copies are inside the two caches. */
  lemma {:induction false} ScheduleInside(cfg: Config, st: State)
    requires cfg.blockSize > 0 && StateOk(cfg, st)
    ensures Inside(cfg, Schedule(cfg, st))
  {
    hide MidOk, AdmitLoop, SwapInLoop, ScheduleRunning, Batch, BatchTokens;
    var m := Begin(st);
    if cfg.chunked {
      RunningInside(cfg, m);
      ScheduleRunningOk(cfg, m);
      var m1 := ScheduleRunning(cfg, m);
      var b1 := Some(cfg.maxBatchTokens - BatchTokens(m1.items));
      SwapInLoopInside(cfg, m1, b1);
      var m2 := SwapInLoop(cfg, m1, b1);
      AdmitLoopCounts(cfg, m2, cfg.maxBatchTokens - BatchTokens(m2.items));
    } else {
      AdmitLoopCounts(cfg, m, cfg.maxBatchTokens);
      AdmitLoopOk(cfg, m, cfg.maxBatchTokens);
      var m1 := if m.swapped == [] then AdmitLoop(cfg, m, cfg.maxBatchTokens) else m;
      BatchEmptyIdle(m1.items);
      if Batch(m1.items) == [] {
        RunningInside(cfg, m1);
        ScheduleRunningOk(cfg, m1);
        SwapInLoopInside(cfg, ScheduleRunning(cfg, m1), None);
      }
    }
  }

  lemma {:induction false} NoDestinations()
    ensures Distinct(Destinations([]))
  {
  }

  /** No victim is in the batch it was preempted from. */
  lemma {:induction false} NoVictimRuns(cfg: Config, m: Mid, i: nat, j: nat)
    requires cfg.blockSize > 0 && MidOk(cfg, m) && i < |m.items|
    ensures j < |m.swapped| ==> m.items[i].s.id != m.swapped[j].id
    ensures j < |m.preempted| ==> m.items[i].s.id != m.preempted[j].id
  {
    hide Valid, CpuValid, ItemsOk, TodosOk, QueuesOk, Total;
    var id := m.items[i].s.id;
    TotalHas(Seqs(m.items), i, IdOf);
    assert IdOf(Seqs(m.items)[i])[id] == 1;
    assert Total(Seqs(m.items), IdOf)[id] >= 1;
    if j < |m.swapped| {
      TotalHas(m.swapped, j, IdOf);
      assert IdOf(m.swapped[j])[m.swapped[j].id] == 1;
      assert Total(m.swapped, IdOf)[m.swapped[j].id] >= 1;
    }
    if j < |m.preempted| {
      TotalHas(m.preempted, j, IdOf);
      assert IdOf(m.preempted[j])[m.preempted[j].id] == 1;
      assert Total(m.preempted, IdOf)[m.preempted[j].id] >= 1;
    }
    assert Ids(m)[id] <= 1;
  }

  // --- together or one by one ----------------------------------------------------------------------------------------

  /** Copies onto distinct pages: each destination gets its source and nothing else changes, in
      whatever order they are performed. */
  lemma {:induction false} CopiesTogether(src: seq<PageData>, dst: seq<PageData>, copies: seq<(Block, Block)>)
    requires Distinct(Destinations(copies))
    requires forall i :: 0 <= i < |copies| ==> 0 <= copies[i].0 < |src| && 0 <= copies[i].1 < |dst|
    ensures var r := CopyPages(src, dst, copies);
      && |r| == |dst|
      && (forall i :: 0 <= i < |copies| ==> r[copies[i].1] == src[copies[i].0])
      && (forall b :: 0 <= b < |dst| && b !in Destinations(copies) ==> r[b] == dst[b])
  {
    var from := seq(|copies|, i requires 0 <= i < |copies| => copies[i].0);
    var onto := Destinations(copies);
    CopyPagesOk(src, dst, from, onto, copies);
    forall i | 0 <= i < |copies| ensures CopyPages(src, dst, copies)[copies[i].1] == src[copies[i].0] {
      assert onto[i] == copies[i].1 && from[i] == copies[i].0;
    }
  }
}
