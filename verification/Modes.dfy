// What the two scheduling modes keep. Unchunked, every running or swapped sequence has exactly one
// token to compute. Chunked, at most one has more, and among the running ones it is the newest; so
// the plan never goes negative, nobody is skipped, and the token budget holds.
module Modes {
  import opened Basics
  import opened Paging
  import opened BlockPool
  import opened Transformer
  import opened Streaming
  import opened Scheduling
  import opened Accounting
  import opened Planning
  import opened Stepping
  import opened Census
  import opened EngineRun

  ghost predicate Decoding(s: Seq) {
    Uncomputed(s) == 1
  }

  ghost predicate AllDecoding(seqs: seq<Seq>) {
    forall i :: 0 <= i < |seqs| ==> Decoding(seqs[i])
  }

  /** All but the newest have one token left. */
  ghost predicate OldDecoding(seqs: seq<Seq>) {
    forall i :: 0 <= i < |seqs| - 1 ==> Decoding(seqs[i])
  }

  /** No two of the listed sequences are partial prefills. */
  ghost predicate OneAtMost(seqs: seq<Seq>) {
    forall i, j :: 0 <= i < j < |seqs| ==> Decoding(seqs[i]) || Decoding(seqs[j])
  }

  /** At most one sequence of running and swapped is a partial prefill; a running one is the newest. */
  ghost predicate OnePartial(running: seq<Seq>, swapped: seq<Seq>) {
    OldDecoding(running) && OneAtMost(swapped) && (AllDecoding(running) || AllDecoding(swapped))
  }

  ghost predicate ModeOk(cfg: Config, st: State) {
    if cfg.chunked then OnePartial(st.running, st.swapped) else AllDecoding(st.running) && AllDecoding(st.swapped)
  }

  // --- the plan ------------------------------------------------------------------------------------------------

  lemma {:induction false} AllAreDecodes(running: seq<Seq>)
    requires AllDecoding(running)
    ensures CountDecodes(running) == |running|
    decreases |running|
  {
    if running != [] {
      AllAreDecodes(running[1..]);
    }
  }

  lemma {:induction false} AllButNewest(running: seq<Seq>)
    requires running != [] && OldDecoding(running) && !Decoding(running[|running| - 1])
    ensures CountDecodes(running) == |running| - 1
    decreases |running|
  {
    if |running| > 1 {
      AllButNewest(running[1..]);
    }
  }

  lemma {:induction false} PlanFromShape(running: seq<Seq>, left: int)
    requires running != [] && OldDecoding(running) && Uncomputed(running[|running| - 1]) >= 1
    requires !Decoding(running[|running| - 1]) ==> left >= 1
    ensures var plan, last := PlanFrom(running, left), |running| - 1;
      && |plan| == |running|
      && (forall i :: 0 <= i < last ==> plan[i].n == 1)
      && plan[last].n == if Decoding(running[last]) then 1 else Min(Uncomputed(running[last]), left)
    decreases |running|
  {
    if |running| > 1 {
      assert Decoding(running[0]);
      PlanFromShape(running[1..], left);
      assert running[1..][|running| - 2] == running[|running| - 1];
    }
  }

  lemma {:induction false} RawPlanShape(running: seq<Seq>, left: int)
    requires OldDecoding(running) && (running != [] ==> Uncomputed(running[|running| - 1]) >= 1)
    requires running != [] && !Decoding(running[|running| - 1]) ==> left >= 1
    ensures forall i :: 0 <= i < |RawPlan(running, left)| ==> RawPlan(running, left)[i] >= 1
    decreases |running|
  {
    if |running| > 1 {
      assert Decoding(running[0]);
      assert running[1..][|running| - 2] == running[|running| - 1];
      RawPlanShape(running[1..], left);
    } else if |running| == 1 {
      assert RawPlan(running[1..], left) == [];
    }
  }

  /** In every reachable state the plan as computed, unclamped, has no negative number. */
  lemma {:induction false} PlanNeverNegative(cfg: Config, st: State)
    requires ConfigOk(cfg) && StateOk(cfg, st) && ModeOk(cfg, st)
    ensures PlanSound(cfg, st.running)
  {
    hide MidOk, StateOk, OneAtMost, RawPlan, CountDecodes;
    RunningWithin(cfg, st);
    if cfg.chunked {
      if st.running != [] && !Decoding(st.running[|st.running| - 1]) {
        AllButNewest(st.running);
      }
      RawPlanShape(st.running, cfg.maxBatchTokens - CountDecodes(st.running));
    }
  }

  lemma {:induction false} RunningWithin(cfg: Config, st: State)
    requires cfg.blockSize > 0 && StateOk(cfg, st)
    ensures |st.running| <= cfg.maxNumSeqs
    ensures st.running != [] ==> Uncomputed(st.running[|st.running| - 1]) >= 1
  {
    HaveWork(cfg, Begin(st));
    hide Valid, CpuValid, Unique, ItemsOk, TodosOk, QueuesOk;
    if st.running != [] {
      assert Begin(st).items[|st.running| - 1].s == st.running[|st.running| - 1];
    }
  }

  /** The tokens of a list in which all but the newest compute one. */
  function Tokens(items: seq<Item>): int {
    if items == [] then 0 else |items| - 1 + items[|items| - 1].n
  }

  /** What the running pass keeps of visited and unvisited sequences together: everybody computes at
      least one token, all but the newest exactly one, within the budget; and a partial prefill left
      unfinished takes all of the budget. */
  ghost predicate RunShape(cfg: Config, items: seq<Item>, swapped: seq<Seq>, preempted: nat) {
    && (forall i :: 0 <= i < |items| ==> 1 <= items[i].n <= Uncomputed(items[i].s))
    && (forall i :: 0 <= i < |items| - 1 ==> items[i].n == 1)
    && ModeOkLists(cfg, Seqs(items), swapped)
    && (cfg.chunked ==> Tokens(items) <= cfg.maxBatchTokens)
    && (items != [] && items[|items| - 1].n < Uncomputed(items[|items| - 1].s) && preempted == 0 ==>
          cfg.chunked && Tokens(items) == cfg.maxBatchTokens)
  }

  ghost predicate ModeOkLists(cfg: Config, running: seq<Seq>, swapped: seq<Seq>) {
    if cfg.chunked then OnePartial(running, swapped) else AllDecoding(running) && AllDecoding(swapped)
  }

  /** The plan never goes negative: everybody running gets at least one token. */
  lemma {:induction false} PlanShape(cfg: Config, running: seq<Seq>, swapped: seq<Seq>)
    requires ConfigOk(cfg) && |running| <= cfg.maxNumSeqs && ModeOkLists(cfg, running, swapped)
    requires forall i :: 0 <= i < |running| ==> Uncomputed(running[i]) >= 1
    ensures RunShape(cfg, Plan(cfg, running), swapped, 0)
    ensures |Plan(cfg, running)| == |running| && forall i :: 0 <= i < |running| ==> Plan(cfg, running)[i].n >= 1
  {
    hide OneAtMost;
    var plan := Plan(cfg, running);
    PlanOk(cfg, running);
    assert Seqs(plan) == running;
    if cfg.chunked && running != [] {
      var last := |running| - 1;
      var left := cfg.maxBatchTokens - CountDecodes(running);
      if Decoding(running[last]) {
        assert AllDecoding(running);
        AllAreDecodes(running);
      } else {
        AllButNewest(running);
      }
      PlanFromShape(running, left);
    }
  }

  /** RunShape looks at progress and numbers only. */
  lemma {:induction false} SameShape(cfg: Config, items: seq<Item>, items': seq<Item>, swapped: seq<Seq>, preempted: nat)
    requires RunShape(cfg, items, swapped, preempted) && |items'| == |items|
    requires forall i :: 0 <= i < |items| ==> items'[i].n == items[i].n && Uncomputed(items'[i].s) == Uncomputed(items[i].s)
    ensures RunShape(cfg, items', swapped, preempted)
  {
    hide OneAtMost, Uncomputed;
    forall i | 0 <= i < |items'| ensures Decoding(Seqs(items')[i]) <==> Decoding(Seqs(items)[i]) {
    }
  }

  /** The newest leaves the running list; by swap it becomes the newest swapped. */
  lemma {:induction false} NewestLeaves(cfg: Config, items: seq<Item>, swapped: seq<Seq>, swapped': seq<Seq>, preempted: nat)
    requires items != [] && RunShape(cfg, items, swapped, preempted)
    requires swapped' == swapped ||
      (|swapped'| == |swapped| + 1 && swapped'[1..] == swapped && Uncomputed(swapped'[0]) == Uncomputed(items[|items| - 1].s))
    ensures RunShape(cfg, items[..|items| - 1], swapped', preempted + 1)
  {
    hide Uncomputed;
    var last := |items| - 1;
    var rest := items[..last];
    assert AllDecoding(Seqs(rest)) by {
      forall i | 0 <= i < |rest| ensures Decoding(Seqs(rest)[i]) {
        assert Decoding(Seqs(items)[i]);
      }
    }
    assert Decoding(Seqs(items)[last]) || AllDecoding(swapped);
    if swapped' != swapped {
      forall i | 1 <= i < |swapped'| ensures swapped'[i] == swapped[i - 1] {
        assert swapped'[1..][i - 1] == swapped'[i];
      }
    }
  }

  lemma {:induction false} PreemptedSwapped(cfg: Config, m: Mid)
    requires m.todo != []
    ensures var m' := PreemptNewest(cfg, m);
      && m'.items == m.items && m'.todo == m.todo[..|m.todo| - 1] && m'.numPreempted == m.numPreempted + 1
      && (m'.swapped == m.swapped ||
          (|m'.swapped| == |m.swapped| + 1 && m'.swapped[1..] == m.swapped
           && Uncomputed(m'.swapped[0]) == Uncomputed(m.todo[|m.todo| - 1].s)))
  {
    hide FreeTable;
  }

  lemma {:induction false} RunLoopShape(cfg: Config, m: Mid)
    requires cfg.blockSize > 0 && RunShape(cfg, m.items + m.todo, m.swapped, m.numPreempted)
    ensures RunShape(cfg, RunLoop(cfg, m).items, RunLoop(cfg, m).swapped, RunLoop(cfg, m).numPreempted)
    decreases |m.todo|
  {
    hide CanAppend, Fail, Preempt, ModeOkLists, Tokens;
    var all := m.items + m.todo;
    if m.todo == [] {
      assert all == m.items;
    } else {
      assert all[|m.items|] == m.todo[0];
      if CanAppend(cfg, m.pool, m.todo[0].s, m.todo[0].n) {
        var m' := AppendHead(cfg, m);
        AppendedSame(cfg, m);
        SameShape(cfg, all, m'.items + m'.todo, m.swapped, m.numPreempted);
        RunLoopShape(cfg, m');
      } else if |m.todo| > 1 || m.items != [] {
        var m' := PreemptNewest(cfg, m);
        PreemptedSwapped(cfg, m);
        assert m'.items + m'.todo == all[..|all| - 1];
        assert all[|all| - 1] == m.todo[|m.todo| - 1];
        NewestLeaves(cfg, all, m.swapped, m'.swapped, m.numPreempted);
        if |m.todo| > 1 {
          RunLoopShape(cfg, m');
        } else {
          assert m'.items + m'.todo == m'.items;
        }
      } else {
        FailShape(m.(todo := m.todo[1..]), m.todo[0].s);
        assert all[..|all| - 1] == [];
        NewestLeaves(cfg, all, m.swapped, m.swapped, m.numPreempted);
        NobodyShape(cfg, m.swapped, m.numPreempted + 1, m.numPreempted);
      }
    }
  }

  lemma {:induction false} NobodyShape(cfg: Config, swapped: seq<Seq>, a: nat, b: nat)
    requires RunShape(cfg, [], swapped, a)
    ensures RunShape(cfg, [], swapped, b)
  {
    hide ModeOkLists;
  }

  lemma {:induction false} AppendedSame(cfg: Config, m: Mid)
    requires cfg.blockSize > 0 && m.todo != []
    ensures var m' := AppendHead(cfg, m);
      && m'.swapped == m.swapped && m'.numPreempted == m.numPreempted && |m'.todo| == |m.todo| - 1
      && |m'.items + m'.todo| == |m.items + m.todo|
      && (forall i :: 0 <= i < |m.items + m.todo| ==>
            (m'.items + m'.todo)[i].n == (m.items + m.todo)[i].n
            && Uncomputed((m'.items + m'.todo)[i].s) == Uncomputed((m.items + m.todo)[i].s))
  {
    hide Grow;
  }

  lemma {:induction false} RunningShape(cfg: Config, m: Mid)
    requires ConfigOk(cfg) && MidOk(cfg, m) && m.todo == [] && AllIdle(m.items)
    requires ModeOkLists(cfg, Seqs(m.items), m.swapped) && m.numPreempted == 0
    ensures RunShape(cfg, ScheduleRunning(cfg, m).items, ScheduleRunning(cfg, m).swapped, ScheduleRunning(cfg, m).numPreempted)
  {
    HaveWork(cfg, m);
    hide RunLoop, ModeOkLists, Plan, RunShape;
    PlanShape(cfg, Seqs(m.items), m.swapped);
    var plan := Plan(cfg, Seqs(m.items));
    assert [] + plan == plan;
    RunLoopShape(cfg, m.(items := [], todo := plan));
  }

  // --- swap-ins and admissions -----------------------------------------------------------------------------------

  /** After this step the item has one token to compute, or has finished. */
  ghost predicate EndsDecoding(it: Item) {
    if it.n == 0 then Decoding(it.s) else it.n == Uncomputed(it.s)
  }

  ghost predicate AllEndDecoding(items: seq<Item>) {
    forall i :: 0 <= i < |items| ==> EndsDecoding(items[i])
  }

  ghost predicate OldEndDecoding(items: seq<Item>) {
    forall i :: 0 <= i < |items| - 1 ==> EndsDecoding(items[i])
  }

  ghost predicate NobodySkipped(items: seq<Item>) {
    forall i :: 0 <= i < |items| ==> items[i].n >= 1
  }

  /** What a chunked step keeps while sequences join: the budget is exact, and only the newest can be
      left partial, which takes all of it. */
  ghost predicate JoinShape(cfg: Config, items: seq<Item>, swapped: seq<Seq>, budget: int) {
    && NobodySkipped(items) && OldEndDecoding(items) && OneAtMost(swapped)
    && BatchTokens(items) + budget == cfg.maxBatchTokens && budget >= 0
    && (AllEndDecoding(items) || (budget == 0 && AllDecoding(swapped)))
  }

  lemma {:induction false} OnesSum(items: seq<Item>)
    requires forall i :: 0 <= i < |items| ==> items[i].n == 1
    ensures BatchTokens(items) == |items|
  {
    if items != [] {
      OnesSum(items[..|items| - 1]);
    }
  }

  lemma {:induction false} TokensSum(items: seq<Item>)
    requires forall i :: 0 <= i < |items| - 1 ==> items[i].n == 1
    ensures BatchTokens(items) == Tokens(items)
  {
    if items != [] {
      OnesSum(items[..|items| - 1]);
    }
  }

  lemma {:induction false} RunToJoin(cfg: Config, items: seq<Item>, swapped: seq<Seq>)
    requires cfg.chunked && RunShape(cfg, items, swapped, 0)
    ensures JoinShape(cfg, items, swapped, cfg.maxBatchTokens - BatchTokens(items))
  {
    TokensSum(items);
    hide BatchTokens;
    forall i | 0 <= i < |items| - 1 ensures EndsDecoding(items[i]) {
      assert Decoding(Seqs(items)[i]);
    }
    if items != [] && !EndsDecoding(items[|items| - 1]) {
      assert !Decoding(Seqs(items)[|items| - 1]);
    }
  }

  lemma {:induction false} JoinsShape(cfg: Config, items: seq<Item>, it: Item, swapped: seq<Seq>, swapped': seq<Seq>, budget: int)
    requires JoinShape(cfg, items, swapped, budget) && 1 <= it.n <= budget && it.n <= Uncomputed(it.s)
    requires it.n == Uncomputed(it.s) || it.n == budget
    requires (swapped' == swapped && swapped == []) || (swapped != [] && swapped' == swapped[1..] && Uncomputed(it.s) == Uncomputed(swapped[0]))
    ensures JoinShape(cfg, items + [it], swapped', budget - it.n)
  {
    var items' := items + [it];
    assert items'[..|items|] == items && items'[|items|] == it;
    assert BatchTokens(items') == BatchTokens(items) + it.n;
    hide BatchTokens;
    assert AllEndDecoding(items);
    forall i | 0 <= i < |items| ensures EndsDecoding(items'[i]) && items'[i].n >= 1 {
      assert items'[i] == items[i];
    }
    if it.n < Uncomputed(it.s) && swapped != [] {
      assert !Decoding(swapped[0]);
      forall i | 0 <= i < |swapped'| ensures Decoding(swapped'[i]) {
        assert swapped'[i] == swapped[i + 1];
      }
    }
  }

  lemma {:induction false} SwapInOneItem(cfg: Config, m: Mid, n: nat)
    requires cfg.blockSize > 0 && m.swapped != []
    ensures var m' := SwapInOne(cfg, m, n);
      && |m'.items| == |m.items| + 1 && m'.items[..|m.items|] == m.items
      && m'.items[|m.items|].n == n && Uncomputed(m'.items[|m.items|].s) == Uncomputed(m.swapped[0])
      && m'.swapped == m.swapped[1..] && m'.numPreempted == m.numPreempted
      && m'.preempted == m.preempted && m'.waiting == m.waiting && m'.swapOut == m.swapOut
  {
    hide Grow;
  }

  lemma {:induction false} SwapInLoopShape(cfg: Config, m: Mid, budget: int)
    requires cfg.blockSize > 0 && JoinShape(cfg, m.items, m.swapped, budget)
    ensures var r := SwapInLoop(cfg, m, Some(budget));
      JoinShape(cfg, r.items, r.swapped, cfg.maxBatchTokens - BatchTokens(r.items))
    decreases |m.swapped|
  {
    hide CanSwapIn, Fail, SwapIn, AppendSlots, Uncomputed, BatchTokens;
    if m.swapped != [] && |m.items| < cfg.maxNumSeqs {
      var n := SwapInTokens(m.swapped[0], Some(budget));
      if n > 0 {
        if CanSwapIn(cfg, m.pool, m.swapped[0], n, m.items != []) {
          var m' := SwapInOne(cfg, m, n);
          SwapInOneItem(cfg, m, n);
          assert m'.items == m.items + [m'.items[|m.items|]];
          JoinsShape(cfg, m.items, m'.items[|m.items|], m.swapped, m'.swapped, budget);
          SwapInLoopShape(cfg, m', budget - n);
        } else if m.items == [] {
          FailShape(m.(swapped := m.swapped[1..]), m.swapped[0]);
          SwapInLoopShape(cfg, FailSwapped(m), budget);
        }
      }
    }
  }

  lemma {:induction false} AdmitOneItem(cfg: Config, m: Mid, s: Seq, n: nat, cached: seq<Block>)
    requires cfg.blockSize > 0 && NextUp(m).Some?
    ensures var m' := AdmitOne(cfg, m, s, n, cached);
      && |m'.items| == |m.items| + 1 && m'.items[..|m.items|] == m.items
      && m'.items[|m.items|].n == n && Uncomputed(m'.items[|m.items|].s) == NumTokens(s) - |cached| * cfg.blockSize
      && m'.swapped == m.swapped && m'.numPreempted == m.numPreempted
      && |m'.preempted| + |m'.waiting| < |m.preempted| + |m.waiting|
  {
    hide Grow, PinAll;
  }

  lemma {:induction false} AdmitTokensExact(cfg: Config, m: Mid, budget: int)
    requires cfg.blockSize > 0 && MidOk(cfg, m) && m.todo == [] && NextUp(m).Some? && budget > 0 && |m.items| < cfg.maxNumSeqs
    requires var (s, cached) := CachedPrefix(cfg, m.pool, NextUp(m).value);
      Admissible(cfg, m, s, cached, budget)
    ensures var (s, cached) := CachedPrefix(cfg, m.pool, NextUp(m).value);
      var n, left := AdmitTokens(cfg, s, cached, budget), NumTokens(s) - |cached| * cfg.blockSize;
      && 1 <= n <= budget && n <= left && (n == left || (cfg.chunked && n == budget))
      && MidOk(cfg, AdmitOne(cfg, m, s, n, cached))
  {
    hide MidOk, CachedPrefix, CanAllocate, Allocate;
    AdmitOneOk(cfg, m, budget);
  }

  lemma {:induction false} AdmitLoopShape(cfg: Config, m: Mid, budget: int)
    requires cfg.blockSize > 0 && MidOk(cfg, m) && m.todo == [] && m.swapped == [] && JoinShape(cfg, m.items, [], budget)
    ensures var r := AdmitLoop(cfg, m, budget);
      JoinShape(cfg, r.items, r.swapped, cfg.maxBatchTokens - BatchTokens(r.items))
    decreases |m.preempted| + |m.waiting|
  {
    hide MidOk, Admissible, CachedPrefix, AdmitTokens, BlocksFor, Fail, Allocate, Uncomputed, BatchTokens;
    if budget > 0 && |m.items| < cfg.maxNumSeqs && NextUp(m).Some? {
      if BlocksFor(cfg.blockSize, NumTokens(NextUp(m).value)) > cfg.numBlocks {
        FailNextOk(cfg, m);
        FailShape(PopNextUp(m), NextUp(m).value);
        AdmitLoopShape(cfg, FailNext(m), budget);
      } else {
        var (s, cached) := CachedPrefix(cfg, m.pool, NextUp(m).value);
        if Admissible(cfg, m, s, cached, budget) {
          var n := AdmitTokens(cfg, s, cached, budget);
          AdmitTokensExact(cfg, m, budget);
          AdmitOneItem(cfg, m, s, n, cached);
          var m' := AdmitOne(cfg, m, s, n, cached);
          assert m'.items == m.items + [m'.items[|m.items|]];
          JoinsShape(cfg, m.items, m'.items[|m.items|], [], [], budget);
          AdmitLoopShape(cfg, m', budget - n);
        }
      }
    }
  }

  // --- unchunked joins: whole remainders only -----------------------------------------------------------------------

  lemma {:induction false} EndSnoc(items: seq<Item>, items': seq<Item>)
    requires AllEndDecoding(items) && |items'| == |items| + 1 && items'[..|items|] == items && EndsDecoding(items'[|items|])
    ensures AllEndDecoding(items')
  {
    hide EndsDecoding;
    forall i | 0 <= i < |items'| ensures EndsDecoding(items'[i]) {
      if i < |items| {
        assert items'[..|items|][i] == items'[i];
        assert EndsDecoding(items[i]);
      }
    }
  }

  lemma {:induction false} SwapInLoopWhole(cfg: Config, m: Mid)
    requires cfg.blockSize > 0 && AllEndDecoding(m.items) && AllDecoding(m.swapped)
    ensures AllEndDecoding(SwapInLoop(cfg, m, None).items) && AllDecoding(SwapInLoop(cfg, m, None).swapped)
    decreases |m.swapped|
  {
    hide CanSwapIn, Fail, SwapIn, AppendSlots;
    if m.swapped != [] && |m.items| < cfg.maxNumSeqs {
      var n := SwapInTokens(m.swapped[0], None);
      if n > 0 {
        if CanSwapIn(cfg, m.pool, m.swapped[0], n, m.items != []) {
          var m' := SwapInOne(cfg, m, n);
          SwapInOneItem(cfg, m, n);
          EndSnoc(m.items, m'.items);
          SwapInLoopWhole(cfg, m');
        } else if m.items == [] {
          FailShape(m.(swapped := m.swapped[1..]), m.swapped[0]);
          SwapInLoopWhole(cfg, FailSwapped(m));
        }
      }
    }
  }

  lemma {:induction false} AdmitLoopWhole(cfg: Config, m: Mid, budget: int)
    requires cfg.blockSize > 0 && !cfg.chunked && MidOk(cfg, m) && m.todo == [] && AllEndDecoding(m.items)
    ensures AllEndDecoding(AdmitLoop(cfg, m, budget).items) && AdmitLoop(cfg, m, budget).swapped == m.swapped
    ensures AdmitLoop(cfg, m, budget).numPreempted == m.numPreempted
    decreases |m.preempted| + |m.waiting|
  {
    hide MidOk, Admissible, CachedPrefix, AdmitTokens, BlocksFor, Fail, Allocate;
    if budget > 0 && |m.items| < cfg.maxNumSeqs && NextUp(m).Some? {
      if BlocksFor(cfg.blockSize, NumTokens(NextUp(m).value)) > cfg.numBlocks {
        FailNextOk(cfg, m);
        FailShape(PopNextUp(m), NextUp(m).value);
        AdmitLoopWhole(cfg, FailNext(m), budget);
      } else {
        var (s, cached) := CachedPrefix(cfg, m.pool, NextUp(m).value);
        if Admissible(cfg, m, s, cached, budget) {
          var n := AdmitTokens(cfg, s, cached, budget);
          AdmitTokensExact(cfg, m, budget);
          AdmitOneItem(cfg, m, s, n, cached);
          var m' := AdmitOne(cfg, m, s, n, cached);
          EndSnoc(m.items, m'.items);
          AdmitLoopWhole(cfg, m', budget - n);
        }
      }
    }
  }

  // --- whole steps ---------------------------------------------------------------------------------------------------

  /** How a planned step ends. */
  ghost predicate EndShape(cfg: Config, m: Mid) {
    && (cfg.chunked ==> NobodySkipped(m.items) && BatchTokens(m.items) <= cfg.maxBatchTokens && OneAtMost(m.swapped))
    && (!cfg.chunked ==> AllEndDecoding(m.items) && AllDecoding(m.swapped))
    && OldEndDecoding(m.items)
    && (AllEndDecoding(m.items) || AllDecoding(m.swapped))
  }

  lemma {:induction false} RunToEnd(cfg: Config, m: Mid)
    requires RunShape(cfg, m.items, m.swapped, m.numPreempted)
    ensures !cfg.chunked || m.numPreempted > 0 ==> EndShape(cfg, m)
  {
    TokensSum(m.items);
    hide BatchTokens, OneAtMost;
    forall i | 0 <= i < |m.items|
      ensures Decoding(Seqs(m.items)[i]) ==> EndsDecoding(m.items[i])
    {
    }
  }

  lemma {:induction false} JoinToEnd(cfg: Config, m: Mid, budget: int)
    requires cfg.chunked && JoinShape(cfg, m.items, m.swapped, budget)
    ensures EndShape(cfg, m)
  {
  }

  lemma {:induction false} ChunkedShape(cfg: Config, m: Mid)
    requires ConfigOk(cfg) && cfg.chunked && MidOk(cfg, m) && m.todo == [] && AllIdle(m.items) && m.numPreempted == 0
    requires ModeOkLists(cfg, Seqs(m.items), m.swapped)
    ensures EndShape(cfg, ScheduleChunked(cfg, m))
  {
    hide MidOk, AdmitLoop, SwapInLoop, ScheduleRunning, BatchTokens, EndShape, JoinShape, RunShape, ModeOkLists;
    RunningShape(cfg, m);
    var m1 := ScheduleRunning(cfg, m);
    RunToEnd(cfg, m1);
    if m1.numPreempted == 0 {
      RunToJoin(cfg, m1.items, m1.swapped);
      var b1 := cfg.maxBatchTokens - BatchTokens(m1.items);
      SwapInLoopShape(cfg, m1, b1);
      ScheduleRunningOk(cfg, m);
      SwapInLoopOk(cfg, m1, Some(b1));
      var m2 := SwapInLoop(cfg, m1, Some(b1));
      var b2 := cfg.maxBatchTokens - BatchTokens(m2.items);
      JoinToEnd(cfg, m2, b2);
      if m2.swapped == [] {
        AdmitLoopShape(cfg, m2, b2);
        var m3 := AdmitLoop(cfg, m2, b2);
        JoinToEnd(cfg, m3, cfg.maxBatchTokens - BatchTokens(m3.items));
      }
    }
  }

  lemma {:induction false} PriorityShape(cfg: Config, m: Mid)
    requires ConfigOk(cfg) && !cfg.chunked && MidOk(cfg, m) && m.todo == [] && AllIdle(m.items) && m.numPreempted == 0
    requires AllDecoding(Seqs(m.items)) && AllDecoding(m.swapped)
    ensures EndShape(cfg, SchedulePrefillPriority(cfg, m))
  {
    hide MidOk, AdmitLoop, SwapInLoop, ScheduleRunning, Batch, Decoding;
    IdleEnds(m.items);
    AdmitLoopWhole(cfg, m, cfg.maxBatchTokens);
    AdmitLoopOk(cfg, m, cfg.maxBatchTokens);
    var m1 := if m.swapped == [] then AdmitLoop(cfg, m, cfg.maxBatchTokens) else m;
    BatchEmptyIdle(m1.items);
    if Batch(m1.items) == [] {
      IdleDecoding(m1.items);
      RunningShape(cfg, m1);
      var m2 := ScheduleRunning(cfg, m1);
      RunToEnd(cfg, m2);
      SwapInLoopWhole(cfg, m2);
    }
  }

  lemma {:induction false} IdleEnds(items: seq<Item>)
    requires AllIdle(items) && AllDecoding(Seqs(items))
    ensures AllEndDecoding(items)
  {
    forall i | 0 <= i < |items| ensures EndsDecoding(items[i]) {
      assert Decoding(Seqs(items)[i]);
    }
  }

  lemma {:induction false} IdleDecoding(items: seq<Item>)
    requires AllIdle(items) && AllEndDecoding(items)
    ensures AllDecoding(Seqs(items))
  {
    forall i | 0 <= i < |items| ensures Decoding(Seqs(items)[i]) {
      assert EndsDecoding(items[i]);
    }
  }

  /** In chunked mode nobody running is skipped and the batch stays within the token budget. */
  lemma {:induction false} ScheduleShape(cfg: Config, st: State)
    requires ConfigOk(cfg) && StateOk(cfg, st) && ModeOk(cfg, st)
    ensures EndShape(cfg, Schedule(cfg, st))
  {
    hide MidOk, ScheduleChunked, SchedulePrefillPriority, EndShape, OnePartial, AllDecoding;
    IdleConcat(st.running, []);
    if cfg.chunked {
      ChunkedShape(cfg, Begin(st));
    } else {
      PriorityShape(cfg, Begin(st));
    }
  }

  // --- taking results --------------------------------------------------------------------------------------------------

  lemma {:induction false} UpdateItemDecodes(cfg: Config, p: Pool, it: Item, sampled: seq<Token>)
    requires cfg.blockSize > 0 && (Samples(it) ==> sampled != []) && EndsDecoding(it)
    ensures AllDecoding(UpdateItem(cfg, p, it, sampled).running)
  {
    hide Publish, ExtendHashes, FreeTable, AppendToken;
    if it.n > 0 {
      var s1 := Advance(cfg, p, it).1;
      assert s1.gen == it.s.gen && s1.computed == it.s.computed + it.n;
      TokenAppended(cfg, s1, sampled[0]);
    }
  }

  lemma {:induction false} TokenAppended(cfg: Config, s: Seq, t: Token)
    ensures |AppendToken(cfg.serving, s.params, s.gen, t).0.tokens| == |s.gen.tokens| + 1
  {
  }

  lemma {:induction false} UpdateItemsDecode(cfg: Config, p: Pool, items: seq<Item>, sampled: seq<Token>)
    requires cfg.blockSize > 0 && |sampled| == NumSampled(items) && OldEndDecoding(items)
    ensures OldDecoding(UpdateItems(cfg, p, items, sampled).running)
    ensures AllEndDecoding(items) ==> AllDecoding(UpdateItems(cfg, p, items, sampled).running)
    decreases |items|
  {
    hide UpdateItem, Decoding, EndsDecoding, Samples;
    if items != [] {
      var it, tail := items[0], items[1..];
      var u := UpdateItem(cfg, p, it, sampled);
      var rest := if Samples(it) && sampled != [] then sampled[1..] else sampled;
      AtMostOne(cfg, p, it, sampled);
      if EndsDecoding(it) {
        UpdateItemDecodes(cfg, p, it, sampled);
      }
      UpdateItemsDecode(cfg, u.pool, tail, rest);
      var v := UpdateItems(cfg, u.pool, tail, rest);
      if |items| == 1 {
        assert v.running == [];
      } else {
        assert EndsDecoding(items[0]);
      }
      if AllEndDecoding(items) {
        assert EndsDecoding(items[0]);
      }
    }
  }

  /** Every step keeps the mode's invariant. */
  lemma {:induction false} UpdateMode(cfg: Config, m: Mid, sampled: seq<Token>)
    requires cfg.blockSize > 0 && EndShape(cfg, m) && |sampled| == NumSampled(m.items)
    ensures ModeOk(cfg, Update(cfg, m, sampled).0)
  {
    hide UpdateItems, NumSampled, OldDecoding, AllDecoding, OneAtMost, BatchTokens, AllEndDecoding, OldEndDecoding;
    UpdateItemsDecode(cfg, m.pool, m.items, sampled);
  }

  lemma {:induction false} StepMode(cfg: Config, model: Model, e: Engine)
    requires ConfigOk(cfg) && EngineOk(cfg, model, e) && ModeOk(cfg, e.st)
    ensures StepEngine(cfg, model, e).Done? ==> ModeOk(cfg, StepEngine(cfg, model, e).e.st)
  {
    hide StateOk, ModeOk, EndShape, Schedule, StepEngine, Update;
    var sampled := StepIsUpdate(cfg, model, e);
    ScheduleShape(cfg, e.st);
    UpdateMode(cfg, Schedule(cfg, e.st), sampled);
  }

  // --- arrivals and aborts -----------------------------------------------------------------------------------------------

  /** Dropping by id takes out one place, or nothing. */
  lemma {:induction false} DropAt(seqs: seq<Seq>, id: int) returns (k: nat)
    ensures k <= |seqs| && DropId(seqs, id) == if k < |seqs| then seqs[..k] + seqs[k + 1..] else seqs
    decreases |seqs|
  {
    k := 0;
    if seqs != [] && seqs[0].id != id {
      var j := DropAt(seqs[1..], id);
      k := j + 1;
    }
  }

  lemma {:induction false} DropMode(seqs: seq<Seq>, id: int)
    ensures AllDecoding(seqs) ==> AllDecoding(DropId(seqs, id))
    ensures OldDecoding(seqs) ==> OldDecoding(DropId(seqs, id))
    ensures OneAtMost(seqs) ==> OneAtMost(DropId(seqs, id))
  {
    hide Decoding, DropId;
    var k := DropAt(seqs, id);
  }

  lemma {:induction false} NextMode(cfg: Config, model: Model, e: Engine, ev: Event)
    requires ConfigOk(cfg) && EngineOk(cfg, model, e) && ModeOk(cfg, e.st)
    ensures Next(cfg, model, e, ev).Done? ==> ModeOk(cfg, Next(cfg, model, e, ev).e.st)
  {
    hide EngineOk, StepEngine, AllDecoding, OldDecoding, OneAtMost, FreeTable;
    match ev
    case Add(id, prompt, params, arrival, priority) =>
    case Abort(id) =>
      if FindId(LiveSeqs(e.st), id).Some? {
        DropMode(e.st.running, id);
        DropMode(e.st.swapped, id);
      }
    case Step => StepMode(cfg, model, e);
  }
}
