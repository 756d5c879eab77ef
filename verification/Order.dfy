// Order: the requests that have been admitted keep their first-admission order through running,
// preemption and resumption, as long as swap victims and recompute victims are not mixed.
module Order {
  import opened Basics
  import opened Paging
  import opened BlockPool
  import opened Transformer
  import opened Streaming
  import opened Scheduling
  import opened Accounting
  import opened Planning
  import opened Stepping
  import opened Census
  import opened EngineRun
  import opened Requests
  import opened Modes
  import Progress

  function IdsOf(seqs: seq<Seq>): (r: seq<int>)
    ensures |r| == |seqs| && forall i :: 0 <= i < |seqs| ==> r[i] == seqs[i].id
  {
    seq(|seqs|, i requires 0 <= i < |seqs| => seqs[i].id)
  }

  /** Every place of x comes before every place of y. */
  ghost predicate Before(l: seq<int>, x: int, y: int) {
    forall i, j :: 0 <= i < |l| && 0 <= j < |l| && l[i] == x && l[j] == y ==> i < j
  }

  /** The admitted requests, in the order the engine will serve them: running, then swapped out, then
      waiting for recomputation. */
  function Lineup(m: Mid): seq<int> {
    IdsOf(Seqs(m.items) + Seqs(m.todo) + m.swapped + m.preempted)
  }

  /** x has been admitted, and y has not or stands behind x. */
  ghost predicate Ahead(m: Mid, x: int, y: int) {
    x !in IdsOf(m.waiting) && Before(Lineup(m), x, y)
  }

  /** Not both kinds of victims wait at once. */
  ghost predicate Unmixed(m: Mid) {
    m.swapped == [] || m.preempted == []
  }

  // --- removals --------------------------------------------------------------------------------------------------

  /** l' is l with places left out: place i of l' is place f[i] of l. */
  ghost predicate Thinned(l: seq<int>, l': seq<int>, f: seq<nat>) {
    && |f| == |l'|
    && (forall i :: 0 <= i < |f| ==> f[i] < |l| && l[f[i]] == l'[i])
    && (forall i, j :: 0 <= i < j < |f| ==> f[i] < f[j])
  }

  lemma {:induction false} ThinnedBefore(l: seq<int>, l': seq<int>, f: seq<nat>, x: int, y: int)
    requires Thinned(l, l', f) && Before(l, x, y)
    ensures Before(l', x, y)
    ensures x in l' ==> x in l
  {
    forall i, j | 0 <= i < |l'| && 0 <= j < |l'| && l'[i] == x && l'[j] == y ensures i < j {
      assert l[f[i]] == x && l[f[j]] == y;
      assert f[i] < f[j];
    }
  }

  /** Leaving one place out. */
  lemma {:induction false} LeaveOut(a: seq<Seq>, s: Seq, b: seq<Seq>, x: int, y: int)
    requires Before(IdsOf(a + [s] + b), x, y)
    ensures Before(IdsOf(a + b), x, y)
  {
    var l, l' := IdsOf(a + [s] + b), IdsOf(a + b);
    var f: seq<nat> := seq(|l'|, i requires 0 <= i => if i < |a| then i else i + 1);
    assert Thinned(l, l', f);
    ThinnedBefore(l, l', f, x, y);
  }

  lemma {:induction false} JoinLast(seqs: seq<Seq>, s: Seq, x: int, y: int)
    requires Before(IdsOf(seqs), x, y) && s.id != x
    ensures Before(IdsOf(seqs + [s]), x, y)
  {
    var l, l' := IdsOf(seqs), IdsOf(seqs + [s]);
    forall i, j | 0 <= i < |l'| && 0 <= j < |l'| && l'[i] == x && l'[j] == y ensures i < j {
      assert i < |seqs| && l[i] == x;
      if j < |seqs| {
        assert l[j] == y;
      }
    }
  }

  // --- single decisions --------------------------------------------------------------------------------------------

  /** Visiting, scheduling and swapping out change nobody's place; so does dropping a victim's K/V while
      nobody is swapped out. */
  lemma {:induction false} SkipHeadLineup(m: Mid)
    requires m.todo != []
    ensures Lineup(SkipHead(m)) == Lineup(m) && SkipHead(m).waiting == m.waiting
  {
  }

  lemma {:induction false} AppendHeadLineup(cfg: Config, m: Mid)
    requires cfg.blockSize > 0 && m.todo != []
    ensures Lineup(AppendHead(cfg, m)) == Lineup(m) && AppendHead(cfg, m).waiting == m.waiting
  {
    hide Grow;
  }

  lemma {:induction false} PreemptNewestLineup(cfg: Config, m: Mid)
    requires m.todo != [] && (m.swapped == [] || PreemptNewest(cfg, m).preempted == m.preempted)
    ensures Lineup(PreemptNewest(cfg, m)) == Lineup(m) && PreemptNewest(cfg, m).waiting == m.waiting
  {
    hide FreeTable;
    var m' := PreemptNewest(cfg, m);
    assert |m'.swapped| + |m'.preempted| == |m.swapped| + |m.preempted| + 1;
    assert Seqs(m'.items) + Seqs(m'.todo) == Seqs(m.items) + Seqs(m.todo)[..|m.todo| - 1];
    var a := |m.items| + |m.todo| - 1;
    forall i | 0 <= i < |Lineup(m)| ensures Lineup(m')[i] == Lineup(m)[i] {
      if i > a {
        if m'.preempted == m.preempted {
          if i < a + 1 + |m.swapped| {
            assert m'.swapped[i - a] == m.swapped[i - a - 1];
          }
        } else {
          assert m'.preempted[i - a] == m.preempted[i - a - 1];
        }
      }
    }
  }

  /** A preemption changes somebody's place exactly when it drops a victim's K/V, host space being full
      or swapping off, while others are swapped out: the victim then falls behind them. */
  lemma {:induction false} PreemptKeepsOrder(cfg: Config, m: Mid)
    requires cfg.blockSize > 0 && m.todo != [] && MidOk(cfg, m)
    ensures Lineup(PreemptNewest(cfg, m)) == Lineup(m)
      <==> m.swapped == [] || (cfg.swap && |m.todo[|m.todo| - 1].s.table| <= |m.pool.cpuFree|)
  {
    var m' := PreemptNewest(cfg, m);
    VictimBySpace(cfg, m);
    hide PreemptNewest, MidOk;
    if m.swapped == [] || m'.preempted == m.preempted {
      PreemptNewestLineup(cfg, m);
    } else {
      var a := |m.items| + |m.todo| - 1;
      PreemptLength(cfg, m);
      assert Lineup(m)[a] == m.todo[|m.todo| - 1].s.id;
      assert Lineup(m')[a] == m.swapped[0].id;
      VictimApart(cfg, m);
    }
  }

  lemma {:induction false} VictimBySpace(cfg: Config, m: Mid)
    requires m.todo != []
    ensures var m', v := PreemptNewest(cfg, m), m.todo[|m.todo| - 1].s;
      if cfg.swap && |v.table| <= |m.pool.cpuFree| then m'.preempted == m.preempted
      else |m'.preempted| == |m.preempted| + 1 && m'.swapped == m.swapped
  {
    hide FreeTable;
  }

  /** The newest running request and the oldest swapped one are two requests. */
  lemma {:induction false} VictimApart(cfg: Config, m: Mid)
    requires cfg.blockSize > 0 && MidOk(cfg, m) && m.todo != [] && m.swapped != []
    ensures m.todo[|m.todo| - 1].s.id != m.swapped[0].id
  {
    hide Valid, CpuValid, ItemsOk, TodosOk, QueuesOk, Total;
    var id, v := m.swapped[0].id, Seqs(m.todo)[|m.todo| - 1];
    TotalHas(Seqs(m.todo), |m.todo| - 1, IdOf);
    TotalHas(m.swapped, 0, IdOf);
    assert IdOf(v)[v.id] == 1 && IdOf(m.swapped[0])[id] == 1;
    assert Total(Seqs(m.todo), IdOf)[v.id] >= 1 && Total(m.swapped, IdOf)[id] >= 1;
    assert Ids(m)[id] >= Total(Seqs(m.todo), IdOf)[id] + Total(m.swapped, IdOf)[id];
  }

  lemma {:induction false} FailHeadAhead(m: Mid, x: int, y: int)
    requires m.todo != [] && Ahead(m, x, y)
    ensures Ahead(FailHead(m), x, y)
  {
    hide Fail;
    var m1 := m.(todo := m.todo[1..]);
    FailShape(m1, m.todo[0].s);
    var b := Seqs(m1.todo) + m.swapped + m.preempted;
    assert Seqs(m.items) + Seqs(m.todo) + m.swapped + m.preempted == Seqs(m.items) + [m.todo[0].s] + b;
    assert Seqs(m.items) + Seqs(m1.todo) + m.swapped + m.preempted == Seqs(m.items) + b;
    LeaveOut(Seqs(m.items), m.todo[0].s, b, x, y);
  }

  lemma {:induction false} FailSwappedAhead(m: Mid, x: int, y: int)
    requires m.swapped != [] && Ahead(m, x, y)
    ensures Ahead(FailSwapped(m), x, y)
  {
    hide Fail;
    var m1 := m.(swapped := m.swapped[1..]);
    FailShape(m1, m.swapped[0]);
    var a, b := Seqs(m.items) + Seqs(m.todo), m.swapped[1..] + m.preempted;
    assert a + m.swapped + m.preempted == a + [m.swapped[0]] + b;
    assert a + m1.swapped + m.preempted == a + b;
    LeaveOut(a, m.swapped[0], b, x, y);
  }

  lemma {:induction false} FailNextAhead(m: Mid, x: int, y: int)
    requires NextUp(m).Some? && Ahead(m, x, y)
    ensures Ahead(FailNext(m), x, y)
  {
    hide Fail;
    var m1 := PopNextUp(m);
    FailShape(m1, NextUp(m).value);
    if m.preempted != [] {
      var a := Seqs(m.items) + Seqs(m.todo) + m.swapped;
      assert a + m.preempted == a + [m.preempted[0]] + m.preempted[1..];
      LeaveOut(a, m.preempted[0], m.preempted[1..], x, y);
    } else {
      assert forall i :: 0 <= i < |m1.waiting| ==> IdsOf(m1.waiting)[i] == IdsOf(m.waiting)[i + 1];
    }
  }

  /** Coming back from the host keeps everybody's place. */
  lemma {:induction false} SwapInOneLineup(cfg: Config, m: Mid, n: nat)
    requires cfg.blockSize > 0 && m.swapped != [] && m.todo == []
    ensures Lineup(SwapInOne(cfg, m, n)) == Lineup(m)
    ensures SwapInOne(cfg, m, n).waiting == m.waiting && SwapInOne(cfg, m, n).todo == []
  {
    hide Grow;
    var m' := SwapInOne(cfg, m, n);
    assert |m'.items| == |m.items| + 1 && m'.items[|m.items|].s.id == m.swapped[0].id;
  }

  /** A recompute victim resumes in its place; a new request joins behind everybody admitted. */
  lemma {:induction false} AdmitOneAhead(cfg: Config, m: Mid, s: Seq, n: nat, cached: seq<Block>, x: int, y: int)
    requires cfg.blockSize > 0 && NextUp(m).Some? && m.todo == [] && m.swapped == [] && s.id == NextUp(m).value.id && Ahead(m, x, y)
    ensures Ahead(AdmitOne(cfg, m, s, n, cached), x, y)
  {
    hide Grow, PinAll;
    var m' := AdmitOne(cfg, m, s, n, cached);
    var it := m'.items[|m.items|];
    assert m'.items == m.items + [it] && it.s.id == s.id;
    if m.preempted != [] {
      assert Lineup(m') == Lineup(m);
    } else {
      assert IdsOf(m.waiting)[0] == s.id;
      assert forall i :: 0 <= i < |m'.waiting| ==> IdsOf(m'.waiting)[i] == IdsOf(m.waiting)[i + 1];
      assert Seqs(m.items) + Seqs(m.todo) + m.swapped + m.preempted == Seqs(m.items);
      JoinLast(Seqs(m.items), it.s, x, y);
      assert Seqs(m'.items) + Seqs(m'.todo) + m'.swapped + m'.preempted == Seqs(m.items) + [it.s];
    }
  }

  lemma {:induction false} NoteNextAhead(m: Mid, s: Seq, x: int, y: int)
    requires NextUp(m).Some? && s.id == NextUp(m).value.id && Ahead(m, x, y)
    ensures Ahead(NoteNext(m, s), x, y)
  {
    assert Lineup(NoteNext(m, s)) == Lineup(m);
    assert IdsOf(NoteNext(m, s).waiting) == IdsOf(m.waiting);
  }

  // --- loops -------------------------------------------------------------------------------------------------------

  /** The running pass only adds victims; when it preempts nobody it touches neither queue nor copies. */
  lemma {:induction false} RunLoopVictims(cfg: Config, m: Mid)
    requires cfg.blockSize > 0
    ensures var r := RunLoop(cfg, m);
      && |m.swapped| <= |r.swapped| && |m.preempted| <= |r.preempted|
      && m.numPreempted <= r.numPreempted && r.swapIn == m.swapIn && r.waiting == m.waiting
      && (r.numPreempted == m.numPreempted ==>
            r.swapped == m.swapped && r.preempted == m.preempted && r.swapOut == m.swapOut)
    decreases |m.todo|
  {
    hide CanAppend, Fail, AppendSlots, FreeSeq, CanSwapOut;
    if m.todo != [] {
      if m.todo[0].n == 0 {
        RunLoopVictims(cfg, SkipHead(m));
      } else if CanAppend(cfg, m.pool, m.todo[0].s, m.todo[0].n) {
        RunLoopVictims(cfg, AppendHead(cfg, m));
      } else if |m.todo| > 1 {
        RunLoopVictims(cfg, PreemptNewest(cfg, m));
      } else if m.items == [] {
        FailShape(m.(todo := m.todo[1..]), m.todo[0].s);
      }
    }
  }

  lemma {:induction false} PreemptNewestAhead(cfg: Config, m: Mid, x: int, y: int)
    requires m.todo != [] && Ahead(m, x, y) && Unmixed(PreemptNewest(cfg, m))
    ensures Ahead(PreemptNewest(cfg, m), x, y)
  {
    VictimQueue(cfg, m);
    hide PreemptNewest;
    PreemptNewestLineup(cfg, m);
  }

  lemma {:induction false} VictimQueue(cfg: Config, m: Mid)
    requires m.todo != []
    ensures var m' := PreemptNewest(cfg, m);
      (m'.preempted == m.preempted && m'.swapped != []) || (m'.preempted != [] && m'.swapped == m.swapped)
  {
    hide FreeTable;
  }

  lemma {:induction false} RunLoopAhead(cfg: Config, m: Mid, x: int, y: int)
    requires cfg.blockSize > 0 && Ahead(m, x, y) && Unmixed(RunLoop(cfg, m))
    ensures Ahead(RunLoop(cfg, m), x, y)
    decreases |m.todo|
  {
    hide CanAppend, Fail, AppendSlots, Preempt, Lineup, Before;
    if m.todo != [] {
      if m.todo[0].n == 0 {
        SkipHeadLineup(m);
        RunLoopAhead(cfg, SkipHead(m), x, y);
      } else if CanAppend(cfg, m.pool, m.todo[0].s, m.todo[0].n) {
        AppendHeadLineup(cfg, m);
        RunLoopAhead(cfg, AppendHead(cfg, m), x, y);
      } else if |m.todo| > 1 {
        RunLoopVictims(cfg, PreemptNewest(cfg, m));
        PreemptNewestAhead(cfg, m, x, y);
        PreemptLength(cfg, m);
        RunLoopAhead(cfg, PreemptNewest(cfg, m), x, y);
      } else if m.items == [] {
        FailHeadAhead(m, x, y);
      } else {
        PreemptNewestAhead(cfg, m, x, y);
      }
    }
  }

  lemma {:induction false} SwapInLoopAhead(cfg: Config, m: Mid, budget: Option<int>, x: int, y: int)
    requires cfg.blockSize > 0 && m.todo == [] && Ahead(m, x, y)
    ensures var r := SwapInLoop(cfg, m, budget);
      Ahead(r, x, y) && r.preempted == m.preempted && r.waiting == m.waiting && |r.swapped| <= |m.swapped| && r.todo == []
    decreases |m.swapped|
  {
    hide CanSwapIn, SwapInTokens, Fail, SwapIn, AppendSlots, Lineup, Before;
    if m.swapped != [] && |m.items| < cfg.maxNumSeqs {
      var n := SwapInTokens(m.swapped[0], budget);
      if n > 0 {
        if CanSwapIn(cfg, m.pool, m.swapped[0], n, m.items != []) {
          SwapInOneLineup(cfg, m, n);
          SwapInLoopAhead(cfg, SwapInOne(cfg, m, n), Spend(budget, n), x, y);
        } else if m.items == [] {
          FailSwappedAhead(m, x, y);
          FailShape(m.(swapped := m.swapped[1..]), m.swapped[0]);
          SwapInLoopAhead(cfg, FailSwapped(m), budget, x, y);
        }
      }
    }
  }

  lemma {:induction false} CachedPrefixId(cfg: Config, p: Pool, s: Seq)
    requires cfg.blockSize > 0
    ensures CachedPrefix(cfg, p, s).0.id == s.id
  {
  }

  lemma {:induction false} AdmitLoopAhead(cfg: Config, m: Mid, budget: int, x: int, y: int)
    requires cfg.blockSize > 0 && m.todo == [] && m.swapped == [] && Ahead(m, x, y)
    ensures var r := AdmitLoop(cfg, m, budget); Ahead(r, x, y) && r.swapped == [] && r.todo == []
    decreases |m.preempted| + |m.waiting|
  {
    hide Admissible, CachedPrefix, AdmitTokens, BlocksFor, Fail, Allocate, Lineup, Before;
    if budget > 0 && |m.items| < cfg.maxNumSeqs && NextUp(m).Some? {
      if BlocksFor(cfg.blockSize, NumTokens(NextUp(m).value)) > cfg.numBlocks {
        FailNextAhead(m, x, y);
        FailShape(PopNextUp(m), NextUp(m).value);
        AdmitLoopAhead(cfg, FailNext(m), budget, x, y);
      } else {
        var (s, cached) := CachedPrefix(cfg, m.pool, NextUp(m).value);
        CachedPrefixId(cfg, m.pool, NextUp(m).value);
        if Admissible(cfg, m, s, cached, budget) {
          var n := AdmitTokens(cfg, s, cached, budget);
          AdmissibleTokens(cfg, m, s, cached, budget);
          AdmitOneAhead(cfg, m, s, n, cached, x, y);
          AdmitLoopAhead(cfg, AdmitOne(cfg, m, s, n, cached), budget - n, x, y);
        } else {
          NoteNextAhead(m, s, x, y);
        }
      }
    }
  }

  lemma {:induction false} ReplanLineup(cfg: Config, m: Mid)
    requires m.todo == [] && forall i :: 0 <= i < |m.items| ==> Uncomputed(m.items[i].s) >= 1
    ensures Lineup(m.(items := [], todo := Plan(cfg, Seqs(m.items)))) == Lineup(m)
  {
    hide Plan;
    PlanOk(cfg, Seqs(m.items));
    var plan := Plan(cfg, Seqs(m.items));
    assert Seqs(plan) == Seqs(m.items) && Seqs([]) == [];
  }

  lemma {:induction false} ScheduleRunningAhead(cfg: Config, m: Mid, x: int, y: int)
    requires cfg.blockSize > 0 && MidOk(cfg, m) && m.todo == [] && Ahead(m, x, y) && Unmixed(ScheduleRunning(cfg, m))
    ensures Ahead(ScheduleRunning(cfg, m), x, y)
  {
    hide MidOk, RunLoop, Plan, Lineup, Before;
    HaveWork(cfg, m);
    ReplanLineup(cfg, m);
    RunLoopAhead(cfg, m.(items := [], todo := Plan(cfg, Seqs(m.items))), x, y);
  }

  lemma {:induction false} ScheduleRunningVictims(cfg: Config, m: Mid)
    requires cfg.blockSize > 0 && m.numPreempted == 0
    ensures var r := ScheduleRunning(cfg, m);
      && r.swapIn == m.swapIn && r.waiting == m.waiting
      && (r.numPreempted == 0 ==> r.swapped == m.swapped && r.preempted == m.preempted && r.swapOut == m.swapOut)
  {
    RunLoopVictims(cfg, m.(items := [], todo := Plan(cfg, Seqs(m.items))));
  }

  lemma {:induction false} ChunkedAhead(cfg: Config, m: Mid, x: int, y: int)
    requires cfg.blockSize > 0 && MidOk(cfg, m) && m.todo == [] && AllIdle(m.items) && m.numPreempted == 0
    requires Ahead(m, x, y) && Unmixed(m) && Unmixed(ScheduleChunked(cfg, m))
    ensures Ahead(ScheduleChunked(cfg, m), x, y)
  {
    hide MidOk, AdmitLoop, SwapInLoop, ScheduleRunning, BatchTokens, Lineup, Before;
    ScheduleRunningOk(cfg, m);
    ScheduleRunningVictims(cfg, m);
    ScheduleRunningAhead(cfg, m, x, y);
    var m1 := ScheduleRunning(cfg, m);
    if m1.numPreempted == 0 {
      var b1 := Some(cfg.maxBatchTokens - BatchTokens(m1.items));
      SwapInLoopAhead(cfg, m1, b1, x, y);
      var m2 := SwapInLoop(cfg, m1, b1);
      if m2.swapped == [] {
        AdmitLoopAhead(cfg, m2, cfg.maxBatchTokens - BatchTokens(m2.items), x, y);
      }
    }
  }

  lemma {:induction false} PriorityAhead(cfg: Config, m: Mid, x: int, y: int)
    requires cfg.blockSize > 0 && MidOk(cfg, m) && m.todo == [] && AllIdle(m.items) && m.numPreempted == 0
    requires Ahead(m, x, y) && Unmixed(m) && Unmixed(SchedulePrefillPriority(cfg, m))
    ensures Ahead(SchedulePrefillPriority(cfg, m), x, y)
  {
    hide MidOk, AdmitLoop, SwapInLoop, ScheduleRunning, Batch, Lineup, Before;
    var m1 := m;
    if m.swapped == [] {
      AdmitLoopOk(cfg, m, cfg.maxBatchTokens);
      AdmitLoopAhead(cfg, m, cfg.maxBatchTokens, x, y);
      m1 := AdmitLoop(cfg, m, cfg.maxBatchTokens);
      NobodyPreempted(cfg, m);
    }
    BatchEmptyIdle(m1.items);
    if Batch(m1.items) == [] {
      ScheduleRunningOk(cfg, m1);
      ScheduleRunningVictims(cfg, m1);
      ScheduleRunningAhead(cfg, m1, x, y);
      if ScheduleRunning(cfg, m1).numPreempted == 0 {
        SwapInLoopAhead(cfg, ScheduleRunning(cfg, m1), None, x, y);
      }
    }
  }

  lemma {:induction false} NobodyPreempted(cfg: Config, m: Mid)
    requires cfg.blockSize > 0
    ensures AdmitLoop(cfg, m, cfg.maxBatchTokens).numPreempted == m.numPreempted
  {
    Progress.AdmitLoopCounts(cfg, m, cfg.maxBatchTokens);
  }

  /** A step's planning keeps the order. */
  lemma {:induction false} ScheduleAhead(cfg: Config, st: State, x: int, y: int)
    requires cfg.blockSize > 0 && StateOk(cfg, st) && Ahead(Begin(st), x, y)
    requires Unmixed(Begin(st)) && Unmixed(Schedule(cfg, st))
    ensures Ahead(Schedule(cfg, st), x, y)
  {
    hide MidOk, ScheduleChunked, SchedulePrefillPriority, Ahead;
    if cfg.chunked {
      ChunkedAhead(cfg, Begin(st), x, y);
    } else {
      PriorityAhead(cfg, Begin(st), x, y);
    }
  }

  // --- taking results, arrivals and aborts ----------------------------------------------------------------------------

  lemma {:induction false} UpdateItemId(cfg: Config, p: Pool, it: Item, sampled: seq<Token>)
    requires cfg.blockSize > 0
    ensures var u := UpdateItem(cfg, p, it, sampled);
      |u.running| <= 1 && (u.running != [] ==> u.running[0].id == it.s.id)
  {
    hide Publish, ExtendHashes, FreeTable, AppendToken;
  }

  /** Thinning a list whose first place stays, or goes. */
  lemma {:induction false} ThinnedCons(x: int, l: seq<int>, l': seq<int>, g: seq<nat>) returns (f: seq<nat>, h: seq<nat>)
    requires Thinned(l, l', g)
    ensures Thinned([x] + l, l', f) && Thinned([x] + l, [x] + l', h)
  {
    f := seq(|g|, i requires 0 <= i < |g| => g[i] + 1);
    h := [0] + f;
  }

  lemma {:induction false} ThinnedItems(items: seq<Item>, first: seq<Seq>, rest: seq<Seq>, g: seq<nat>) returns (f: seq<nat>)
    requires items != [] && |first| <= 1 && (first != [] ==> first[0].id == items[0].s.id)
    requires Thinned(IdsOf(Seqs(items[1..])), IdsOf(rest), g)
    ensures Thinned(IdsOf(Seqs(items)), IdsOf(first + rest), f)
  {
    hide Thinned;
    var out, stay := ThinnedCons(items[0].s.id, IdsOf(Seqs(items[1..])), IdsOf(rest), g);
    assert IdsOf(Seqs(items)) == [items[0].s.id] + IdsOf(Seqs(items[1..]));
    if first == [] {
      assert first + rest == rest;
      f := out;
    } else {
      assert IdsOf(first + rest) == [items[0].s.id] + IdsOf(rest);
      f := stay;
    }
  }

  /** Finished requests leave; the others keep their places. */
  lemma {:induction false} UpdateThins(cfg: Config, p: Pool, items: seq<Item>, sampled: seq<Token>) returns (f: seq<nat>)
    requires cfg.blockSize > 0
    ensures Thinned(IdsOf(Seqs(items)), IdsOf(UpdateItems(cfg, p, items, sampled).running), f)
    decreases |items|
  {
    hide UpdateItem, Thinned, Samples;
    if items == [] {
      f := [];
      NobodyThinned();
      assert IdsOf(Seqs(items)) == [] && IdsOf([]) == [];
    } else {
      var u := UpdateItem(cfg, p, items[0], sampled);
      UpdateItemId(cfg, p, items[0], sampled);
      var rest := if Samples(items[0]) && sampled != [] then sampled[1..] else sampled;
      var g := UpdateThins(cfg, u.pool, items[1..], rest);
      f := ThinnedItems(items, u.running, UpdateItems(cfg, u.pool, items[1..], rest).running, g);
    }
  }

  lemma {:induction false} NobodyThinned()
    ensures Thinned([], [], [])
  {
  }

  lemma {:induction false} ThinnedFront(l: seq<int>, l': seq<int>, f: seq<nat>, tail: seq<int>) returns (g: seq<nat>)
    requires Thinned(l, l', f)
    ensures Thinned(l + tail, l' + tail, g)
  {
    g := f + seq(|tail|, i requires 0 <= i => |l| + i);
  }

  lemma {:induction false} UpdateAhead(cfg: Config, m: Mid, sampled: seq<Token>, x: int, y: int)
    requires cfg.blockSize > 0 && m.todo == [] && Ahead(m, x, y)
    ensures Ahead(Begin(Update(cfg, m, sampled).0), x, y)
  {
    hide UpdateItems, Before, Thinned;
    var u := UpdateItems(cfg, m.pool, m.items, sampled);
    var f := UpdateThins(cfg, m.pool, m.items, sampled);
    var tail := IdsOf(m.swapped + m.preempted);
    var g := ThinnedFront(IdsOf(Seqs(m.items)), IdsOf(u.running), f, tail);
    var m' := Begin(Update(cfg, m, sampled).0);
    IdleConcat(u.running, []);
    assert Seqs(m'.todo) == [] && Seqs(m.todo) == [];
    assert Lineup(m) == IdsOf(Seqs(m.items)) + tail;
    assert Lineup(m') == IdsOf(u.running) + tail;
    ThinnedBefore(Lineup(m), Lineup(m'), g, x, y);
  }

  /** A step keeps the order when it mixes no victims. */
  lemma {:induction false} StepAhead(cfg: Config, model: Model, e: Engine, x: int, y: int)
    requires cfg.blockSize > 0 && EngineOk(cfg, model, e) && Ahead(Begin(e.st), x, y) && Unmixed(Begin(e.st))
    requires StepEngine(cfg, model, e).Done? && Unmixed(Begin(StepEngine(cfg, model, e).e.st))
    ensures Ahead(Begin(StepEngine(cfg, model, e).e.st), x, y)
  {
    hide StateOk, Schedule, StepEngine, Ahead, UpdateItems;
    var sampled := StepIsUpdate(cfg, model, e);
    ScheduleOk(cfg, e.st);
    ScheduleAhead(cfg, e.st, x, y);
    UpdateAhead(cfg, Schedule(cfg, e.st), sampled, x, y);
  }

  lemma {:induction false} EnqueueIds(cfg: Config, waiting: seq<Seq>, s: Seq, x: int)
    requires s.id != x && x !in IdsOf(waiting)
    ensures x !in IdsOf(Enqueue(cfg, waiting, s))
  {
    EnqueueMembers(cfg, waiting, s);
    var w := Enqueue(cfg, waiting, s);
    forall i | 0 <= i < |w| ensures w[i].id != x {
      assert w[i] in w;
      if w[i] != s {
        var j :| 0 <= j < |waiting| && waiting[j] == w[i];
        assert IdsOf(waiting)[j] == w[i].id;
      }
    }
  }

  lemma {:induction false} DropThins(seqs: seq<Seq>, id: int) returns (f: seq<nat>)
    ensures Thinned(IdsOf(seqs), IdsOf(DropId(seqs, id)), f)
  {
    var k := DropAt(seqs, id);
    hide DropId;
    var n := |DropId(seqs, id)|;
    f := seq(n, i requires 0 <= i => if i < k then i else i + 1);
  }

  lemma {:induction false} ThinnedBack(head: seq<int>, l: seq<int>, l': seq<int>, f: seq<nat>) returns (g: seq<nat>)
    requires Thinned(l, l', f)
    ensures Thinned(head + l, head + l', g)
  {
    g := seq(|head|, i requires 0 <= i => i) + seq(|f|, i requires 0 <= i < |f| => |head| + f[i]);
  }

  lemma {:induction false} BeginLineup(st: State)
    ensures Lineup(Begin(st)) == IdsOf(st.running) + IdsOf(st.swapped) + IdsOf(st.preempted)
    ensures Lineup(Begin(st)) == IdsOf(st.running) + (IdsOf(st.swapped) + IdsOf(st.preempted))
    ensures Begin(st).waiting == st.waiting
  {
    IdleConcat(st.running, []);
    assert Seqs(Begin(st).todo) == [];
  }

  /** Leaving one of the three lists thins the line-up. */
  lemma {:induction false} AbortAhead(e: Engine, id: int, x: int, y: int)
    requires Ahead(Begin(e.st), x, y)
    ensures Ahead(Begin(AbortRequest(e, id).st), x, y)
  {
    hide DropId, FindId, FreeTable, Before, Thinned, Lineup;
    var st, st' := e.st, AbortRequest(e, id).st;
    BeginLineup(st);
    BeginLineup(st');
    var a, b, c := IdsOf(st.running), IdsOf(st.swapped), IdsOf(st.preempted);
    var fa := DropThins(st.running, id);
    var fb := DropThins(st.swapped, id);
    var fc := DropThins(st.preempted, id);
    var fw := DropThins(st.waiting, id);
    var ga := ThinnedFront(a, IdsOf(DropId(st.running, id)), fa, b + c);
    var gb := ThinnedFront(b, IdsOf(DropId(st.swapped, id)), fb, c);
    var gb' := ThinnedBack(a, b + c, IdsOf(DropId(st.swapped, id)) + c, gb);
    var gc := ThinnedBack(a + b, c, IdsOf(DropId(st.preempted, id)), fc);
    ThinnedBefore(a + (b + c), IdsOf(DropId(st.running, id)) + (b + c), ga, x, y);
    ThinnedBefore(a + (b + c), a + (IdsOf(DropId(st.swapped, id)) + c), gb', x, y);
    ThinnedBefore(a + b + c, a + b + IdsOf(DropId(st.preempted, id)), gc, x, y);
    StillNotIn(IdsOf(st.waiting), IdsOf(DropId(st.waiting, id)), fw, x);
  }

  lemma {:induction false} StillNotIn(l: seq<int>, l': seq<int>, f: seq<nat>, x: int)
    requires Thinned(l, l', f) && x !in l
    ensures x !in l'
  {
    forall i | 0 <= i < |l'| ensures l'[i] != x {
      assert l[f[i]] == l'[i];
    }
  }

  // --- whole runs --------------------------------------------------------------------------------------------------

  /** No state of the run has both swapped-out requests and requests waiting for recomputation. */
  ghost predicate NeverMixes(cfg: Config, model: Model, e: Engine, events: seq<Event>)
    requires cfg.blockSize > 0
    decreases |events|
  {
    Unmixed(Begin(e.st)) &&
    (events != [] && Next(cfg, model, e, events[0]).Done? ==>
       NeverMixes(cfg, model, Next(cfg, model, e, events[0]).e, events[1..]))
  }

  ghost predicate AddsAgain(ev: Event, x: int) {
    ev.Add? && ev.id == x
  }

  lemma {:induction false} NextAhead(cfg: Config, model: Model, e: Engine, ev: Event, x: int, y: int)
    requires cfg.blockSize > 0 && EngineOk(cfg, model, e) && Ahead(Begin(e.st), x, y) && !AddsAgain(ev, x)
    requires Unmixed(Begin(e.st)) && Next(cfg, model, e, ev).Done? && Unmixed(Begin(Next(cfg, model, e, ev).e.st))
    ensures Ahead(Begin(Next(cfg, model, e, ev).e.st), x, y)
  {
    hide EngineOk, StepEngine, Before, Unmixed;
    match ev
    case Add(id, prompt, params, arrival, priority) =>
      if Acceptable(cfg, prompt, params) && FindId(LiveSeqs(e.st), id).None? {
        EnqueueIds(cfg, e.st.waiting, NewSeq(cfg, id, prompt, params, arrival, priority), x);
      }
    case Abort(id) => AbortAhead(e, id, x, y);
    case Step => StepAhead(cfg, model, e, x, y);
  }

  /** Over a whole run, a request admitted before another stays ahead of it until it leaves. */
  lemma {:induction false} RunKeepsOrder(cfg: Config, model: Model, e: Engine, events: seq<Event>, x: int, y: int)
    requires cfg.blockSize > 0 && EngineOk(cfg, model, e) && Ahead(Begin(e.st), x, y)
    requires NeverMixes(cfg, model, e, events) && forall i :: 0 <= i < |events| ==> !AddsAgain(events[i], x)
    ensures Run(cfg, model, e, events).Done? ==> Ahead(Begin(Run(cfg, model, e, events).e.st), x, y)
    decreases |events|
  {
    hide EngineOk, Next, Ahead, AddsAgain, Unmixed;
    if events != [] {
      var r := Next(cfg, model, e, events[0]);
      if r.Done? {
        NextOk(cfg, model, e, events[0]);
        NextAhead(cfg, model, e, events[0], x, y);
        RunKeepsOrder(cfg, model, r.e, events[1..], x, y);
      }
    }
  }

  // --- recompute mode never mixes ------------------------------------------------------------------------------------

  lemma {:induction false} RecomputeLoop(cfg: Config, m: Mid)
    requires cfg.blockSize > 0 && !cfg.swap && m.swapped == []
    ensures RunLoop(cfg, m).swapped == []
    decreases |m.todo|
  {
    hide CanAppend, Fail, AppendSlots, FreeSeq;
    if m.todo != [] {
      if m.todo[0].n == 0 {
        RecomputeLoop(cfg, SkipHead(m));
      } else if CanAppend(cfg, m.pool, m.todo[0].s, m.todo[0].n) {
        RecomputeLoop(cfg, AppendHead(cfg, m));
      } else if |m.todo| > 1 {
        RecomputeLoop(cfg, PreemptNewest(cfg, m));
      } else if m.items == [] {
        FailShape(m.(todo := m.todo[1..]), m.todo[0].s);
      }
    }
  }

  lemma {:induction false} RecomputeSchedule(cfg: Config, st: State)
    requires cfg.blockSize > 0 && !cfg.swap && st.swapped == []
    ensures Schedule(cfg, st).swapped == []
  {
    hide RunLoop, AdmitLoop, Batch, BatchTokens, Plan;
    var m := Begin(st);
    var m1 := if cfg.chunked then m else AdmitLoop(cfg, m, cfg.maxBatchTokens);
    Progress.AdmitLoopCounts(cfg, m, cfg.maxBatchTokens);
    RecomputeLoop(cfg, m1.(items := [], todo := Plan(cfg, Seqs(m1.items))));
    var m2 := ScheduleRunning(cfg, m1);
    Progress.AdmitLoopCounts(cfg, m2, cfg.maxBatchTokens - BatchTokens(m2.items));
  }

  /** In recompute mode nothing is ever swapped out. */
  lemma {:induction false} NextRecompute(cfg: Config, model: Model, e: Engine, ev: Event)
    requires cfg.blockSize > 0 && !cfg.swap && e.st.swapped == []
    ensures Next(cfg, model, e, ev).Done? ==> Next(cfg, model, e, ev).e.st.swapped == []
  {
    hide Schedule, FindId, RunBatch, UpdateItems, Batch;
    RecomputeSchedule(cfg, e.st);
  }

  /** So in recompute mode every run keeps the admission order. */
  lemma {:induction false} RecomputeNeverMixes(cfg: Config, model: Model, e: Engine, events: seq<Event>)
    requires cfg.blockSize > 0 && !cfg.swap && e.st.swapped == []
    ensures NeverMixes(cfg, model, e, events)
    decreases |events|
  {
    hide Next;
    if events != [] {
      NextRecompute(cfg, model, e, events[0]);
      if Next(cfg, model, e, events[0]).Done? {
        RecomputeNeverMixes(cfg, model, Next(cfg, model, e, events[0]).e, events[1..]);
      }
    }
  }
}
