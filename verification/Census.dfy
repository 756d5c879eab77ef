// Planning a step neither loses, duplicates nor alters a request: it only moves requests between
// queues, and those that leave the engine leave with an error and are reported.
module Census {
  import opened Basics
  import opened Paging
  import opened BlockPool
  import opened Streaming
  import opened Scheduling
  import opened Planning
  import opened Stepping

  /** What planning must not change about a request: everything but its place and its tables. */
  function Core(s: Seq): Seq {
    s.(table := [], cpuTable := [], computed := 0, hashes := [], registered := 0, status := Waiting, reason := None)
  }

  function CoreOf(s: Seq): multiset<Seq> { multiset{Core(s)} }

  ghost function LiveCores(m: Mid): multiset<Seq> {
    Total(Seqs(m.items), CoreOf) + Total(Seqs(m.todo), CoreOf)
    + Total(m.swapped, CoreOf) + Total(m.preempted, CoreOf) + Total(m.waiting, CoreOf)
  }

  function Failures(seqs: seq<Seq>): (r: seq<Output>)
    ensures |r| == |seqs| && forall i :: 0 <= i < |seqs| ==> r[i] == FailureOutput(seqs[i])
  {
    seq(|seqs|, i requires 0 <= i < |seqs| => FailureOutput(seqs[i]))
  }

  ghost predicate HasFailed(s: Seq) {
    s.status == Finished && s.reason == Some(Error) && s.table == [] && s.cpuTable == []
  }

  /** From m to m' requests only move, and those in `gone` have failed and been reported. */
  ghost predicate Moves(m: Mid, m': Mid, gone: seq<Seq>) {
    && m'.retired == m.retired + gone
    && m'.outputs == m.outputs + Failures(gone)
    && (forall i :: 0 <= i < |gone| ==> HasFailed(gone[i]))
    && LiveCores(m) == LiveCores(m') + Total(gone, CoreOf)
  }

  lemma {:induction false} MovesNothing(m: Mid, m': Mid)
    requires m'.retired == m.retired && m'.outputs == m.outputs && LiveCores(m') == LiveCores(m)
    ensures Moves(m, m', [])
  {
    assert Failures([]) == [];
    NoTotal(CoreOf);
  }

  lemma {:induction false} Regroup<T>(a: multiset<T>, b: multiset<T>, c: multiset<T>, x: multiset<T>, y: multiset<T>,
                                      xy: multiset<T>)
    requires a == b + x && b == c + y && xy == x + y
    ensures a == c + xy
  {
  }

  lemma {:induction false} MovesThen(m: Mid, m1: Mid, m2: Mid, a: seq<Seq>, b: seq<Seq>)
    requires Moves(m, m1, a) && Moves(m1, m2, b)
    ensures Moves(m, m2, a + b)
  {
    hide LiveCores, HasFailed, FailureOutput, Total;
    TotalConcat(a, b, CoreOf);
    Regroup(LiveCores(m), LiveCores(m1), LiveCores(m2), Total(a, CoreOf), Total(b, CoreOf), Total(a + b, CoreOf));
    assert Failures(a + b) == Failures(a) + Failures(b);
  }

  /** Failing a request in hand. */
  lemma {:induction false} FailMoves(m: Mid, m1: Mid, s: Seq)
    requires m1.retired == m.retired && m1.outputs == m.outputs && LiveCores(m) == LiveCores(m1) + multiset{Core(s)}
    ensures exists gone :: Moves(m, Fail(m1, s), gone) && |gone| == 1
  {
    hide FreeTable, Total;
    var m2 := Fail(m1, s);
    var f := m2.retired[|m.retired|];
    assert Core(f) == Core(s) && HasFailed(f) && FailureOutput(f) == FailureOutput(s);
    hide Fail, Core, HasFailed, FailureOutput;
    FailShape(m1, s);
    FailAppends(m1, s);
    assert m2.retired == m.retired + [f];
    TotalFront(f, [], CoreOf);
    NoTotal(CoreOf);
    assert [f] + [] == [f];
    assert Total([f], CoreOf) == multiset{Core(s)};
    assert LiveCores(m2) == LiveCores(m1);
    assert Failures([f]) == [FailureOutput(s)];
    assert Moves(m, m2, [f]);
  }

  lemma {:induction false} FailAppends(m: Mid, s: Seq)
    ensures |Fail(m, s).retired| == |m.retired| + 1 && m.retired <= Fail(m, s).retired
    ensures Fail(m, s).outputs == m.outputs + [FailureOutput(s)]
  {
  }

  lemma {:induction false} TotalFront<T>(s: Seq, seqs: seq<Seq>, f: Seq -> multiset<T>)
    ensures Total([s] + seqs, f) == f(s) + Total(seqs, f)
  {
    assert ([s] + seqs)[1..] == seqs;
  }

  // --- each decision -------------------------------------------------------------------------------------------

  lemma {:induction false} SkipHeadMoves(m: Mid)
    requires m.todo != []
    ensures Moves(m, SkipHead(m), [])
  {
    hide Total;
    HeadMoves(m.items, m.todo, Item(m.todo[0].s, 0), CoreOf);
    assert LiveCores(SkipHead(m)) == LiveCores(m);
    MovesNothing(m, SkipHead(m));
  }

  lemma {:induction false} AppendHeadMoves(cfg: Config, m: Mid)
    requires cfg.blockSize > 0 && m.todo != []
    ensures Moves(m, AppendHead(cfg, m), [])
  {
    hide Total, Grow;
    var Item(s, n) := m.todo[0];
    var s' := AppendSlots(cfg, m.pool, s, n).1;
    HeadMoves(m.items, m.todo, Item(s', n), CoreOf);
    assert Core(s') == Core(s);
    assert LiveCores(AppendHead(cfg, m)) == LiveCores(m);
    MovesNothing(m, AppendHead(cfg, m));
  }

  lemma {:induction false} PreemptNewestMoves(cfg: Config, m: Mid)
    requires m.todo != []
    ensures Moves(m, PreemptNewest(cfg, m), [])
  {
    hide Total, FreeTable;
    var last := m.todo[|m.todo| - 1].s;
    var m' := PreemptNewest(cfg, m);
    HeadMoves(m.items, m.todo, m.todo[0], CoreOf);
    var v := last.(status := Preempted);
    if cfg.swap && CanSwapOut(m.pool, v) {
      TotalFront(m'.swapped[0], m.swapped, CoreOf);
      assert Core(m'.swapped[0]) == Core(last);
    } else {
      TotalFront(m'.preempted[0], m.preempted, CoreOf);
      assert Core(m'.preempted[0]) == Core(last);
    }
    assert LiveCores(m') == LiveCores(m);
    MovesNothing(m, m');
  }

  lemma {:induction false} FailHeadMoves(m: Mid)
    requires m.todo != []
    ensures exists gone :: Moves(m, FailHead(m), gone) && |gone| == 1
  {
    hide Total, Fail;
    HeadMoves(m.items, m.todo, m.todo[0], CoreOf);
    FailMoves(m, m.(todo := m.todo[1..]), m.todo[0].s);
  }

  lemma {:induction false} FailSwappedMoves(m: Mid)
    requires m.swapped != []
    ensures exists gone :: Moves(m, FailSwapped(m), gone) && |gone| == 1
  {
    hide Total, Fail;
    TotalEnds(m.swapped, CoreOf);
    FailMoves(m, m.(swapped := m.swapped[1..]), m.swapped[0]);
  }

  lemma {:induction false} NextCore(m: Mid)
    requires NextUp(m).Some?
    ensures LiveCores(m) == LiveCores(PopNextUp(m)) + multiset{Core(NextUp(m).value)}
  {
    hide Total;
    if m.preempted != [] {
      TotalEnds(m.preempted, CoreOf);
    } else {
      TotalEnds(m.waiting, CoreOf);
    }
  }

  lemma {:induction false} FailNextMoves(m: Mid)
    requires NextUp(m).Some?
    ensures exists gone :: Moves(m, FailNext(m), gone) && |gone| == 1
  {
    hide Total, Fail, LiveCores;
    NextCore(m);
    FailMoves(m, PopNextUp(m), NextUp(m).value);
  }

  lemma {:induction false} SwapInOneMoves(cfg: Config, m: Mid, n: nat)
    requires cfg.blockSize > 0 && m.swapped != []
    ensures Moves(m, SwapInOne(cfg, m, n), [])
  {
    hide Total, Grow;
    var m' := SwapInOne(cfg, m, n);
    var it := m'.items[|m.items|];
    assert m'.items == m.items + [it];
    Joins(m.items, it, CoreOf);
    TotalEnds(m.swapped, CoreOf);
    assert Core(it.s) == Core(m.swapped[0]);
    assert LiveCores(m') == LiveCores(m);
    MovesNothing(m, m');
  }

  lemma {:induction false} CachedPrefixCore(cfg: Config, p: Pool, s: Seq)
    requires cfg.blockSize > 0
    ensures Core(CachedPrefix(cfg, p, s).0) == Core(s)
  {
  }

  lemma {:induction false} AdmitOneMoves(cfg: Config, m: Mid, s: Seq, n: nat, cached: seq<Block>)
    requires cfg.blockSize > 0 && NextUp(m).Some? && Core(s) == Core(NextUp(m).value)
    ensures Moves(m, AdmitOne(cfg, m, s, n, cached), [])
  {
    hide Total, Grow, PinAll;
    var m' := AdmitOne(cfg, m, s, n, cached);
    var it := m'.items[|m.items|];
    assert m'.items == m.items + [it];
    NextCore(m);
    Joins(m.items, it, CoreOf);
    assert Core(it.s) == Core(s);
    assert LiveCores(m') == LiveCores(m);
    MovesNothing(m, m');
  }

  lemma {:induction false} NoteNextMoves(m: Mid, s: Seq)
    requires NextUp(m).Some? && Core(s) == Core(NextUp(m).value)
    ensures Moves(m, NoteNext(m, s), [])
  {
    hide Total, Core;
    if m.preempted != [] {
      TotalEnds(m.preempted, CoreOf);
      TotalEnds(m.preempted[0 := s], CoreOf);
      assert m.preempted[0 := s][1..] == m.preempted[1..];
    } else {
      TotalEnds(m.waiting, CoreOf);
      TotalEnds(m.waiting[0 := s], CoreOf);
      assert m.waiting[0 := s][1..] == m.waiting[1..];
    }
    assert LiveCores(NoteNext(m, s)) == LiveCores(m);
    MovesNothing(m, NoteNext(m, s));
  }

  // --- whole loops ----------------------------------------------------------------------------------------------

  lemma {:induction false} RunLoopMoves(cfg: Config, m: Mid) returns (gone: seq<Seq>)
    requires cfg.blockSize > 0
    ensures Moves(m, RunLoop(cfg, m), gone)
    decreases |m.todo|
  {
    hide Moves, CanAppend, Fail, Preempt, AppendSlots;
    if m.todo == [] {
      MovesNothing(m, m);
      gone := [];
    } else if m.todo[0].n == 0 {
      SkipHeadMoves(m);
      gone := RunLoopMoves(cfg, SkipHead(m));
      MovesThen(m, SkipHead(m), RunLoop(cfg, m), [], gone);
      assert [] + gone == gone;
    } else if CanAppend(cfg, m.pool, m.todo[0].s, m.todo[0].n) {
      AppendHeadMoves(cfg, m);
      gone := RunLoopMoves(cfg, AppendHead(cfg, m));
      MovesThen(m, AppendHead(cfg, m), RunLoop(cfg, m), [], gone);
      assert [] + gone == gone;
    } else if |m.todo| > 1 {
      PreemptNewestMoves(cfg, m);
      PreemptLength(cfg, m);
      gone := RunLoopMoves(cfg, PreemptNewest(cfg, m));
      MovesThen(m, PreemptNewest(cfg, m), RunLoop(cfg, m), [], gone);
      assert [] + gone == gone;
    } else if m.items == [] {
      FailHeadMoves(m);
      gone :| Moves(m, FailHead(m), gone) && |gone| == 1;
    } else {
      PreemptNewestMoves(cfg, m);
      gone := [];
    }
  }

  lemma {:induction false} PreemptLength(cfg: Config, m: Mid)
    requires m.todo != []
    ensures PreemptNewest(cfg, m).todo == m.todo[..|m.todo| - 1] && PreemptNewest(cfg, m).items == m.items
  {
  }

  lemma {:induction false} SwapInLoopMoves(cfg: Config, m: Mid, budget: Option<int>) returns (gone: seq<Seq>)
    requires cfg.blockSize > 0
    ensures Moves(m, SwapInLoop(cfg, m, budget), gone)
    decreases |m.swapped|
  {
    hide Moves, CanSwapIn, SwapInTokens, Fail, SwapIn, AppendSlots;
    var r := SwapInLoop(cfg, m, budget);
    MovesNothing(m, m);
    gone := [];
    if m.swapped != [] && |m.items| < cfg.maxNumSeqs {
      var n := SwapInTokens(m.swapped[0], budget);
      if n > 0 {
        if CanSwapIn(cfg, m.pool, m.swapped[0], n, m.items != []) {
          SwapInOneMoves(cfg, m, n);
          gone := SwapInLoopMoves(cfg, SwapInOne(cfg, m, n), Spend(budget, n));
          MovesThen(m, SwapInOne(cfg, m, n), r, [], gone);
          assert [] + gone == gone;
        } else if m.items == [] {
          FailSwappedMoves(m);
          FailShape(m.(swapped := m.swapped[1..]), m.swapped[0]);
          var first :| Moves(m, FailSwapped(m), first) && |first| == 1;
          var rest := SwapInLoopMoves(cfg, FailSwapped(m), budget);
          MovesThen(m, FailSwapped(m), r, first, rest);
          gone := first + rest;
        }
      }
    }
  }

  lemma {:induction false} AdmitLoopMoves(cfg: Config, m: Mid, budget: int) returns (gone: seq<Seq>)
    requires cfg.blockSize > 0
    ensures Moves(m, AdmitLoop(cfg, m, budget), gone)
    decreases |m.preempted| + |m.waiting|
  {
    hide Moves, Admissible, CachedPrefix, AdmitTokens, BlocksFor, Fail, Allocate, Core;
    var r := AdmitLoop(cfg, m, budget);
    MovesNothing(m, m);
    gone := [];
    if budget > 0 && |m.items| < cfg.maxNumSeqs && NextUp(m).Some? {
      if BlocksFor(cfg.blockSize, NumTokens(NextUp(m).value)) > cfg.numBlocks {
        FailNextMoves(m);
        FailShape(PopNextUp(m), NextUp(m).value);
        var first :| Moves(m, FailNext(m), first) && |first| == 1;
        var rest := AdmitLoopMoves(cfg, FailNext(m), budget);
        MovesThen(m, FailNext(m), r, first, rest);
        gone := first + rest;
      } else {
        var (s, cached) := CachedPrefix(cfg, m.pool, NextUp(m).value);
        CachedPrefixCore(cfg, m.pool, NextUp(m).value);
        if Admissible(cfg, m, s, cached, budget) {
          var n := AdmitTokens(cfg, s, cached, budget);
          AdmissibleTokens(cfg, m, s, cached, budget);
          AdmitOneMoves(cfg, m, s, n, cached);
          gone := AdmitLoopMoves(cfg, AdmitOne(cfg, m, s, n, cached), budget - n);
          MovesThen(m, AdmitOne(cfg, m, s, n, cached), r, [], gone);
          assert [] + gone == gone;
        } else {
          NoteNextMoves(m, s);
        }
      }
    }
  }

  lemma {:induction false} AdmissibleTokens(cfg: Config, m: Mid, s: Seq, cached: seq<Block>, budget: int)
    requires cfg.blockSize > 0 && Admissible(cfg, m, s, cached, budget)
    ensures 0 <= AdmitTokens(cfg, s, cached, budget) <= budget
  {
  }

  /** Starting the running pass over nobody-scheduled items moves nobody. */
  lemma {:induction false} ReplanMoves(cfg: Config, m: Mid)
    requires m.todo == [] && forall i :: 0 <= i < |m.items| ==> Uncomputed(m.items[i].s) >= 1
    ensures Moves(m, m.(items := [], todo := Plan(cfg, Seqs(m.items))), [])
  {
    hide Total, Plan;
    var m' := m.(items := [], todo := Plan(cfg, Seqs(m.items)));
    PlanOk(cfg, Seqs(m.items));
    assert Seqs(m'.todo) == Seqs(m.items);
    assert Seqs(m'.items) == [] && Seqs(m.todo) == [];
    assert LiveCores(m') == LiveCores(m);
    MovesNothing(m, m');
  }

  lemma {:induction false} ScheduleRunningMoves(cfg: Config, m: Mid) returns (gone: seq<Seq>)
    requires cfg.blockSize > 0 && m.todo == [] && forall i :: 0 <= i < |m.items| ==> Uncomputed(m.items[i].s) >= 1
    ensures Moves(m, ScheduleRunning(cfg, m), gone)
  {
    hide Moves, RunLoop;
    var m' := m.(items := [], todo := Plan(cfg, Seqs(m.items)));
    ReplanMoves(cfg, m);
    gone := RunLoopMoves(cfg, m');
    MovesThen(m, m', RunLoop(cfg, m'), [], gone);
    assert [] + gone == gone;
  }

  lemma {:induction false} HaveWork(cfg: Config, m: Mid)
    requires cfg.blockSize > 0 && MidOk(cfg, m)
    ensures forall i :: 0 <= i < |m.items| ==> Uncomputed(m.items[i].s) >= 1
  {
    forall i | 0 <= i < |m.items| ensures Uncomputed(m.items[i].s) >= 1 {
      assert ItemOk(cfg, m.pool, m.items[i]);
    }
  }

  lemma {:induction false} ScheduleChunkedMoves(cfg: Config, m: Mid) returns (gone: seq<Seq>)
    requires cfg.blockSize > 0 && m.todo == [] && forall i :: 0 <= i < |m.items| ==> Uncomputed(m.items[i].s) >= 1
    ensures Moves(m, ScheduleChunked(cfg, m), gone)
  {
    hide Moves, AdmitLoop, SwapInLoop, ScheduleRunning, BatchTokens;
    var a := ScheduleRunningMoves(cfg, m);
    var m1 := ScheduleRunning(cfg, m);
    gone := a;
    if m1.numPreempted == 0 {
      var b := SwapInLoopMoves(cfg, m1, Some(cfg.maxBatchTokens - BatchTokens(m1.items)));
      var m2 := SwapInLoop(cfg, m1, Some(cfg.maxBatchTokens - BatchTokens(m1.items)));
      MovesThen(m, m1, m2, a, b);
      gone := a + b;
      if m2.swapped == [] {
        var c := AdmitLoopMoves(cfg, m2, cfg.maxBatchTokens - BatchTokens(m2.items));
        MovesThen(m, m2, ScheduleChunked(cfg, m), gone, c);
        gone := gone + c;
      }
    }
  }

  lemma {:induction false} DecodeMoves(cfg: Config, m: Mid) returns (gone: seq<Seq>)
    requires cfg.blockSize > 0 && m.todo == [] && forall i :: 0 <= i < |m.items| ==> Uncomputed(m.items[i].s) >= 1
    ensures var m2 := ScheduleRunning(cfg, m);
      Moves(m, if m2.numPreempted == 0 then SwapInLoop(cfg, m2, None) else m2, gone)
  {
    hide Moves, SwapInLoop, ScheduleRunning;
    gone := ScheduleRunningMoves(cfg, m);
    var m2 := ScheduleRunning(cfg, m);
    if m2.numPreempted == 0 {
      var c := SwapInLoopMoves(cfg, m2, None);
      MovesThen(m, m2, SwapInLoop(cfg, m2, None), gone, c);
      gone := gone + c;
    }
  }

  /** A whole step's planning: every request is still in exactly one queue, unchanged, or has failed
      and been reported. */
  lemma {:induction false} ScheduleMoves(cfg: Config, st: State) returns (gone: seq<Seq>)
    requires cfg.blockSize > 0 && StateOk(cfg, st)
    ensures Moves(Begin(st), Schedule(cfg, st), gone)
  {
    hide Moves, MidOk, AdmitLoop, ScheduleChunked, ScheduleRunning, SwapInLoop, Batch;
    var m := Begin(st);
    HaveWork(cfg, m);
    if cfg.chunked {
      gone := ScheduleChunkedMoves(cfg, m);
    } else {
      MovesNothing(m, m);
      gone := [];
      var m1 := m;
      if m.swapped == [] {
        gone := AdmitLoopMoves(cfg, m, cfg.maxBatchTokens);
        AdmitLoopOk(cfg, m, cfg.maxBatchTokens);
        m1 := AdmitLoop(cfg, m, cfg.maxBatchTokens);
      }
      if Batch(m1.items) == [] {
        HaveWork(cfg, m1);
        var b := DecodeMoves(cfg, m1);
        MovesThen(m, m1, Schedule(cfg, st), gone, b);
        gone := gone + b;
      }
    }
  }
}
