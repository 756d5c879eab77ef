// The guards are exact: a request is let in, brought back or given room if and only if the blocks nobody uses are enough
// for its tokens, the watermark aside; so admission and swap-in stop, and preemption starts, only for want of blocks,
// seats or budget.
module Guards {
  import opened Basics
  import opened Paging
  import opened BlockPool
  import opened Streaming
  import opened Scheduling
  import opened Accounting
  import opened Planning
  import opened Stepping
  import opened Modes
  import Progress

  /** The blocks of a pool that nobody holds. */
  function Spare(n: nat, p: Pool): set<Block> {
    set b: Block | 0 <= b < n && RefsOf(p, b) == 0
  }

  function Blocks(table: seq<Block>): set<Block> {
    set b: Block | b in table
  }

  /** So many blocks hold so many tokens. */
  predicate Holds(bs: nat, blocks: int, tokens: int) {
    tokens <= blocks * bs
  }

  function Reserve(cfg: Config, useWatermark: bool): nat {
    if useWatermark then cfg.watermarkBlocks else 0
  }

  lemma {:induction false} SpareIsFree(n: nat, p: Pool, held: multiset<Block>)
    requires Valid(n, p, held)
    ensures |Spare(n, p)| == NumFree(p)
  {
    PoolPartition(n, p, held);
    var used := set b: Block | b in held;
    forall b: Block ensures b in used + Spare(n, p) <==> 0 <= b < n {
      Holders(n, p, held, b);
      if b in used {
        UsedInRange(n, p, held, b);
      }
    }
    forall b | b in used ensures b !in Spare(n, p) {
      Holders(n, p, held, b);
    }
    hide Valid, Spare;
    assert used + Spare(n, p) == Below(n) && used !! Spare(n, p);
    assert |used + Spare(n, p)| == |used| + |Spare(n, p)|;
  }

  /** As many blocks as needed, or more, hold the tokens. */
  lemma {:induction false} EnoughHold(bs: nat, tokens: nat, blocks: int)
    requires bs > 0
    ensures BlocksFor(bs, tokens) <= blocks <==> Holds(bs, blocks, tokens)
  {
    if blocks >= 0 {
      BlocksForLeast(bs, tokens, blocks);
    } else {
      BlocksForBounds(bs, tokens);
      MulMono(blocks, -1, bs);
    }
  }

  // --- the guards --------------------------------------------------------------------------------------------------------

  /** A running request gets room if and only if its table and the spare blocks together hold its tokens. */
  lemma {:induction false} CanAppendExactly(cfg: Config, p: Pool, held: multiset<Block>, s: Seq, n: nat)
    requires cfg.blockSize > 0 && Valid(cfg.numBlocks, p, held)
    ensures CanAppend(cfg, p, s, n) <==> Holds(cfg.blockSize, |s.table| + |Spare(cfg.numBlocks, p)|, s.computed + n)
  {
    SpareIsFree(cfg.numBlocks, p, held);
    EnoughHold(cfg.blockSize, s.computed + n, |s.table| + |Spare(cfg.numBlocks, p)|);
    hide BlocksFor, Valid, Holds, Spare;
  }

  /** A swapped request comes back if and only if the spare blocks, the watermark aside, hold its tokens. */
  lemma {:induction false} CanSwapInExactly(cfg: Config, p: Pool, held: multiset<Block>, s: Seq, n: nat, wm: bool)
    requires cfg.blockSize > 0 && Valid(cfg.numBlocks, p, held)
    ensures CanSwapIn(cfg, p, s, n, wm) <==> Holds(cfg.blockSize, |Spare(cfg.numBlocks, p)| - Reserve(cfg, wm), s.computed + n)
  {
    SpareIsFree(cfg.numBlocks, p, held);
    EnoughHold(cfg.blockSize, s.computed + n, |Spare(cfg.numBlocks, p)| - Reserve(cfg, wm));
    hide BlocksFor, Valid, Holds, Spare;
  }

  /** A request is let in behind its hits if and only if the spare blocks that are not among them, the watermark aside,
      hold its new tokens: a hit that others hold costs nothing. */
  lemma {:induction false} CanAllocateExactly(cfg: Config, p: Pool, held: multiset<Block>, n: nat, cached: seq<Block>, wm: bool)
    requires cfg.blockSize > 0 && Valid(cfg.numBlocks, p, held) && Distinct(cached)
    requires forall b: Block :: b in cached ==> 0 <= b < cfg.numBlocks && HashOf(p, b).Some?
    ensures CanAllocate(cfg, p, n, cached, wm)
      <==> Holds(cfg.blockSize, |Spare(cfg.numBlocks, p) - Blocks(cached)| - Reserve(cfg, wm), n)
    ensures CanAllocate(cfg, p, n, cached, wm) <==> NumFree(PinAll(p, cached)) - BlocksFor(cfg.blockSize, n) >= Reserve(cfg, wm)
  {
    hide BlocksFor, Valid, Holds, Spare, Blocks, PinAll, Pinned, HashOf, Distinct, CanAllocate, NumFree;
    SpareBesides(cfg.numBlocks, p, held, cached);
    CanAllocateIs(cfg, p, n, cached, wm);
    EnoughHold(cfg.blockSize, n, |Spare(cfg.numBlocks, p) - Blocks(cached)| - Reserve(cfg, wm));
  }

  lemma {:induction false} CanAllocateIs(cfg: Config, p: Pool, n: nat, cached: seq<Block>, wm: bool)
    requires cfg.blockSize > 0
    ensures CanAllocate(cfg, p, n, cached, wm)
      <==> BlocksFor(cfg.blockSize, n) <= NumFree(p) - Pinned(p, cached) - Reserve(cfg, wm)
  {
    hide BlocksFor, Pinned, NumFree;
    BehindWhole(cfg.blockSize, |cached|, n);
  }

  /** New tokens behind whole blocks need blocks of their own. */
  lemma {:induction false} BehindWhole(bs: nat, k: nat, n: nat)
    requires bs > 0
    ensures 0 <= k * bs && BlocksFor(bs, k * bs + n) == k + BlocksFor(bs, n)
  {
    MulMono(0, k, bs);
    var blocks := BlocksFor(bs, n);
    BlocksForBounds(bs, n);
    assert (k + blocks) * bs == k * bs + blocks * bs;
    assert (k + blocks - 1) * bs == k * bs + blocks * bs - bs;
    BlocksForLeast(bs, k * bs + n, k + blocks);
    if k + blocks >= 1 {
      BlocksForLeast(bs, k * bs + n, k + blocks - 1);
    }
  }

  /** Pinning the hits leaves the spare blocks that are not among them. */
  lemma {:induction false} SpareBesides(n: nat, p: Pool, held: multiset<Block>, cached: seq<Block>)
    requires Valid(n, p, held) && Distinct(cached)
    requires forall b: Block :: b in cached ==> 0 <= b < n && HashOf(p, b).Some?
    ensures |Spare(n, p) - Blocks(cached)| == NumFree(p) - Pinned(p, cached) == NumFree(PinAll(p, cached))
  {
    ValidSizes(n, p, held);
    assert forall b: Block :: b in cached ==> p.hash[b].Some?;
    hide Valid, HashOf;
    PinAllValid(n, p, held, cached);
    SpareIsFree(n, PinAll(p, cached), held + multiset(cached));
    hide PinAll, Pinned, Distinct;
    forall b: Block ensures b in Spare(n, PinAll(p, cached)) <==> b in Spare(n, p) - Blocks(cached) {
      Holders(n, p, held, b);
      Holders(n, PinAll(p, cached), held + multiset(cached), b);
    }
    assert Spare(n, PinAll(p, cached)) == Spare(n, p) - Blocks(cached);
  }

  lemma {:induction false} UsedInRange(n: nat, p: Pool, held: multiset<Block>, b: Block)
    requires Valid(n, p, held) && b in held
    ensures 0 <= b < n
  {
  }

  lemma {:induction false} Holders(n: nat, p: Pool, held: multiset<Block>, b: Block)
    requires Valid(n, p, held)
    ensures b in Spare(n, p) <==> 0 <= b < n && held[b] == 0
  {
    hide Listed, Indexed;
  }

  // --- where the loops stop ---------------------------------------------------------------------------------------------

  /** Nobody more can be brought back: nobody is swapped out, seats or tokens are used up, or the spare blocks besides the
      watermark do not hold the next one's share. */
  predicate NoSwapIn(cfg: Config, r: Mid, left: Option<int>) {
    || r.swapped == [] || |r.items| >= cfg.maxNumSeqs || (left.Some? && left.value <= 0)
    || (r.items != [] && var s := r.swapped[0];
        var share := if left.Some? && left.value < Uncomputed(s) then left.value else Uncomputed(s);
        !Holds(cfg.blockSize, |Spare(cfg.numBlocks, r.pool)| - cfg.watermarkBlocks, s.computed + share))
  }

  /** What the tokens planned since leave of a budget. */
  function Rest(budget: int, before: seq<Item>, after: seq<Item>): int {
    budget - (BatchTokens(after) - BatchTokens(before))
  }

  lemma {:induction false} RestSpent(budget: int, items: seq<Item>, n: nat, items': seq<Item>, after: seq<Item>)
    requires |items'| == |items| + 1 && items'[..|items|] == items && items'[|items|].n == n
    ensures Rest(budget - n, items', after) == Rest(budget, items, after)
  {
  }

  lemma {:induction false} SwapInRefused(cfg: Config, m: Mid, budget: Option<int>)
    requires cfg.blockSize > 0 && MidOk(cfg, m) && m.todo == [] && m.swapped != [] && m.items != []
    requires SwapInTokens(m.swapped[0], budget) > 0
    requires !CanSwapIn(cfg, m.pool, m.swapped[0], SwapInTokens(m.swapped[0], budget), true)
    ensures NoSwapIn(cfg, m, budget)
  {
    hide ItemsOk, TodosOk, QueuesOk, Unique, CpuValid, Valid, CanSwapIn, Holds, Spare, Uncomputed;
    CanSwapInExactly(cfg, m.pool, Held(m.items, m.todo), m.swapped[0], SwapInTokens(m.swapped[0], budget), true);
  }

  /** Bringing back stops only there. */
  lemma {:induction false} SwapInStops(cfg: Config, m: Mid, budget: Option<int>)
    requires cfg.blockSize > 0 && MidOk(cfg, m) && m.todo == []
    ensures var r := SwapInLoop(cfg, m, budget);
      NoSwapIn(cfg, r, if budget.None? then None else Some(Rest(budget.value, m.items, r.items)))
    decreases |m.swapped|
  {
    hide MidOk, CanSwapIn, Fail, BatchTokens, Holds, Spare, NoSwapIn, SwapIn, AppendSlots, Uncomputed, BlocksFor;
    SwapInLoopStep(cfg, m, budget);
    if m.swapped != [] && |m.items| < cfg.maxNumSeqs {
      var n := SwapInTokens(m.swapped[0], budget);
      if n > 0 {
        if CanSwapIn(cfg, m.pool, m.swapped[0], n, m.items != []) {
          SwapInTokensOk(cfg, m, budget);
          SwapInOneOk(cfg, m, n);
          SwapInOneItem(cfg, m, n);
          SwapInStops(cfg, SwapInOne(cfg, m, n), Spend(budget, n));
          if budget.Some? {
            RestSpent(budget.value, m.items, n, SwapInOne(cfg, m, n).items, SwapInLoop(cfg, m, budget).items);
          }
        } else if m.items == [] {
          FailSwappedOk(cfg, m);
          FailShape(m.(swapped := m.swapped[1..]), m.swapped[0]);
          SwapInStops(cfg, FailSwapped(m), budget);
        } else {
          SwapInRefused(cfg, m, budget);
        }
      } else {
        NobodyBack(cfg, m, budget);
      }
    } else {
      NobodyBack(cfg, m, budget);
    }
  }

  lemma {:induction false} NobodyBack(cfg: Config, m: Mid, budget: Option<int>)
    requires cfg.blockSize > 0 && MidOk(cfg, m)
    requires m.swapped == [] || |m.items| >= cfg.maxNumSeqs || SwapInTokens(m.swapped[0], budget) <= 0
    ensures NoSwapIn(cfg, m, budget)
  {
    hide ItemsOk, TodosOk, Unique, CpuValid, Valid, Holds, Spare;
    assert m.swapped != [] ==> SwappedOk(cfg, m.swapped[0]);
  }

  /** Nobody more can be let in: nobody is left, seats or tokens are used up, or the next one's share, behind the longest
      prefix of it that is cached, exceeds the tokens left or what the spare blocks besides the watermark hold. */
  ghost predicate NoAdmission(cfg: Config, r: Mid, left: int) {
    || left <= 0 || |r.items| >= cfg.maxNumSeqs || NextUp(r).None?
    || exists hits :: Refused(cfg, r, NextUp(r).value, hits, left)
  }

  ghost predicate Refused(cfg: Config, r: Mid, s: Seq, hits: seq<Block>, left: int) {
    && LongestPrefix(cfg, r.pool, s, hits)
    && var missing := NumTokens(s) - |hits| * cfg.blockSize;
       var share := if cfg.chunked && left < missing then left else missing;
       || share > left
       || !Holds(cfg.blockSize, |Spare(cfg.numBlocks, r.pool) - Blocks(hits)| - Reserve(cfg, r.items != []), share)
  }

  lemma {:induction false} AdmitRefused(cfg: Config, m: Mid, budget: int)
    requires cfg.blockSize > 0 && MidOk(cfg, m) && m.todo == [] && NextUp(m).Some? && budget > 0
    requires var (s, cached) := CachedPrefix(cfg, m.pool, NextUp(m).value);
      !Admissible(cfg, m, s, cached, budget)
    ensures NoAdmission(cfg, NoteNext(m, CachedPrefix(cfg, m.pool, NextUp(m).value).0), budget)
  {
    hide Valid, CpuValid, ItemsOk, TodosOk, Unique, RequestOk, CachedPrefix, QueuesOk, HashOf, PrefixHash, Distinct, Total,
      CanAllocate, Holds, Spare, Blocks, LongestPrefix, NumFree, PinAll;
    QueuesPop(cfg, m);
    var s, held := NextUp(m).value, Held(m.items, m.todo);
    CachedPrefixOk(cfg, m.pool, held, s);
    var (s', hits) := CachedPrefix(cfg, m.pool, s);
    SameLongest(cfg, m.pool, s, s', hits);
    var n := AdmitTokens(cfg, s', hits, budget);
    CanAllocateExactly(cfg, m.pool, held, n, hits, m.items != []);
    assert Refused(cfg, NoteNext(m, s'), s', hits, budget);
  }

  lemma {:induction false} SameLongest(cfg: Config, p: Pool, s: Seq, s': Seq, hits: seq<Block>)
    requires LongestPrefix(cfg, p, s, hits) && s'.gen == s.gen
    ensures LongestPrefix(cfg, p, s', hits)
    ensures NumTokens(s') - |hits| * cfg.blockSize > 0
  {
    hide HashOf, PrefixHash, Unpublished;
  }

  /** Admission stops only there. */
  lemma {:induction false} AdmitStops(cfg: Config, m: Mid, budget: int)
    requires cfg.blockSize > 0 && MidOk(cfg, m) && m.todo == []
    ensures NoAdmission(cfg, AdmitLoop(cfg, m, budget), Rest(budget, m.items, AdmitLoop(cfg, m, budget).items))
    decreases |m.preempted| + |m.waiting|
  {
    hide MidOk, Ids, Admissible, CachedPrefix, AdmitTokens, BlocksFor, Fail, Allocate, BatchTokens, NoAdmission;
    AdmitLoopStep(cfg, m, budget);
    if budget <= 0 || |m.items| >= cfg.maxNumSeqs || NextUp(m).None? {
      NobodyElse(cfg, m, budget);
    } else if BlocksFor(cfg.blockSize, NumTokens(NextUp(m).value)) > cfg.numBlocks {
      FailNextOk(cfg, m);
      FailShape(PopNextUp(m), NextUp(m).value);
      AdmitStops(cfg, FailNext(m), budget);
    } else {
      var (s, cached) := CachedPrefix(cfg, m.pool, NextUp(m).value);
      if Admissible(cfg, m, s, cached, budget) {
        var n := AdmitTokens(cfg, s, cached, budget);
        AdmitTokensExact(cfg, m, budget);
        AdmitOneOk(cfg, m, budget);
        AdmitOneItem(cfg, m, s, n, cached);
        AdmitStops(cfg, AdmitOne(cfg, m, s, n, cached), budget - n);
        RestSpent(budget, m.items, n, AdmitOne(cfg, m, s, n, cached).items, AdmitLoop(cfg, m, budget).items);
      } else {
        AdmitRefused(cfg, m, budget);
      }
    }
  }

  lemma {:induction false} NobodyElse(cfg: Config, m: Mid, budget: int)
    requires budget <= 0 || |m.items| >= cfg.maxNumSeqs || NextUp(m).None?
    ensures NoAdmission(cfg, m, budget)
  {
  }

  // --- the running pass ---------------------------------------------------------------------------------------------------

  /** The blocks the planned tokens need besides those that the tables have. */
  function Missing(bs: nat, todo: seq<Item>): int
    requires bs > 0
  {
    if todo == [] then 0
    else
      var Item(s, n) := todo[0];
      (if n > 0 then BlocksFor(bs, s.computed + n) - |s.table| else 0) + Missing(bs, todo[1..])
  }

  lemma {:induction false} MissingNat(cfg: Config, p: Pool, todo: seq<Item>)
    requires cfg.blockSize > 0 && TodosOk(cfg, p, todo)
    ensures Missing(cfg.blockSize, todo) >= 0
    decreases |todo|
  {
    hide RequestOk, TableOk, BlocksFor;
    if todo != [] {
      assert TodoOk(cfg, p, todo[0]);
      BlocksForMono(cfg.blockSize, todo[0].s.computed, todo[0].s.computed + todo[0].n);
      TodosCut(cfg, p, todo);
      MissingNat(cfg, p, todo[1..]);
    }
  }

  /** Nobody was preempted and nobody failed. */
  predicate Peaceful(m: Mid, r: Mid) {
    r.numPreempted == m.numPreempted && r.outputs == m.outputs
  }

  lemma {:induction false} AppendHeadTakes(cfg: Config, m: Mid)
    requires cfg.blockSize > 0 && m.todo != [] && MidOk(cfg, m)
    requires m.todo[0].n > 0 && CanAppend(cfg, m.pool, m.todo[0].s, m.todo[0].n)
    ensures var q := AppendHead(cfg, m);
      && NumFree(q.pool) - Missing(cfg.blockSize, q.todo) == NumFree(m.pool) - Missing(cfg.blockSize, m.todo)
      && Peaceful(m, q)
  {
    hide Valid, CpuValid, ItemsOk, QueuesOk, Unique, Total, RequestOk, TableOk, BlocksFor, KeepsHash, NumFree, AppendSlots;
    var Item(s, n) := m.todo[0];
    var others := Held(m.items, m.todo[1..]);
    HeadMoves(m.items, m.todo, m.todo[0], TableOf);
    assert TodoOk(cfg, m.pool, m.todo[0]);
    assert Held(m.items, m.todo) == others + multiset(s.table);
    BlocksForMono(cfg.blockSize, s.computed, s.computed + n);
    AppendSlotsValid(cfg, m.pool, others, s, n);
  }

  lemma {:induction false} TroubleStays(cfg: Config, m: Mid)
    requires cfg.blockSize > 0
    ensures RunLoop(cfg, m).numPreempted >= m.numPreempted && |RunLoop(cfg, m).outputs| >= |m.outputs|
    decreases |m.todo|
  {
    hide CanAppend, AppendSlots, FreeSeq, FreeCpu, SwapOut, CanSwapOut;
    RunLoopStep(cfg, m);
    if m.todo != [] {
      if m.todo[0].n == 0 {
        TroubleStays(cfg, SkipHead(m));
      } else if CanAppend(cfg, m.pool, m.todo[0].s, m.todo[0].n) {
        TroubleStays(cfg, AppendHead(cfg, m));
      } else if |m.todo| > 1 {
        TroubleStays(cfg, PreemptNewest(cfg, m));
      }
    }
  }

  lemma {:induction false} NoRoom(cfg: Config, m: Mid)
    requires cfg.blockSize > 0 && MidOk(cfg, m) && m.todo != []
    requires m.todo[0].n > 0 && !CanAppend(cfg, m.pool, m.todo[0].s, m.todo[0].n)
    ensures Missing(cfg.blockSize, m.todo) > NumFree(m.pool)
    ensures !Peaceful(m, RunLoop(cfg, m))
  {
    hide Valid, CpuValid, ItemsOk, TodosOk, QueuesOk, Unique, BlocksFor, NumFree, FreeSeq, FreeCpu, SwapOut, CanSwapOut;
    TodosCut(cfg, m.pool, m.todo);
    MissingNat(cfg, m.pool, m.todo[1..]);
    RunLoopStep(cfg, m);
    if |m.todo| > 1 {
      TroubleStays(cfg, PreemptNewest(cfg, m));
    }
  }

  lemma {:induction false} RunLoopPeaceful(cfg: Config, m: Mid)
    requires cfg.blockSize > 0 && MidOk(cfg, m)
    ensures Peaceful(m, RunLoop(cfg, m)) <==> Missing(cfg.blockSize, m.todo) <= NumFree(m.pool)
    decreases |m.todo|
  {
    hide MidOk, CanAppend, AppendSlots, BlocksFor, NumFree, Preempt, Fail;
    RunLoopStep(cfg, m);
    if m.todo == [] {
    } else if m.todo[0].n == 0 {
      SkipHeadOk(cfg, m);
      RunLoopPeaceful(cfg, SkipHead(m));
    } else if CanAppend(cfg, m.pool, m.todo[0].s, m.todo[0].n) {
      AppendHeadOk(cfg, m);
      AppendHeadTakes(cfg, m);
      RunLoopPeaceful(cfg, AppendHead(cfg, m));
    } else {
      NoRoom(cfg, m);
    }
  }

  /** The running pass preempts or fails somebody if and only if the spare blocks are fewer than its tokens need. */
  lemma {:induction false} PreemptsExactly(cfg: Config, m: Mid)
    requires cfg.blockSize > 0 && MidOk(cfg, m) && m.todo == [] && AllIdle(m.items)
    ensures Peaceful(m, ScheduleRunning(cfg, m))
      <==> Missing(cfg.blockSize, Plan(cfg, Seqs(m.items))) <= |Spare(cfg.numBlocks, m.pool)|
  {
    hide MidOk, RunLoop, Plan, Missing, Spare, NumFree;
    ReplanOk(cfg, m);
    MidIsValid(cfg, m);
    SpareIsFree(cfg.numBlocks, m.pool, Held(m.items, m.todo));
    RunLoopPeaceful(cfg, m.(items := [], todo := Plan(cfg, Seqs(m.items))));
  }

  lemma {:induction false} MidIsValid(cfg: Config, m: Mid)
    requires cfg.blockSize > 0 && MidOk(cfg, m)
    ensures Valid(cfg.numBlocks, m.pool, Held(m.items, m.todo))
  {
    hide Valid;
  }

  // --- whole steps ---------------------------------------------------------------------------------------------------------

  /** A chunked step that preempted nobody spends all its tokens or leaves no running prompt unfinished, and nobody else
      could have been brought back or, if all are back, let in. */
  lemma {:induction false} ChunkedStops(cfg: Config, st: State)
    requires ConfigOk(cfg) && cfg.chunked && StateOk(cfg, st) && ModeOk(cfg, st)
    ensures var m := Schedule(cfg, st);
      var left := cfg.maxBatchTokens - BatchTokens(m.items);
      ScheduleRunning(cfg, Begin(st)).numPreempted == 0 ==>
        && left >= 0 && (left == 0 || AllEndDecoding(m.items))
        && (if m.swapped != [] then NoSwapIn(cfg, m, Some(left)) else NoAdmission(cfg, m, left))
  {
    hide MidOk, AdmitLoop, SwapInLoop, ScheduleRunning, BatchTokens, RunShape, OnePartial, NoSwapIn, NoAdmission,
      NobodySkipped, AllEndDecoding, OldEndDecoding, OneAtMost, AllDecoding, StateOk;
    IdleConcat(st.running, []);
    BeginOk(cfg, st);
    var m := Begin(st);
    var m1 := ScheduleRunning(cfg, m);
    ScheduleRunningOk(cfg, m);
    RunningShape(cfg, m);
    if m1.numPreempted == 0 {
      RunToJoin(cfg, m1.items, m1.swapped);
      var b1 := cfg.maxBatchTokens - BatchTokens(m1.items);
      SwapInLoopShape(cfg, m1, b1);
      SwapInLoopOk(cfg, m1, Some(b1));
      SwapInStops(cfg, m1, Some(b1));
      var m2 := SwapInLoop(cfg, m1, Some(b1));
      if m2.swapped == [] {
        var b2 := cfg.maxBatchTokens - BatchTokens(m2.items);
        AdmitLoopShape(cfg, m2, b2);
        AdmitStops(cfg, m2, b2);
        Progress.AdmitLoopCounts(cfg, m2, b2);
      }
    }
  }

  lemma {:induction false} BeginOk(cfg: Config, st: State)
    requires cfg.blockSize > 0 && StateOk(cfg, st)
    ensures MidOk(cfg, Begin(st)) && AllIdle(Begin(st).items)
  {
    hide MidOk;
  }

  /** Where prefills come first, they are let in until nobody else could be, and only when there is none are the running
      requests decoded and, if none of them had to make room, the swapped ones brought back likewise. */
  lemma {:induction false} PriorityStops(cfg: Config, st: State)
    requires ConfigOk(cfg) && !cfg.chunked && StateOk(cfg, st)
    ensures var m, m1 := Schedule(cfg, st), AdmitLoop(cfg, Begin(st), cfg.maxBatchTokens);
      && NoAdmission(cfg, m1, cfg.maxBatchTokens - BatchTokens(m1.items))
      && (st.swapped == [] && BatchTokens(m1.items) > 0 ==> m == m1)
      && (st.swapped != [] || BatchTokens(m1.items) == 0 ==>
            ScheduleRunning(cfg, if st.swapped == [] then m1 else Begin(st)).numPreempted == 0 ==> NoSwapIn(cfg, m, None))
  {
    hide MidOk, AdmitLoop, SwapInLoop, ScheduleRunning, NoSwapIn, NoAdmission, StateOk;
    BeginOk(cfg, st);
    var m := Begin(st);
    IdleTokens(m.items);
    AdmitStops(cfg, m, cfg.maxBatchTokens);
    AdmitLoopOk(cfg, m, cfg.maxBatchTokens);
    var m1 := if m.swapped == [] then AdmitLoop(cfg, m, cfg.maxBatchTokens) else m;
    BatchIsTokens(AdmitLoop(cfg, m, cfg.maxBatchTokens).items);
    BatchIsTokens(m.items);
    BatchEmptyIdle(m1.items);
    if Batch(m1.items) == [] {
      ScheduleRunningOk(cfg, m1);
      SwapInStops(cfg, ScheduleRunning(cfg, m1), None);
    }
  }

  lemma {:induction false} IdleTokens(items: seq<Item>)
    requires AllIdle(items)
    ensures BatchTokens(items) == 0
  {
    if items != [] {
      IdleTokens(items[..|items| - 1]);
    }
  }

  lemma {:induction false} BatchIsTokens(items: seq<Item>)
    ensures Batch(items) == [] <==> BatchTokens(items) == 0
  {
    if items != [] {
      BatchIsTokens(items[..|items| - 1]);
    }
  }
}
