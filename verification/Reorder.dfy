// A reachable run in which mixed victims change the order: with one host block, the newest of three requests is
// swapped out, the next one finds the host full and is dropped, and so falls behind the request admitted after it.
module Reorder {
  import opened Basics
  import opened Paging
  import opened BlockPool
  import opened Transformer
  import opened Streaming
  import opened Scheduling
  import opened Stepping
  import opened Memory
  import opened KvKept
  import opened EngineRun
  import opened Results
  import opened Order
  import Guarantees
  import Modes

  // --- the engine and its requests ---------------------------------------------------------------------------------

  /** Four device blocks of one token, one host block, at most three requests. */
  function Small(): Config {
    Config(4, 1, false, 1, 0, 3, 20, false, true, Fcfs, 0.0, Serving(_ => "", {}, 20), false, 1)
  }

  function Ten(): Params {
    Params(10, [], false)
  }

  /** A request with a one-token prompt after some sampled tokens, holding some blocks. */
  function Req(id: int, arrival: real, out: seq<Token>, table: seq<Block>, cpuTable: seq<Block>, computed: nat,
               status: Status): Seq {
    Seq(id, Ten(), arrival, None, Gen(1, [0] + out, None, "", 0, Silent(out)), table, cpuTable, computed, [], 0, status, None)
  }

  /** Every token returned no text. */
  function Silent(out: seq<Token>): (r: seq<(Token, string)>)
    ensures |r| == |out|
  {
    seq(|out|, i requires 0 <= i < |out| => (out[i], ""))
  }

  lemma {:induction false} SilentMore(out: seq<Token>, t: Token)
    ensures Silent(out + [t]) == Silent(out) + [(t, "")]
    ensures [0] + (out + [t]) == ([0] + out) + [t]
  {
  }

  function FourBlocks(free: seq<Block>, refs: seq<int>, cpuFree: seq<Block>, released: seq<Block>): Pool {
    Pool(free, refs, [None, None, None, None], map[], [], cpuFree, released)
  }

  // --- one turn of each kind -------------------------------------------------------------------------------------------

  /** A token that does not end the request. */
  lemma {:induction false} GoesOn(p: Pool, s: Seq, out: seq<Token>, sampled: seq<Token>)
    requires s == Req(s.id, s.arrival, out, s.table, [], |out|, Running) && |out| < 9 && sampled != []
    ensures var t := sampled[0];
      UpdateItem(Small(), p, Item(s, 1), sampled)
      == Updated(p, [Req(s.id, s.arrival, out + [t], s.table, [], |out| + 1, Running)], [],
                 [Output(s.id, [t], "", false, None, 1, |out| + 1)])
    ensures Samples(Item(s, 1))
  {
    var t := sampled[0];
    SilentMore(out, t);
    var g := s.gen;
    assert FindStop("" + "", 0, []) == None;
    assert Slice("", 0, 0) == "";
    assert AppendToken(Small().serving, Ten(), g, t) == (g.(tokens := g.tokens + [t], said := g.said + [(t, "")]), "", None);
  }

  lemma {:induction false} OneTokenBlocks(n: nat)
    ensures BlocksFor(1, n) == n
  {
    BlocksForWhole(1, n);
  }

  /** The head of the waiting queue is admitted with its one token. */
  lemma {:induction false} AdmitTurn(m: Mid, budget: int, id: int, arrival: real, rest: seq<Seq>, b: Block,
                                     free: seq<Block>, refs: seq<int>, hosts: seq<Block>, log: seq<Block>)
    requires m.preempted == [] && m.waiting == [Req(id, arrival, [], [], [], 0, Waiting)] + rest && m.pool == FourBlocks([b] + free, refs, hosts, log)
    requires budget > 0 && |m.items| < 3
    ensures AdmitLoop(Small(), m, budget)
         == AdmitLoop(Small(), m.(waiting := rest, pool := FourBlocks(free, SetAt(refs, b, 1), hosts, log),
                                  items := m.items + [Item(Req(id, arrival, [], [b], [], 0, Running), 1)]), budget - 1)
  {
    hide AdmitLoop, AdmitOne, Admissible, CachedPrefix, AdmitTokens, FourBlocks, BlocksFor, NoteNext, FailNext,
      Small, Req, NextUp, NumTokens;
    AdmitFacts(m, budget, id, arrival, rest, b, free, refs, hosts, log);
    PlacesOne(m, id, arrival, rest, b, free, refs, hosts, log);
    AdmitLoopStep(Small(), m, budget);
  }

  lemma {:induction false} AdmitFacts(m: Mid, budget: int, id: int, arrival: real, rest: seq<Seq>, b: Block,
                                      free: seq<Block>, refs: seq<int>, hosts: seq<Block>, log: seq<Block>)
    requires m.preempted == [] && m.waiting == [Req(id, arrival, [], [], [], 0, Waiting)] + rest && m.pool == FourBlocks([b] + free, refs, hosts, log)
    requires budget > 0
    ensures var cfg, s := Small(), Req(id, arrival, [], [], [], 0, Waiting);
      && NextUp(m) == Some(s) && BlocksFor(cfg.blockSize, NumTokens(s)) == 1 && cfg.maxNumSeqs == 3 && cfg.numBlocks == 4 && cfg.blockSize == 1
      && CachedPrefix(cfg, m.pool, s) == (s, []) && AdmitTokens(cfg, s, [], budget) == 1 && Admissible(cfg, m, s, [], budget)
  {
    hide AdmitLoop, Admissible, CachedPrefix, AdmitTokens, BlocksFor, FourBlocks;
    OneTokenBlocks(1);
    SomeFree(m.pool, b, free, refs, hosts, log);
    AdmitsOne(m, budget, Req(id, arrival, [], [], [], 0, Waiting));
  }

  lemma {:induction false} SomeFree(p: Pool, b: Block, free: seq<Block>, refs: seq<int>, hosts: seq<Block>, log: seq<Block>)
    requires p == FourBlocks([b] + free, refs, hosts, log)
    ensures |p.free| > 0
  {
  }

  /** Nothing is cached. */
  lemma {:induction false} NoHits(cfg: Config, p: Pool, s: Seq, n: nat)
    requires cfg.blockSize == 1 && !cfg.prefixCaching
    ensures CachedPrefix(cfg, p, s) == (s, [])
    ensures AdmitTokens(cfg, s, [], n) == if cfg.chunked then Min(NumTokens(s), n) else NumTokens(s)
    ensures forall wm :: CanAllocate(cfg, p, n, [], wm) <==> n <= NumFree(p) - (if wm then cfg.watermarkBlocks else 0)
    ensures Allocate(cfg, p, s, n, []) == AppendSlots(cfg, p, s.(table := [], computed := 0, registered := 0), n)
  {
    OneTokenBlocks(n);
    var none: seq<Block> := [];
    assert |none| == 0 && |none| * cfg.blockSize == 0;
    assert PinAll(p, none) == p && Pinned(p, none) == 0;
    hide BlocksFor, AppendSlots;
  }

  lemma {:induction false} AdmitsOne(m: Mid, budget: int, s: Seq)
    requires s.gen.tokens == [0] && |m.pool.free| > 0 && budget > 0
    ensures CachedPrefix(Small(), m.pool, s) == (s, [])
    ensures AdmitTokens(Small(), s, [], budget) == 1 && Admissible(Small(), m, s, [], budget)
  {
    var cfg := Small();
    NoHits(cfg, m.pool, s, 1);
    NoHits(cfg, m.pool, s, budget);
    assert cfg.watermarkBlocks == 0 && !cfg.chunked && NumTokens(s) == 1;
    hide CachedPrefix, AdmitTokens, CanAllocate, Small;
  }

  lemma {:induction false} PlacesOne(m: Mid, id: int, arrival: real, rest: seq<Seq>, b: Block, free: seq<Block>,
                                     refs: seq<int>, hosts: seq<Block>, log: seq<Block>)
    requires m.preempted == [] && m.waiting == [Req(id, arrival, [], [], [], 0, Waiting)] + rest && m.pool == FourBlocks([b] + free, refs, hosts, log)
    ensures AdmitOne(Small(), m, Req(id, arrival, [], [], [], 0, Waiting), 1, [])
         == m.(waiting := rest, pool := FourBlocks(free, SetAt(refs, b, 1), hosts, log),
               items := m.items + [Item(Req(id, arrival, [], [b], [], 0, Running), 1)])
  {
    var cfg, s := Small(), Req(id, arrival, [], [], [], 0, Waiting);
    NoHits(cfg, m.pool, s, 1);
    AppendsOne(m.pool, s, b, free, refs, hosts, log);
    assert PopNextUp(m) == m.(waiting := rest);
    var none: seq<Block> := [];
    assert s.(table := none, computed := 0, registered := 0) == s && none + [b] == [b];
    assert s.(table := [b]).(status := Running) == Req(id, arrival, [], [b], [], 0, Running);
    hide Allocate, AppendSlots, Small, FourBlocks, Req;
  }

  lemma {:induction false} AppendsOne(p: Pool, s: Seq, b: Block, free: seq<Block>, refs: seq<int>, hosts: seq<Block>,
                                      log: seq<Block>)
    requires p == FourBlocks([b] + free, refs, hosts, log) && |s.table| == s.computed
    ensures AppendSlots(Small(), p, s, 1) == (FourBlocks(free, SetAt(refs, b, 1), hosts, log), s.(table := s.table + [b]))
  {
    OneTokenBlocks(s.computed + 1);
    GrowOne(p, b, free, refs, hosts, log);
    hide Grow, BlocksFor;
  }

  lemma {:induction false} GrowOne(p: Pool, b: Block, free: seq<Block>, refs: seq<int>, hosts: seq<Block>, log: seq<Block>)
    requires p == FourBlocks([b] + free, refs, hosts, log)
    ensures Grow(p, 1) == (FourBlocks(free, SetAt(refs, b, 1), hosts, log), [b])
  {
    var q := TakeFree(p).0;
    assert ([b] + free)[1..] == free;
    assert Grow(q, 0) == (q, []) && [b] + [] == [b];
  }

  /** The oldest unvisited request gets a block for its next token. */
  lemma {:induction false} AppendTurn(m: Mid, id: int, arrival: real, out: seq<Token>, table: seq<Block>, b: Block,
                                      free: seq<Block>, refs: seq<int>, hosts: seq<Block>, log: seq<Block>)
    requires m.todo != [] && m.todo[0] == Item(Req(id, arrival, out, table, [], |out|, Running), 1) && |table| == |out|
    requires m.pool == FourBlocks([b] + free, refs, hosts, log)
    ensures RunLoop(Small(), m)
         == RunLoop(Small(), m.(pool := FourBlocks(free, SetAt(refs, b, 1), hosts, log), todo := m.todo[1..],
                                items := m.items + [Item(Req(id, arrival, out, table + [b], [], |out|, Running), 1)]))
  {
    OneTokenBlocks(|out| + 1);
    GrowOne(m.pool, b, free, refs, hosts, log);
    hide Grow, TakeFree;
  }

  /** No block left: the newest of several unvisited requests goes. */
  lemma {:induction false} PreemptTurn(m: Mid, id: int, arrival: real, out: seq<Token>, table: seq<Block>,
                                       refs: seq<int>, hosts: seq<Block>, log: seq<Block>)
    requires |m.todo| > 1 && m.todo[0] == Item(Req(id, arrival, out, table, [], |out|, Running), 1) && |table| == |out|
    requires m.pool == FourBlocks([], refs, hosts, log)
    ensures RunLoop(Small(), m) == RunLoop(Small(), PreemptNewest(Small(), m))
  {
    OneTokenBlocks(|out| + 1);
    hide PreemptNewest;
  }

  // --- three steps -----------------------------------------------------------------------------------------------------

  function Three(): seq<Seq> {
    [Req(1, 0.0, [], [], [], 0, Waiting), Req(2, 1.0, [], [], [], 0, Waiting), Req(3, 2.0, [], [], [], 0, Waiting)]
  }

  /** All three requests, admitted together. */
  function Admitted(): seq<Item> {
    [Item(Req(1, 0.0, [], [0], [], 0, Running), 1), Item(Req(2, 1.0, [], [1], [], 0, Running), 1),
     Item(Req(3, 2.0, [], [2], [], 0, Running), 1)]
  }

  lemma {:induction false} FirstAdmissions(m: Mid)
    requires m.pool == FourBlocks([0, 1, 2, 3], [0, 0, 0, 0], [0], []) && m.items == [] && m.preempted == [] && m.waiting == Three()
    ensures AdmitLoop(Small(), m, 20) == m.(pool := FourBlocks([3], [1, 1, 1, 0], [0], []), waiting := [], items := Admitted())
  {
    var i1, i2, i3 := Admitted()[0], Admitted()[1], Admitted()[2];
    var w1, w2, w3 := Three()[0], Three()[1], Three()[2];
    assert [0, 1, 2, 3] == [0] + [1, 2, 3] && [1, 2, 3] == [1] + [2, 3] && [2, 3] == [2] + [3];
    assert Three() == [w1] + [w2, w3] && [w2, w3] == [w2] + [w3] && [w3] == [w3] + [];
    assert SetAt([0, 0, 0, 0], 0, 1) == [1, 0, 0, 0] && SetAt([1, 0, 0, 0], 1, 1) == [1, 1, 0, 0] && SetAt([1, 1, 0, 0], 2, 1) == [1, 1, 1, 0];
    assert [] + [i1] == [i1] && [i1] + [i2] == [i1, i2] && [i1, i2] + [i3] == Admitted();
    hide FourBlocks, Req, AdmitLoop, SetAt, Admitted;
    AdmitTurn(m, 20, 1, 0.0, [w2, w3], 0, [1, 2, 3], [0, 0, 0, 0], [0], []);
    var m1 := m.(waiting := [w2, w3], pool := FourBlocks([1, 2, 3], [1, 0, 0, 0], [0], []), items := [i1]);
    AdmitTurn(m1, 19, 2, 1.0, [w3], 1, [2, 3], [1, 0, 0, 0], [0], []);
    var m2 := m1.(waiting := [w3], pool := FourBlocks([2, 3], [1, 1, 0, 0], [0], []), items := [i1, i2]);
    AdmitTurn(m2, 18, 3, 2.0, [], 2, [3], [1, 1, 0, 0], [0], []);
    EnoughAdmitted(m2.(waiting := [], pool := FourBlocks([3], [1, 1, 1, 0], [0], []), items := Admitted()), 17);
  }

  lemma {:induction false} FirstStep(st: State)
    requires st == State(FourBlocks([0, 1, 2, 3], [0, 0, 0, 0], [0], []), [], [], [], Three(), st.retired)
    ensures Schedule(Small(), st) == Begin(st).(pool := FourBlocks([3], [1, 1, 1, 0], [0], []), waiting := [], items := Admitted())
  {
    assert Begin(st).items == [];
    FirstAdmissions(Begin(st));
    LastBatched(Admitted());
    hide FourBlocks, AdmitLoop, ScheduleRunning, SwapInLoop, Batch;
  }

  lemma {:induction false} EnoughAdmitted(m: Mid, budget: int)
    requires |m.items| >= 3 || (m.preempted == [] && m.waiting == [])
    ensures AdmitLoop(Small(), m, budget) == m
  {
  }

  lemma {:induction false} LastBatched(items: seq<Item>)
    requires items != [] && items[|items| - 1].n > 0
    ensures Batch(items) != []
  {
  }

  /** A request that computes its last token in a step and is far from its limits. */
  ghost predicate Going(it: Item) {
    && 1 <= NumTokens(it.s) <= 9
    && it == Item(Req(it.s.id, it.s.arrival, it.s.gen.tokens[1..], it.s.table, [], NumTokens(it.s) - 1, Running), 1)
  }

  function OneMore(s: Seq, t: Token): Seq
    requires NumTokens(s) >= 1
  {
    Req(s.id, s.arrival, s.gen.tokens[1..] + [t], s.table, [], NumTokens(s), Running)
  }

  /** The requests of a batch after their tokens. */
  ghost function Later(items: seq<Item>, sampled: seq<Token>): seq<Seq>
    requires |sampled| == |items| && forall i :: 0 <= i < |items| ==> Going(items[i])
  {
    if items == [] then []
    else
      assert Going(items[0]);
      [OneMore(items[0].s, sampled[0])] + Later(items[1..], sampled[1..])
  }

  lemma {:induction false} AllGoOn(p: Pool, items: seq<Item>, sampled: seq<Token>)
    requires forall i :: 0 <= i < |items| ==> Going(items[i])
    requires |sampled| == NumSampled(items)
    ensures |sampled| == |items|
    ensures var u := UpdateItems(Small(), p, items, sampled);
      u.pool == p && u.running == Later(items, sampled) && u.retired == []
    decreases |items|
  {
    hide UpdateItem, Samples, Req, Small;
    if items != [] {
      GoingSamples(items[0]);
      CountSampled(items[1..]);
      GoesOn(p, items[0].s, items[0].s.gen.tokens[1..], sampled);
      AllGoOn(p, items[1..], sampled[1..]);
    }
  }

  lemma {:induction false} GoingSamples(it: Item)
    requires Going(it)
    ensures Samples(it)
  {
  }

  lemma {:induction false} CountSampled(items: seq<Item>)
    requires forall i :: 0 <= i < |items| ==> Going(items[i])
    ensures NumSampled(items) == |items|
    decreases |items|
  {
    hide Going, Samples;
    if items != [] {
      GoingSamples(items[0]);
      CountSampled(items[1..]);
    }
  }

  // --- preemption in swap mode -----------------------------------------------------------------------------------------

  /** The newest request holds one block and the host has one: it is swapped out. */
  lemma {:induction false} SwapsNewest(m: Mid, id: int, arrival: real, out: seq<Token>, b: Block, free: seq<Block>,
                                       refs: seq<int>, h: Block, log: seq<Block>)
    requires m.todo != [] && m.todo[|m.todo| - 1] == Item(Req(id, arrival, out, [b], [], |out|, Running), 1)
    requires m.pool == FourBlocks(free, refs, [h], log) && 0 <= b < |refs| == 4 && refs[b] == 1
    ensures var last := |m.todo| - 1;
      PreemptNewest(Small(), m)
      == m.(todo := m.todo[..last], pool := FourBlocks(free + [b], SetAt(refs, b, 0), [], log + [b]),
            swapped := [Req(id, arrival, out, [], [h], |out|, Preempted)] + m.swapped,
            swapOut := m.swapOut + [(b, h)], numPreempted := m.numPreempted + 1)
  {
    var p := FourBlocks(free, refs, [], log);
    var q := Release(p, b);
    assert q == FourBlocks(free + [b], SetAt(refs, b, 0), [], log + [b]);
    var none: seq<Block> := [];
    assert [b][..0] == none && [b][0] == b;
    assert FreeTable(q, none) == q;
    assert FreeTable(p, [b]) == q;
    assert [h][..1] == [h] && [h][1..] == [] && none + [h] == [h];
    assert Zip([b], [h]) == [(b, h)];
    hide FreeTable, Release;
  }

  /** It holds two and the host none: it is dropped and will be recomputed. */
  lemma {:induction false} DropsNewest(m: Mid, id: int, arrival: real, out: seq<Token>, b: Block, c: Block,
                                       free: seq<Block>, refs: seq<int>, log: seq<Block>)
    requires m.todo != [] && m.todo[|m.todo| - 1] == Item(Req(id, arrival, out, [b, c], [], |out|, Running), 1)
    requires m.pool == FourBlocks(free, refs, [], log) && 0 <= b < |refs| == 4 && 0 <= c < 4 && b != c && refs[b] == 1 && refs[c] == 1
    ensures var last := |m.todo| - 1;
      PreemptNewest(Small(), m)
      == m.(todo := m.todo[..last], pool := FourBlocks(free + [c] + [b], SetAt(SetAt(refs, c, 0), b, 0), [], log + [c] + [b]),
            preempted := [Req(id, arrival, out, [], [], 0, Preempted)] + m.preempted, numPreempted := m.numPreempted + 1)
  {
    var p := FourBlocks(free, refs, [], log);
    var q := Release(p, c);
    assert q == FourBlocks(free + [c], SetAt(refs, c, 0), [], log + [c]);
    var r := Release(q, b);
    assert r == FourBlocks(free + [c] + [b], SetAt(SetAt(refs, c, 0), b, 0), [], log + [c] + [b]);
    var none: seq<Block> := [];
    assert [b][..0] == none && [b, c][..1] == [b];
    assert FreeTable(r, none) == r && FreeTable(q, [b]) == r;
    assert FreeTable(p, [b, c]) == r;
    hide FreeTable, Release;
  }

  // --- the second and third steps --------------------------------------------------------------------------------------

  /** Between the first two steps: the pool has one block left, the host one. */
  function Grown(t1: Token, t2: Token, t3: Token, retired: seq<Seq>): State {
    State(FourBlocks([3], [1, 1, 1, 0], [0], []),
          [Req(1, 0.0, [t1], [0], [], 1, Running), Req(2, 1.0, [t2], [1], [], 1, Running), Req(3, 2.0, [t3], [2], [], 1, Running)],
          [], [], [], retired)
  }

  /** Between the second and third: the newest request is on the host, which is now full. */
  function Parked(t1: Token, u1: Token, t2: Token, u2: Token, t3: Token, retired: seq<Seq>): State {
    State(FourBlocks([], [1, 1, 1, 1], [], [2]),
          [Req(1, 0.0, [t1, u1], [0, 3], [], 2, Running), Req(2, 1.0, [t2, u2], [1, 2], [], 2, Running)],
          [Req(3, 2.0, [t3], [], [0], 1, Preempted)], [], [], retired)
  }

  /** After the third: the second request has been dropped, and stands behind the third. */
  function Dropped(out: seq<Token>, t2: Token, u2: Token, t3: Token, retired: seq<Seq>): State {
    State(FourBlocks([1], [1, 0, 1, 1], [], [2, 2, 1]),
          [Req(1, 0.0, out, [0, 3, 2], [], |out|, Running)],
          [Req(3, 2.0, [t3], [], [0], 1, Preempted)], [Req(2, 1.0, [t2, u2], [], [], 0, Preempted)], [], retired)
  }

  lemma {:induction false} SecondVisits(m: Mid, t1: Token, t2: Token, t3: Token)
    requires m.pool == FourBlocks([3], [1, 1, 1, 0], [0], []) && m.items == [] && m.swapped == []
    requires m.todo == [Item(Req(1, 0.0, [t1], [0], [], 1, Running), 1), Item(Req(2, 1.0, [t2], [1], [], 1, Running), 1),
                        Item(Req(3, 2.0, [t3], [2], [], 1, Running), 1)]
    ensures RunLoop(Small(), m)
         == m.(pool := FourBlocks([], [1, 1, 1, 1], [], [2]), todo := [],
               items := [Item(Req(1, 0.0, [t1], [0, 3], [], 1, Running), 1), Item(Req(2, 1.0, [t2], [1, 2], [], 1, Running), 1)],
               swapped := [Req(3, 2.0, [t3], [], [0], 1, Preempted)], swapOut := m.swapOut + [(2, 0)], numPreempted := m.numPreempted + 1)
  {
    hide Req, FourBlocks, RunLoop, PreemptNewest, Small;
    assert [3] == [3] + [] && SetAt([1, 1, 1, 0], 3, 1) == [1, 1, 1, 1] && [0] + [3] == [0, 3];
    AppendTurn(m, 1, 0.0, [t1], [0], 3, [], [1, 1, 1, 0], [0], []);
    var i1 := Item(Req(1, 0.0, [t1], [0, 3], [], 1, Running), 1);
    var m1 := m.(pool := FourBlocks([], [1, 1, 1, 1], [0], []), todo := m.todo[1..], items := [i1]);
    assert [] + [i1] == [i1];
    PreemptTurn(m1, 2, 1.0, [t2], [1], [1, 1, 1, 1], [0], []);
    SwapsNewest(m1, 3, 2.0, [t3], 2, [], [1, 1, 1, 1], 0, []);
    assert SetAt([1, 1, 1, 1], 2, 0) == [1, 1, 0, 1] && [] + [2] == [2];
    var m2 := PreemptNewest(Small(), m1);
    assert m2.todo == [m.todo[1]] && [2] == [2] + [];
    assert SetAt([1, 1, 0, 1], 2, 1) == [1, 1, 1, 1] && [1] + [2] == [1, 2];
    AppendTurn(m2, 2, 1.0, [t2], [1], 2, [], [1, 1, 0, 1], [], [2]);
    var i2 := Item(Req(2, 1.0, [t2], [1, 2], [], 1, Running), 1);
    assert [i1] + [i2] == [i1, i2] && m2.todo[1..] == [];
    AllVisited(m2.(pool := FourBlocks([], [1, 1, 1, 1], [], [2]), todo := [], items := [i1, i2]));
  }

  lemma {:induction false} SecondStep(t1: Token, t2: Token, t3: Token, retired: seq<Seq>)
    ensures var m := Schedule(Small(), Grown(t1, t2, t3, retired));
      && m.pool == FourBlocks([], [1, 1, 1, 1], [], [2])
      && m.items == [Item(Req(1, 0.0, [t1], [0, 3], [], 1, Running), 1), Item(Req(2, 1.0, [t2], [1, 2], [], 1, Running), 1)]
      && m.swapped == [Req(3, 2.0, [t3], [], [0], 1, Preempted)] && m.preempted == [] && m.waiting == [] && m.retired == retired
  {
    hide Req, FourBlocks, RunLoop, Schedule, Small;
    var st := Grown(t1, t2, t3, retired);
    VisitsAll(st);
    var todo := seq(|st.running|, i requires 0 <= i < |st.running| => Item(st.running[i], 1));
    assert todo == [Item(st.running[0], 1), Item(st.running[1], 1), Item(st.running[2], 1)];
    SecondVisits(Begin(st).(items := [], todo := todo), t1, t2, t3);
  }

  lemma {:induction false} AllVisited(m: Mid)
    requires m.todo == []
    ensures RunLoop(Small(), m) == m
  {
  }

  /** With nobody to admit, or somebody to bring back first, a step starts with the running requests; and if it
      preempts, it ends with them. */
  lemma {:induction false} VisitsAll(st: State)
    requires st.waiting == [] && st.preempted == []
    ensures var m := RunLoop(Small(), Begin(st).(items := [], todo := seq(|st.running|, i requires 0 <= i < |st.running| => Item(st.running[i], 1))));
      m.numPreempted > 0 ==> Schedule(Small(), st) == m
  {
    EnoughAdmitted(Begin(st), 20);
    BatchEmptyIdle(Begin(st).items);
    IdleConcat(st.running, []);
    assert Plan(Small(), Seqs(Begin(st).items)) == seq(|st.running|, i requires 0 <= i < |st.running| => Item(st.running[i], 1));
    hide RunLoop, AdmitLoop, SwapInLoop, Batch;
  }

  lemma {:induction false} ThirdVisits(m: Mid, t1: Token, u1: Token, t2: Token, u2: Token)
    requires m.pool == FourBlocks([], [1, 1, 1, 1], [], [2]) && m.items == [] && m.preempted == []
    requires m.todo == [Item(Req(1, 0.0, [t1, u1], [0, 3], [], 2, Running), 1), Item(Req(2, 1.0, [t2, u2], [1, 2], [], 2, Running), 1)]
    ensures RunLoop(Small(), m)
         == m.(pool := FourBlocks([1], [1, 0, 1, 1], [], [2, 2, 1]), todo := [],
               items := [Item(Req(1, 0.0, [t1, u1], [0, 3, 2], [], 2, Running), 1)],
               preempted := [Req(2, 1.0, [t2, u2], [], [], 0, Preempted)], numPreempted := m.numPreempted + 1)
  {
    hide Req, FourBlocks, RunLoop, PreemptNewest, Small;
    PreemptTurn(m, 1, 0.0, [t1, u1], [0, 3], [1, 1, 1, 1], [], [2]);
    DropsNewest(m, 2, 1.0, [t2, u2], 1, 2, [], [1, 1, 1, 1], [2]);
    assert SetAt([1, 1, 1, 1], 2, 0) == [1, 1, 0, 1] && SetAt([1, 1, 0, 1], 1, 0) == [1, 0, 0, 1] && [] + [2] + [1] == [2, 1] && [2] + [2] + [1] == [2, 2, 1];
    var m1 := PreemptNewest(Small(), m);
    assert m1.todo == [m.todo[0]] && m1.todo[1..] == [] && [2, 1] == [2] + [1];
    assert SetAt([1, 0, 0, 1], 2, 1) == [1, 0, 1, 1] && [0, 3] + [2] == [0, 3, 2];
    AppendTurn(m1, 1, 0.0, [t1, u1], [0, 3], 2, [1], [1, 0, 0, 1], [], [2, 2, 1]);
    var i1 := Item(Req(1, 0.0, [t1, u1], [0, 3, 2], [], 2, Running), 1);
    assert [] + [i1] == [i1];
    AllVisited(m1.(pool := FourBlocks([1], [1, 0, 1, 1], [], [2, 2, 1]), todo := [], items := [i1]));
  }

  lemma {:induction false} ThirdStep(t1: Token, u1: Token, t2: Token, u2: Token, t3: Token, retired: seq<Seq>)
    ensures var m := Schedule(Small(), Parked(t1, u1, t2, u2, t3, retired));
      && m.pool == FourBlocks([1], [1, 0, 1, 1], [], [2, 2, 1])
      && m.items == [Item(Req(1, 0.0, [t1, u1], [0, 3, 2], [], 2, Running), 1)]
      && m.swapped == [Req(3, 2.0, [t3], [], [0], 1, Preempted)] && m.preempted == [Req(2, 1.0, [t2, u2], [], [], 0, Preempted)]
      && m.waiting == [] && m.retired == retired
  {
    hide Req, FourBlocks, RunLoop, Schedule, Small;
    var st := Parked(t1, u1, t2, u2, t3, retired);
    VisitsAll(st);
    var todo := seq(|st.running|, i requires 0 <= i < |st.running| => Item(st.running[i], 1));
    assert todo == [Item(st.running[0], 1), Item(st.running[1], 1)];
    ThirdVisits(Begin(st).(items := [], todo := todo), t1, u1, t2, u2);
  }

  // --- the tokens of each step -----------------------------------------------------------------------------------------

  lemma {:induction false} ReqGoes(id: int, arrival: real, out: seq<Token>, table: seq<Block>)
    requires |out| < 9
    ensures Going(Item(Req(id, arrival, out, table, [], |out|, Running), 1))
  {
    assert ([0] + out)[1..] == out;
  }

  lemma {:induction false} LaterOne(id: int, arrival: real, out: seq<Token>, table: seq<Block>, rest: seq<Item>,
                                    sampled: seq<Token>)
    requires |out| < 9 && |sampled| == |rest| + 1 && forall i :: 0 <= i < |rest| ==> Going(rest[i])
    ensures var it := Item(Req(id, arrival, out, table, [], |out|, Running), 1);
      && (forall i :: 0 <= i < |[it] + rest| ==> Going(([it] + rest)[i]))
      && Later([it] + rest, sampled)
         == [Req(id, arrival, out + [sampled[0]], table, [], |out| + 1, Running)] + Later(rest, sampled[1..])
  {
    var it := Item(Req(id, arrival, out, table, [], |out|, Running), 1);
    assert ([0] + out)[1..] == out;
    ReqGoes(id, arrival, out, table);
    hide Going;
    assert ([it] + rest)[1..] == rest;
  }

  lemma {:induction false} AllTake(m: Mid, sampled: seq<Token>)
    requires forall i :: 0 <= i < |m.items| ==> Going(m.items[i])
    requires |sampled| == NumSampled(m.items)
    ensures |sampled| == |m.items|
    ensures Update(Small(), m, sampled).0 == State(m.pool, Later(m.items, sampled), m.swapped, m.preempted, m.waiting, m.retired)
  {
    AllGoOn(m.pool, m.items, sampled);
    hide UpdateItems, Going, Later, NumSampled;
    assert m.retired + [] == m.retired;
  }

  lemma {:induction false} FirstUpdate(m: Mid, sampled: seq<Token>)
    requires m.pool == FourBlocks([3], [1, 1, 1, 0], [0], []) && m.items == Admitted() && m.swapped == m.preempted == m.waiting == []
    requires |sampled| == NumSampled(m.items)
    ensures |sampled| == 3 && Update(Small(), m, sampled).0 == Grown(sampled[0], sampled[1], sampled[2], m.retired)
  {
    hide Req, Going, FourBlocks, NumSampled, Update, Small;
    var i2, i3 := m.items[1], m.items[2];
    var none: seq<Token> := [];
    ReqGoes(1, 0.0, none, [0]);
    ReqGoes(2, 1.0, none, [1]);
    ReqGoes(3, 2.0, none, [2]);
    AllTake(m, sampled);
    LaterOne(3, 2.0, none, [2], [], sampled[2..]);
    LaterOne(2, 1.0, none, [1], [i3], sampled[1..]);
    LaterOne(1, 0.0, none, [0], [i2, i3], sampled);
    assert [i3] + [] == [i3] && [i2] + [i3] == [i2, i3] && [m.items[0]] + [i2, i3] == m.items;
    assert sampled[1..][1..] == sampled[2..] && forall i :: 0 <= i < 3 ==> none + [sampled[i]] == [sampled[i]];
  }

  lemma {:induction false} SecondUpdate(m: Mid, t1: Token, t2: Token, t3: Token, sampled: seq<Token>)
    requires m.pool == FourBlocks([], [1, 1, 1, 1], [], [2]) && m.preempted == m.waiting == []
    requires m.items == [Item(Req(1, 0.0, [t1], [0, 3], [], 1, Running), 1), Item(Req(2, 1.0, [t2], [1, 2], [], 1, Running), 1)]
    requires m.swapped == [Req(3, 2.0, [t3], [], [0], 1, Preempted)] && |sampled| == NumSampled(m.items)
    ensures |sampled| == 2 && Update(Small(), m, sampled).0 == Parked(t1, sampled[0], t2, sampled[1], t3, m.retired)
  {
    hide Req, Going, FourBlocks, NumSampled, Update, Small;
    var i2 := m.items[1];
    ReqGoes(1, 0.0, [t1], [0, 3]);
    ReqGoes(2, 1.0, [t2], [1, 2]);
    AllTake(m, sampled);
    LaterOne(2, 1.0, [t2], [1, 2], [], sampled[1..]);
    LaterOne(1, 0.0, [t1], [0, 3], [i2], sampled);
    assert [i2] + [] == [i2] && [m.items[0]] + [i2] == m.items;
    assert [t1] + [sampled[0]] == [t1, sampled[0]] && [t2] + [sampled[1]] == [t2, sampled[1]];
  }

  lemma {:induction false} ThirdUpdate(m: Mid, t1: Token, u1: Token, t2: Token, u2: Token, t3: Token, sampled: seq<Token>)
    requires m.pool == FourBlocks([1], [1, 0, 1, 1], [], [2, 2, 1]) && m.waiting == []
    requires m.items == [Item(Req(1, 0.0, [t1, u1], [0, 3, 2], [], 2, Running), 1)]
    requires m.swapped == [Req(3, 2.0, [t3], [], [0], 1, Preempted)] && m.preempted == [Req(2, 1.0, [t2, u2], [], [], 0, Preempted)]
    requires |sampled| == NumSampled(m.items)
    ensures |sampled| == 1 && Update(Small(), m, sampled).0 == Dropped([t1, u1, sampled[0]], t2, u2, t3, m.retired)
  {
    hide Req, Going, FourBlocks, NumSampled, Update, Small;
    ReqGoes(1, 0.0, [t1, u1], [0, 3, 2]);
    AllTake(m, sampled);
    LaterOne(1, 0.0, [t1, u1], [0, 3, 2], [], sampled);
    assert [m.items[0]] + [] == m.items && [t1, u1] + [sampled[0]] == [t1, u1, sampled[0]];
  }

  // --- the run -----------------------------------------------------------------------------------------------------------

  function Arrival(id: int): Event {
    Add(id, [0], Ten(), id as real - 1.0, None)
  }

  lemma {:induction false} EmptyPool()
    ensures NewPool(4, 1) == FourBlocks([0, 1, 2, 3], [0, 0, 0, 0], [0], [])
  {
  }

  /** A new request joins the end of the waiting queue. */
  lemma {:induction false} Arrives(model: Model, e: Engine, id: int)
    requires e.st.running == e.st.swapped == e.st.preempted == []
    requires forall i :: 0 <= i < |e.st.waiting| ==> e.st.waiting[i].id < id && e.st.waiting[i].arrival < id as real - 1.0
    ensures Next(Small(), model, e, Arrival(id))
         == Done(e.(st := e.st.(waiting := e.st.waiting + [Req(id, id as real - 1.0, [], [], [], 0, Waiting)])), [])
  {
    var w := e.st.waiting;
    var s := NewSeq(Small(), id, [0], Ten(), id as real - 1.0, None);
    assert LiveSeqs(e.st) == w;
    NotFound(w, id);
    Last(w, s);
    IsReq(id);
    hide Enqueue, FindId, Req, NewSeq, Key, KeyLess, Silent;
  }

  lemma {:induction false} IsReq(id: int)
    ensures NewSeq(Small(), id, [0], Ten(), id as real - 1.0, None) == Req(id, id as real - 1.0, [], [], [], 0, Waiting)
  {
    var none: seq<Token> := [];
    assert [0] + none == [0] && Silent(none) == [];
  }

  lemma {:induction false} NotFound(seqs: seq<Seq>, id: int)
    requires forall i :: 0 <= i < |seqs| ==> seqs[i].id < id
    ensures FindId(seqs, id) == None
    decreases |seqs|
  {
    if seqs != [] {
      NotFound(seqs[1..], id);
    }
  }

  lemma {:induction false} Last(waiting: seq<Seq>, s: Seq)
    requires forall i :: 0 <= i < |waiting| ==> waiting[i].arrival < s.arrival
    ensures Enqueue(Small(), waiting, s) == waiting + [s]
    decreases |waiting|
  {
    if waiting != [] {
      Last(waiting[1..], s);
      assert [waiting[0]] + (waiting[1..] + [s]) == waiting + [s];
    } else {
      assert [s] + waiting == waiting + [s];
    }
  }

  lemma {:induction false} RunCons(cfg: Config, model: Model, e: Engine, ev: Event, rest: seq<Event>)
    requires cfg.blockSize > 0 && Next(cfg, model, e, ev).Done?
    ensures var r, r' := Run(cfg, model, e, [ev] + rest), Run(cfg, model, Next(cfg, model, e, ev).e, rest);
      r.Done? == r'.Done? && (r.Done? ==> r.e == r'.e)
  {
    hide Next;
    assert ([ev] + rest)[1..] == rest;
  }

  /** One step of a sound engine. */
  lemma {:induction false} OneStep(model: Model, e: Engine) returns (e': Engine, sampled: seq<Token>)
    requires Guarantees.Sound(Small(), model, e)
    ensures Next(Small(), model, e, Step).Done? && e' == Next(Small(), model, e, Step).e && Guarantees.Sound(Small(), model, e')
    ensures var m := Schedule(Small(), e.st);
      |sampled| == NumSampled(m.items) && e'.st == Update(Small(), m, sampled).0
  {
    hide Guarantees.FailedOutgrown, Modes.ModeOk, EngineOk, StepEngine, Schedule, UpdateItems, NumSampled;
    Guarantees.NextSound(Small(), model, e, Step);
    e' := Next(Small(), model, e, Step).e;
    sampled := StepIsUpdate(Small(), model, e);
  }

  function UpToFirstStep(): seq<Event> {
    [Arrival(1), Arrival(2), Arrival(3), Step]
  }

  lemma {:induction false} FirstStepIs(model: Model, mem: Mem) returns (e: Engine, t1: Token, t2: Token, t3: Token)
    requires MemShape(Small(), model, mem)
    ensures Run(Small(), model, Start(Small(), mem), UpToFirstStep()).Done? && e == Run(Small(), model, Start(Small(), mem), UpToFirstStep()).e
    ensures Guarantees.Sound(Small(), model, e) && e.st == Grown(t1, t2, t3, [])
  {
    hide Guarantees.Sound, FourBlocks, Next, Run, Schedule, UpdateItems, Small, MemShape, Req;
    SmallOk();
    var e0 := Start(Small(), mem);
    EmptyPool();
    assert e0.st == State(FourBlocks([0, 1, 2, 3], [0, 0, 0, 0], [0], []), [], [], [], [], []) by {
      SmallSizes();
    }
    Guarantees.StartSound(Small(), model, mem);
    var e1, e2, e3 := AllArrive(model, e0);
    FirstStep(e3.st);
    var sampled;
    e, sampled := OneStep(model, e3);
    FirstUpdate(Schedule(Small(), e3.st), sampled);
    t1, t2, t3 := sampled[0], sampled[1], sampled[2];
    RunCons(Small(), model, e3, Step, []);
    RunCons(Small(), model, e2, Arrival(3), [Step]);
    RunCons(Small(), model, e1, Arrival(2), [Arrival(3), Step]);
    RunCons(Small(), model, e0, Arrival(1), [Arrival(2), Arrival(3), Step]);
    assert [Step] + [] == [Step] && [Arrival(3)] + [Step] == [Arrival(3), Step] && [Arrival(2)] + [Arrival(3), Step] == [Arrival(2), Arrival(3), Step];
    assert [Arrival(1)] + [Arrival(2), Arrival(3), Step] == UpToFirstStep();
    NoEvents(model, e);
  }

  lemma {:induction false} NoEvents(model: Model, e: Engine)
    ensures Run(Small(), model, e, []) == Done(e, [])
  {
  }

  lemma {:induction false} SmallOk()
    ensures ConfigOk(Small()) && Small().blockSize > 0
  {
  }

  lemma {:induction false} SmallSizes()
    ensures Small().numBlocks == 4 && Small().numCpuBlocks == 1
  {
  }

  lemma {:induction false} AllArrive(model: Model, e0: Engine) returns (e1: Engine, e2: Engine, e3: Engine)
    requires Guarantees.Sound(Small(), model, e0) && e0.st == State(FourBlocks([0, 1, 2, 3], [0, 0, 0, 0], [0], []), [], [], [], [], [])
    ensures Next(Small(), model, e0, Arrival(1)).Done? && e1 == Next(Small(), model, e0, Arrival(1)).e
    ensures Next(Small(), model, e1, Arrival(2)).Done? && e2 == Next(Small(), model, e1, Arrival(2)).e
    ensures Next(Small(), model, e2, Arrival(3)).Done? && e3 == Next(Small(), model, e2, Arrival(3)).e
    ensures Guarantees.Sound(Small(), model, e3) && e3.st == State(FourBlocks([0, 1, 2, 3], [0, 0, 0, 0], [0], []), [], [], [], Three(), [])
  {
    hide Guarantees.Sound, FourBlocks, Next, Small;
    SmallOk();
    Arrives(model, e0, 1);
    Guarantees.NextSound(Small(), model, e0, Arrival(1));
    e1 := Next(Small(), model, e0, Arrival(1)).e;
    var q1, q2, q3 := Three()[0], Three()[1], Three()[2];
    assert [] + [q1] == [q1] && [q1] + [q2] == [q1, q2] && [q1, q2] + [q3] == Three();
    assert e1.st.waiting == [q1];
    Arrives(model, e1, 2);
    Guarantees.NextSound(Small(), model, e1, Arrival(2));
    e2 := Next(Small(), model, e1, Arrival(2)).e;
    assert e2.st.waiting == [q1, q2];
    Arrives(model, e2, 3);
    Guarantees.NextSound(Small(), model, e2, Arrival(3));
    e3 := Next(Small(), model, e2, Arrival(3)).e;
  }

  /** The order is not kept: request 2, admitted ahead of request 3, stands behind it two steps later, when the one
      is on the host and the other waits for recomputation. Both are states of a run from an empty engine. */
  lemma {:induction false} MixedVictimsReorder(model: Model, mem: Mem)
    requires MemShape(Small(), model, mem)
    ensures var r := Run(Small(), model, Start(Small(), mem), UpToFirstStep());
      && ConfigOk(Small()) && Small().swap && r.Done?
      && Lineup(Begin(r.e.st)) == [1, 2, 3] && Ahead(Begin(r.e.st), 2, 3)
      && var r' := Run(Small(), model, r.e, [Step, Step]);
      && r'.Done? && Lineup(Begin(r'.e.st)) == [1, 3, 2] && !Ahead(Begin(r'.e.st), 2, 3) && !Unmixed(Begin(r'.e.st))
  {
    hide Guarantees.Sound, FourBlocks, Next, Run, Schedule, UpdateItems, Small, MemShape, Req, Lineup, Ahead, Unmixed;
    SmallOk();
    assert Small().swap by { SmallSwaps(); }
    var e, t1, t2, t3 := FirstStepIs(model, mem);
    SecondStep(t1, t2, t3, []);
    var e1, us := OneStep(model, e);
    SecondUpdate(Schedule(Small(), e.st), t1, t2, t3, us);
    ThirdStep(t1, us[0], t2, us[1], t3, []);
    var e2, vs := OneStep(model, e1);
    ThirdUpdate(Schedule(Small(), e1.st), t1, us[0], t2, us[1], t3, vs);
    RunCons(Small(), model, e1, Step, []);
    RunCons(Small(), model, e, Step, [Step]);
    assert [Step] + [] == [Step] && [Step] + [Step] == [Step, Step];
    NoEvents(model, e2);
    InOrder(t1, t2, t3);
    OutOfOrder([t1, us[0], vs[0]], t2, us[1], t3);
  }

  lemma {:induction false} SmallSwaps()
    ensures Small().swap
  {
  }

  lemma {:induction false} InOrder(t1: Token, t2: Token, t3: Token)
    ensures Lineup(Begin(Grown(t1, t2, t3, []))) == [1, 2, 3] && Ahead(Begin(Grown(t1, t2, t3, [])), 2, 3)
  {
    BeginLineup(Grown(t1, t2, t3, []));
    var m := Begin(Grown(t1, t2, t3, []));
    assert m.waiting == [] && Lineup(m) == [1, 2, 3];
    hide Begin, Grown, Lineup;
    assert [1, 2, 3][1] == 2 && [1, 2, 3][2] == 3;
  }

  lemma {:induction false} OutOfOrder(out: seq<Token>, t2: Token, u2: Token, t3: Token)
    ensures var m := Begin(Dropped(out, t2, u2, t3, []));
      Lineup(m) == [1, 3, 2] && !Ahead(m, 2, 3) && !Unmixed(m)
  {
    var st := Dropped(out, t2, u2, t3, []);
    BeginLineup(st);
    assert Lineup(Begin(st)) == [1, 3, 2];
    assert [1, 3, 2][1] == 3 && [1, 3, 2][2] == 2;
  }
}
