// Termination: with no new arrivals the engine runs dry. Every step with work pending lowers a
// lexicographic measure, the tokens live requests may still generate and then the tokens the oldest
// running request has left to compute; unchunked, every step lowers the first part.
module Termination {
  import opened Basics
  import opened Paging
  import opened BlockPool
  import opened Transformer
  import opened Streaming
  import opened Scheduling
  import opened Accounting
  import opened Planning
  import opened Stepping
  import opened Census
  import opened EngineRun
  import opened Requests
  import opened Exhaustion
  import opened Progress
  import opened Modes

  /** The tokens a request may still generate. */
  function Left(s: Seq): int {
    s.params.maxTokens - NumOutput(s.gen)
  }

  function Work(seqs: seq<Seq>): int {
    if seqs == [] then 0 else Left(seqs[0]) + Work(seqs[1..])
  }

  lemma {:induction false} WorkConcat(a: seq<Seq>, b: seq<Seq>)
    ensures Work(a + b) == Work(a) + Work(b)
    decreases |a|
  {
    if a == [] {
      assert a + b == b;
    } else {
      assert (a + b)[1..] == a[1..] + b;
      WorkConcat(a[1..], b);
    }
  }

  // --- work depends on the requests, not on their queues ---------------------------------------------------------

  lemma {:induction false} CoreAt(seqs: seq<Seq>, c: Seq) returns (k: nat)
    requires c in Total(seqs, CoreOf)
    ensures k < |seqs| && Core(seqs[k]) == c
    decreases |seqs|
  {
    hide Core;
    if c in CoreOf(seqs[0]) {
      k := 0;
    } else {
      var j := CoreAt(seqs[1..], c);
      k := j + 1;
    }
  }

  lemma {:induction false} CutAt(seqs: seq<Seq>, k: nat)
    requires k < |seqs|
    ensures Total(seqs, CoreOf) == Total(seqs[..k] + seqs[k + 1..], CoreOf) + CoreOf(seqs[k])
    ensures Work(seqs) == Work(seqs[..k] + seqs[k + 1..]) + Left(seqs[k])
  {
    hide Core, Left, CoreOf;
    var a, b := seqs[..k], seqs[k + 1..];
    assert seqs == a + ([seqs[k]] + b);
    TotalConcat(a, [seqs[k]] + b, CoreOf);
    TotalFront(seqs[k], b, CoreOf);
    TotalConcat(a, b, CoreOf);
    WorkConcat(a, [seqs[k]] + b);
    assert ([seqs[k]] + b)[1..] == b;
    WorkConcat(a, b);
  }

  lemma {:induction false} LeftOfCore(s: Seq, t: Seq)
    requires Core(s) == Core(t)
    ensures Left(s) == Left(t)
  {
    assert Left(Core(s)) == Left(s) && Left(Core(t)) == Left(t);
  }

  lemma {:induction false} Cancel(c: multiset<Seq>, x: multiset<Seq>, y: multiset<Seq>)
    requires c + x == y + c
    ensures x == y
  {
    assert x == c + x - c && y == y + c - c;
  }

  /** The same requests in any order have the same work. */
  lemma {:induction false} WorkByCores(a: seq<Seq>, b: seq<Seq>)
    requires Total(a, CoreOf) == Total(b, CoreOf)
    ensures Work(a) == Work(b)
    decreases |a|
  {
    hide Core, Left;
    if a == [] {
      SomeCore(b);
    } else {
      assert Core(a[0]) in CoreOf(a[0]);
      var k := CoreAt(b, Core(a[0]));
      CutAt(b, k);
      LeftOfCore(a[0], b[k]);
      var b' := b[..k] + b[k + 1..];
      assert CoreOf(a[0]) == CoreOf(b[k]);
      Cancel(CoreOf(a[0]), Total(a[1..], CoreOf), Total(b', CoreOf));
      WorkByCores(a[1..], b');
    }
  }

  function AllOf(m: Mid): seq<Seq> {
    Seqs(m.items) + Seqs(m.todo) + m.swapped + m.preempted + m.waiting
  }

  lemma {:induction false} BeginAll(st: State)
    ensures AllOf(Begin(st)) == LiveSeqs(st)
  {
    IdleConcat(st.running, []);
    assert Seqs(Begin(st).todo) == [];
  }

  lemma {:induction false} AllCores(m: Mid)
    ensures Total(AllOf(m), CoreOf) == LiveCores(m)
  {
    hide Core;
    var a, b, c, d := Seqs(m.items), Seqs(m.todo), m.swapped, m.preempted;
    TotalConcat(a, b, CoreOf);
    TotalConcat(a + b, c, CoreOf);
    TotalConcat(a + b + c, d, CoreOf);
    TotalConcat(a + b + c + d, m.waiting, CoreOf);
  }

  /** Planning keeps the work but for that of the requests it fails. */
  lemma {:induction false} MovesWork(m: Mid, m': Mid, gone: seq<Seq>)
    requires Moves(m, m', gone)
    ensures Work(AllOf(m)) == Work(AllOf(m')) + Work(gone)
  {
    hide LiveCores, Total, Work, AllOf;
    AllCores(m);
    AllCores(m');
    TotalConcat(AllOf(m'), gone, CoreOf);
    WorkByCores(AllOf(m), AllOf(m') + gone);
    WorkConcat(AllOf(m'), gone);
  }

  // --- taking results ----------------------------------------------------------------------------------------------

  lemma {:induction false} SampleWork(cfg: Config, p: Pool, it: Item, sampled: seq<Token>)
    requires cfg.blockSize > 0 && (Samples(it) ==> sampled != []) && Left(it.s) >= 1
    ensures Work(UpdateItem(cfg, p, it, sampled).running) <= Left(it.s) - (if Samples(it) then 1 else 0)
  {
    hide Publish, ExtendHashes, FreeTable, AppendToken;
    var u := UpdateItem(cfg, p, it, sampled);
    if it.n > 0 {
      var s1 := Advance(cfg, p, it).1;
      assert s1.gen == it.s.gen && s1.params == it.s.params;
      if Samples(it) {
        TokenTaken(cfg, s1, sampled[0]);
      }
    }
    if u.running != [] {
      assert u.running[1..] == [];
    }
  }

  lemma {:induction false} TokenTaken(cfg: Config, s: Seq, t: Token)
    ensures NumOutput(AppendToken(cfg.serving, s.params, s.gen, t).0) == NumOutput(s.gen) + 1
  {
  }

  /** Every sampled token uses up at least one. */
  lemma {:induction false} UpdateWork(cfg: Config, p: Pool, items: seq<Item>, sampled: seq<Token>)
    requires cfg.blockSize > 0 && |sampled| == NumSampled(items) && forall i :: 0 <= i < |items| ==> Left(items[i].s) >= 1
    ensures Work(UpdateItems(cfg, p, items, sampled).running) <= Work(Seqs(items)) - NumSampled(items)
    decreases |items|
  {
    hide UpdateItem, Left, Samples;
    if items != [] {
      var it, tail := items[0], items[1..];
      SampleWork(cfg, p, it, sampled);
      var u := UpdateItem(cfg, p, it, sampled);
      var rest := if Samples(it) && sampled != [] then sampled[1..] else sampled;
      UpdateWork(cfg, u.pool, tail, rest);
      WorkConcat(u.running, UpdateItems(cfg, u.pool, tail, rest).running);
      SeqsCuts(items);
    }
  }

  lemma {:induction false} WorkPositive(seqs: seq<Seq>)
    requires forall i :: 0 <= i < |seqs| ==> Left(seqs[i]) >= 1
    ensures Work(seqs) >= |seqs|
    decreases |seqs|
  {
    if seqs != [] {
      WorkPositive(seqs[1..]);
    }
  }

  lemma {:induction false} ItemsLeft(cfg: Config, m: Mid)
    requires cfg.blockSize > 0 && MidOk(cfg, m)
    ensures forall i :: 0 <= i < |m.items| ==> Left(m.items[i].s) >= 1
  {
    hide Valid, CpuValid, Unique, QueuesOk, TodosOk, RunOk, HashesOk;
    forall i | 0 <= i < |m.items| ensures Left(m.items[i].s) >= 1 {
      assert ItemOk(cfg, m.pool, m.items[i]);
    }
  }

  lemma {:induction false} GoneLeft(cfg: Config, m: Mid, retired: seq<Seq>, gone: seq<Seq>)
    requires cfg.blockSize > 0 && m.retired == retired + gone && NewOutgrown(cfg, m, |retired|)
    ensures Work(gone) >= |gone|
  {
    forall i | 0 <= i < |gone| ensures Left(gone[i]) >= 1 {
      assert m.retired[|retired| + i] == gone[i];
      assert Outgrown(cfg, m.retired[|retired| + i]);
    }
    WorkPositive(gone);
  }

  // --- a step ------------------------------------------------------------------------------------------------------

  /** A step uses up one token of work for each failure and each sampled token. */
  lemma {:induction false} StepWork(cfg: Config, st: State, sampled: seq<Token>)
    requires cfg.blockSize > 0 && StateOk(cfg, st) && |sampled| == NumSampled(Schedule(cfg, st).items)
    ensures var m := Schedule(cfg, st);
      Work(LiveSeqs(Update(cfg, m, sampled).0)) <= Work(LiveSeqs(st)) - |m.outputs| - NumSampled(m.items)
  {
    hide StateOk, MidOk, Schedule, Moves, UpdateItems, NumSampled, Work, NewOutgrown, Left;
    var m := Schedule(cfg, st);
    var st' := Update(cfg, m, sampled).0;
    ScheduleOk(cfg, st);
    var gone := ScheduleMoves(cfg, st);
    MovesWork(Begin(st), m, gone);
    MovesGone(Begin(st), m, gone);
    ScheduleOutgrown(cfg, st);
    GoneLeft(cfg, m, st.retired, gone);
    ItemsLeft(cfg, m);
    UpdateWork(cfg, m.pool, m.items, sampled);
    LiveWork(st);
    LiveWork(st');
    MidWork(Begin(st));
    MidWork(m);
    IdleConcat(st.running, []);
    assert Seqs(Begin(st).todo) == [] && Seqs(m.todo) == [];
  }

  lemma {:induction false} MovesGone(m: Mid, m': Mid, gone: seq<Seq>)
    requires Moves(m, m', gone)
    ensures m'.retired == m.retired + gone && |m'.outputs| == |m.outputs| + |gone|
  {
  }

  lemma {:induction false} LiveWork(st: State)
    ensures Work(LiveSeqs(st)) == Work(st.running) + Work(st.swapped) + Work(st.preempted) + Work(st.waiting)
  {
    hide Work;
    WorkConcat(st.running, st.swapped);
    WorkConcat(st.running + st.swapped, st.preempted);
    WorkConcat(st.running + st.swapped + st.preempted, st.waiting);
  }

  lemma {:induction false} MidWork(m: Mid)
    ensures Work(AllOf(m)) == Work(Seqs(m.items)) + Work(Seqs(m.todo)) + Work(m.swapped) + Work(m.preempted) + Work(m.waiting)
    ensures Work([]) == 0
  {
    hide Work;
    var a, b, c, d := Seqs(m.items), Seqs(m.todo), m.swapped, m.preempted;
    WorkConcat(a, b);
    WorkConcat(a + b, c);
    WorkConcat(a + b + c, d);
    WorkConcat(a + b + c + d, m.waiting);
    NoWork();
  }

  lemma {:induction false} NoWork()
    ensures Work([]) == 0
  {
  }

  /** What the oldest running request has left to compute; more than that when nothing runs. */
  function HeadLeft(cfg: Config, st: State): int {
    if st.running == [] then cfg.serving.maxModelLen else Uncomputed(st.running[0])
  }

  function Measure(cfg: Config, st: State): int {
    Work(LiveSeqs(st)) * (cfg.serving.maxModelLen + 1) + HeadLeft(cfg, st)
  }

  lemma {:induction false} HeadLeftBounds(cfg: Config, st: State)
    requires cfg.blockSize > 0 && StateOk(cfg, st)
    ensures 0 <= HeadLeft(cfg, st) <= cfg.serving.maxModelLen
    ensures st.running != [] ==> HeadLeft(cfg, st) < cfg.serving.maxModelLen
  {
    hide Valid, CpuValid, Unique, QueuesOk, TodosOk, RunOk, HashesOk;
    if st.running != [] {
      assert ItemOk(cfg, st.pool, Begin(st).items[0]);
    }
  }

  lemma {:induction false} SomethingSampled(items: seq<Item>, i: nat)
    requires i < |items| && Samples(items[i])
    ensures NumSampled(items) >= 1
    decreases |items|
  {
    if i > 0 {
      SomethingSampled(items[1..], i - 1);
    }
  }

  /** Unchunked, every step samples a token or fails a request. */
  lemma {:induction false} UnchunkedUses(cfg: Config, st: State)
    requires ConfigOk(cfg) && !cfg.chunked && StateOk(cfg, st) && ModeOk(cfg, st) && HasWork(st)
    ensures var m := Schedule(cfg, st); |m.outputs| + NumSampled(m.items) >= 1
  {
    hide StateOk, ModeOk, Schedule, Batch;
    var m := Schedule(cfg, st);
    ScheduleProgresses(cfg, st);
    ScheduleShape(cfg, st);
    BatchEmptyIdle(m.items);
    if m.outputs == [] {
      var i :| 0 <= i < |m.items| && m.items[i].n != 0;
      assert EndsDecoding(m.items[i]);
      SomethingSampled(m.items, i);
    }
  }

  /** Chunked, a step that neither samples nor fails runs the oldest request's prefill alone. */
  lemma {:induction false} ChunkedAlone(cfg: Config, st: State)
    requires ConfigOk(cfg) && cfg.chunked && StateOk(cfg, st) && ModeOk(cfg, st) && HasWork(st)
    requires var m := Schedule(cfg, st); m.outputs == [] && NumSampled(m.items) == 0
    ensures var items := Schedule(cfg, st).items;
      && |items| == 1 && 1 <= items[0].n < Uncomputed(items[0].s)
      && (st.running != [] ==> Uncomputed(items[0].s) == Uncomputed(st.running[0]))
  {
    hide MidOk, ModeOk, ScheduleChunked, SchedulePrefillPriority, BatchTokens, OneAtMost;
    var m := Schedule(cfg, st);
    ScheduleShape(cfg, st);
    ChunkedProgresses(cfg, Begin(st));
    SeveralSample(cfg, m);
    LoneItem(cfg, m, st);
  }

  lemma {:induction false} SeveralSample(cfg: Config, m: Mid)
    requires cfg.chunked && EndShape(cfg, m)
    ensures |m.items| > 1 ==> NumSampled(m.items) > 0
  {
    hide BatchTokens, NumSampled, OneAtMost, AllDecoding;
    if |m.items| > 1 {
      assert EndsDecoding(m.items[0]);
      SomethingSampled(m.items, 0);
    }
  }

  lemma {:induction false} LoneItem(cfg: Config, m: Mid, st: State)
    requires cfg.blockSize > 0 && StateOk(cfg, st) && m == Schedule(cfg, st) && |m.items| == 1 && m.items[0].n >= 1 && NumSampled(m.items) == 0
    ensures m.items[0].n < Uncomputed(m.items[0].s)
  {
    hide StateOk, Schedule;
    ScheduleOk(cfg, st);
    assert ItemOk(cfg, m.pool, m.items[0]);
    hide MidOk, RequestOk, TableOk, BlocksFor;
    if m.items[0].n >= Uncomputed(m.items[0].s) {
      SomethingSampled(m.items, 0);
    }
  }

  lemma {:induction false} LoneUpdate(cfg: Config, p: Pool, items: seq<Item>)
    requires cfg.blockSize > 0 && |items| == 1 && 1 <= items[0].n < Uncomputed(items[0].s)
    ensures var u := UpdateItems(cfg, p, items, []);
      |u.running| == 1 && Uncomputed(u.running[0]) == Uncomputed(items[0].s) - items[0].n
  {
    hide Publish, ExtendHashes;
    var u := UpdateItem(cfg, p, items[0], []);
    assert items[1..] == [];
    assert UpdateItems(cfg, u.pool, items[1..], []) == Updated(u.pool, [], [], []);
    assert u.running + [] == u.running;
  }

  lemma {:induction false} LessWork(w: int, w': int, h: int, h': int, l: nat)
    requires w' <= w - 1 && h' <= l && 0 <= h
    ensures w' * (l + 1) + h' < w * (l + 1) + h
  {
    MulMono(w', w - 1, l + 1);
    assert (w - 1) * (l + 1) == w * (l + 1) - (l + 1);
  }

  lemma {:induction false} SameWork(w: int, w': int, h: int, h': int, l: nat)
    requires w' <= w && h' < h
    ensures w' * (l + 1) + h' < w * (l + 1) + h
  {
    MulMono(w', w, l + 1);
  }

  /** A step with work pending lowers the measure; unchunked, it lowers the work itself. */
  lemma {:induction false} UpdateDecreases(cfg: Config, st: State, sampled: seq<Token>)
    requires ConfigOk(cfg) && StateOk(cfg, st) && ModeOk(cfg, st) && HasWork(st)
    requires |sampled| == NumSampled(Schedule(cfg, st).items)
    ensures var st' := Update(cfg, Schedule(cfg, st), sampled).0;
      && Measure(cfg, st') < Measure(cfg, st)
      && Work(LiveSeqs(st')) <= Work(LiveSeqs(st))
      && (!cfg.chunked ==> Work(LiveSeqs(st')) < Work(LiveSeqs(st)))
  {
    hide StateOk, ModeOk, Schedule, UpdateItems, NumSampled, HasWork, Uncomputed, Work, LiveSeqs;
    var m := Schedule(cfg, st);
    var st' := Update(cfg, m, sampled).0;
    ScheduleOk(cfg, st);
    UpdateOk(cfg, m, sampled);
    HeadLeftBounds(cfg, st);
    HeadLeftBounds(cfg, st');
    StepWork(cfg, st, sampled);
    if !cfg.chunked {
      UnchunkedUses(cfg, st);
    }
    var w, w', h, h' := Work(LiveSeqs(st)), Work(LiveSeqs(st')), HeadLeft(cfg, st), HeadLeft(cfg, st');
    if |m.outputs| + NumSampled(m.items) >= 1 {
      LessWork(w, w', h, h', cfg.serving.maxModelLen);
    } else {
      ChunkedAlone(cfg, st);
      LoneUpdate(cfg, m.pool, m.items);
      assert sampled == [];
      assert HeadLeft(cfg, st') < HeadLeft(cfg, st);
      SameWork(w, w', h, h', cfg.serving.maxModelLen);
    }
  }

  lemma {:induction false} StepDecreases(cfg: Config, model: Model, e: Engine)
    requires ConfigOk(cfg) && EngineOk(cfg, model, e) && ModeOk(cfg, e.st) && HasWork(e.st)
    ensures var r := StepEngine(cfg, model, e);
      && r.Done? && Measure(cfg, r.e.st) < Measure(cfg, e.st)
      && (!cfg.chunked ==> Work(LiveSeqs(r.e.st)) < Work(LiveSeqs(e.st)))
  {
    hide StateOk, ModeOk, Schedule, StepEngine, Update, HasWork, Measure, Work, LiveSeqs;
    NeverStuck(cfg, model, e);
    var sampled := StepIsUpdate(cfg, model, e);
    UpdateDecreases(cfg, e.st, sampled);
  }

  /** A step without work pending brings none. */
  lemma {:induction false} StepStaysIdle(cfg: Config, model: Model, e: Engine)
    requires ConfigOk(cfg) && EngineOk(cfg, model, e) && !HasWork(e.st)
    ensures var r := StepEngine(cfg, model, e); r.Done? && !HasWork(r.e.st)
  {
    hide StateOk, Schedule, StepEngine;
    NeverStuck(cfg, model, e);
    var sampled := StepIsUpdate(cfg, model, e);
    IdleStaysIdle(cfg, e.st);
    var m := Schedule(cfg, e.st);
    assert |Seqs(m.items)| == 0;
  }

  lemma {:induction false} MeasureBounds(cfg: Config, st: State)
    requires cfg.blockSize > 0 && StateOk(cfg, st)
    ensures 0 <= Work(LiveSeqs(st)) && 0 <= Measure(cfg, st)
    ensures HasWork(st) ==> 1 <= Work(LiveSeqs(st)) && 1 <= Measure(cfg, st)
  {
    hide StateOk, Work, HeadLeft;
    HeadLeftBounds(cfg, st);
    AllLeft(cfg, st);
    WorkPositive(LiveSeqs(st));
    MulMono(0, Work(LiveSeqs(st)), cfg.serving.maxModelLen + 1);
    if HasWork(st) {
      MulMono(1, Work(LiveSeqs(st)), cfg.serving.maxModelLen + 1);
    }
  }

  lemma {:induction false} AllLeft(cfg: Config, st: State)
    requires cfg.blockSize > 0 && StateOk(cfg, st)
    ensures forall i :: 0 <= i < |LiveSeqs(st)| ==> Left(LiveSeqs(st)[i]) >= 1
  {
    hide Valid, CpuValid, Unique, TodosOk, RunOk, HashesOk, BlocksFor;
    var m := Begin(st);
    forall i | 0 <= i < |LiveSeqs(st)| ensures Left(LiveSeqs(st)[i]) >= 1 {
      var a, b, c := |st.running|, |st.swapped|, |st.preempted|;
      if i < a {
        assert ItemOk(cfg, st.pool, m.items[i]);
      } else if i < a + b {
        assert SwappedOk(cfg, st.swapped[i - a]);
      } else if i < a + b + c {
        assert ParkedOk(cfg, st.preempted[i - a - b], Preempted);
      } else {
        assert ParkedOk(cfg, st.waiting[i - a - b - c], Waiting);
      }
    }
  }

  // --- runs of steps -----------------------------------------------------------------------------------------------

  function Steps(n: nat): seq<Event> {
    seq(n, _ => Step)
  }

  /** After as many steps as the measure says, and unchunked as many as the work says, nothing is left. */
  lemma {:induction false} RunsDry(cfg: Config, model: Model, e: Engine, n: nat)
    requires ConfigOk(cfg) && EngineOk(cfg, model, e) && ModeOk(cfg, e.st)
    requires n >= Measure(cfg, e.st) || (!cfg.chunked && n >= Work(LiveSeqs(e.st)))
    ensures var r := Run(cfg, model, e, Steps(n)); r.Done? && !HasWork(r.e.st)
    decreases n
  {
    hide EngineOk, ModeOk, StepEngine, HasWork, Measure, Work, LiveSeqs;
    EngineState(cfg, model, e);
    MeasureBounds(cfg, e.st);
    if n > 0 {
      assert Steps(n)[1..] == Steps(n - 1);
      NextOk(cfg, model, e, Step);
      NextMode(cfg, model, e, Step);
      var r := StepEngine(cfg, model, e);
      if HasWork(e.st) {
        StepDecreases(cfg, model, e);
        RunsDry(cfg, model, r.e, n - 1);
      } else {
        StepStaysIdle(cfg, model, e);
        IdleRun(cfg, model, r.e, n - 1);
      }
    }
  }

  lemma {:induction false} EngineState(cfg: Config, model: Model, e: Engine)
    requires cfg.blockSize > 0 && EngineOk(cfg, model, e)
    ensures StateOk(cfg, e.st)
  {
  }

  lemma {:induction false} IdleRun(cfg: Config, model: Model, e: Engine, n: nat)
    requires ConfigOk(cfg) && EngineOk(cfg, model, e) && !HasWork(e.st)
    ensures var r := Run(cfg, model, e, Steps(n)); r.Done? && !HasWork(r.e.st)
    decreases n
  {
    hide EngineOk, StepEngine, HasWork;
    if n > 0 {
      assert Steps(n)[1..] == Steps(n - 1);
      NextOk(cfg, model, e, Step);
      StepStaysIdle(cfg, model, e);
      IdleRun(cfg, model, StepEngine(cfg, model, e).e, n - 1);
    }
  }
}
