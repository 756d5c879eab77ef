// What the engine promises over whole runs: any interleaving of arrivals, aborts and steps from an
// empty engine, in either scheduling mode, with either kind of preemption.
module Guarantees {
  import opened Basics
  import opened BlockPool
  import opened Transformer
  import opened Streaming
  import opened Scheduling
  import opened Planning
  import opened Stepping
  import opened Memory
  import opened KvKept
  import opened Census
  import opened Results
  import opened EngineRun
  import opened Requests
  import opened Exhaustion
  import opened Progress
  import opened Modes
  import opened Termination
  import opened Delivery

  /** Every request that failed had outgrown the whole pool. */
  ghost predicate FailedOutgrown(cfg: Config, retired: seq<Seq>)
    requires cfg.blockSize > 0
  {
    forall i :: 0 <= i < |retired| ==> retired[i].status == Finished && retired[i].reason == Some(Error) ==> Outgrown(cfg, retired[i])
  }

  ghost predicate Sound(cfg: Config, model: Model, e: Engine)
    requires cfg.blockSize > 0
  {
    EngineOk(cfg, model, e) && ModeOk(cfg, e.st) && FailedOutgrown(cfg, e.st.retired)
  }

  // --- failures ------------------------------------------------------------------------------------------------------

  lemma {:induction false} TokenNoError(cfg: Config, p: Pool, s: Seq, t: Token)
    ensures forall i :: 0 <= i < |TakeToken(cfg, p, s, t).retired| ==> TakeToken(cfg, p, s, t).retired[i].reason != Some(Error)
  {
    hide FreeTable;
  }

  ghost predicate NoErrors(seqs: seq<Seq>) {
    forall i :: 0 <= i < |seqs| ==> seqs[i].reason != Some(Error)
  }

  /** Taking results fails nobody. */
  lemma {:induction false} UpdateNoErrors(cfg: Config, p: Pool, items: seq<Item>, sampled: seq<Token>)
    requires cfg.blockSize > 0
    ensures NoErrors(UpdateItems(cfg, p, items, sampled).retired)
    decreases |items|
  {
    hide TakeToken, Advance, Samples;
    if items != [] {
      var u := UpdateItem(cfg, p, items[0], sampled);
      var rest := if Samples(items[0]) && sampled != [] then sampled[1..] else sampled;
      if items[0].n > 0 && Samples(items[0]) && sampled != [] {
        TokenNoError(cfg, Advance(cfg, p, items[0]).0, Advance(cfg, p, items[0]).1, sampled[0]);
      }
      UpdateNoErrors(cfg, u.pool, items[1..], rest);
    }
  }

  lemma {:induction false} StepFailures(cfg: Config, model: Model, e: Engine)
    requires cfg.blockSize > 0 && EngineOk(cfg, model, e) && FailedOutgrown(cfg, e.st.retired)
    ensures StepEngine(cfg, model, e).Done? ==> FailedOutgrown(cfg, StepEngine(cfg, model, e).e.st.retired)
  {
    hide StateOk, Schedule, StepEngine, UpdateItems, Moves, Outgrown;
    var sampled := StepIsUpdate(cfg, model, e);
    var m := Schedule(cfg, e.st);
    var gone := ScheduleMoves(cfg, e.st);
    MovesGone(Begin(e.st), m, gone);
    ScheduleOutgrown(cfg, e.st);
    UpdateNoErrors(cfg, m.pool, m.items, sampled);
    var u := UpdateItems(cfg, m.pool, m.items, sampled);
    OldAndNew(cfg, e.st.retired, gone);
    FailedConcat(cfg, m.retired, u.retired);
  }

  lemma {:induction false} OldAndNew(cfg: Config, old': seq<Seq>, gone: seq<Seq>)
    requires cfg.blockSize > 0 && FailedOutgrown(cfg, old')
    requires forall i :: |old'| <= i < |old' + gone| ==> Outgrown(cfg, (old' + gone)[i])
    ensures FailedOutgrown(cfg, old' + gone)
  {
    hide Outgrown;
  }

  lemma {:induction false} FailedConcat(cfg: Config, a: seq<Seq>, b: seq<Seq>)
    requires cfg.blockSize > 0 && FailedOutgrown(cfg, a) && NoErrors(b)
    ensures FailedOutgrown(cfg, a + b)
  {
    hide Outgrown;
  }

  lemma {:induction false} NextFailures(cfg: Config, model: Model, e: Engine, ev: Event)
    requires cfg.blockSize > 0 && EngineOk(cfg, model, e) && FailedOutgrown(cfg, e.st.retired)
    ensures Next(cfg, model, e, ev).Done? ==> FailedOutgrown(cfg, Next(cfg, model, e, ev).e.st.retired)
  {
    hide EngineOk, StepEngine, FindId, DropId, FreeTable, Outgrown;
    if ev.Step? {
      StepFailures(cfg, model, e);
    }
  }

  // --- whole runs ------------------------------------------------------------------------------------------------------

  lemma {:induction false} StartSound(cfg: Config, model: Model, mem: Mem)
    requires cfg.blockSize > 0 && MemShape(cfg, model, mem)
    ensures Sound(cfg, model, Start(cfg, mem))
  {
    hide EngineOk;
    StartOk(cfg, model, mem);
  }

  lemma {:induction false} NextSound(cfg: Config, model: Model, e: Engine, ev: Event)
    requires ConfigOk(cfg) && Sound(cfg, model, e)
    ensures var r := Next(cfg, model, e, ev); r.Done? && Sound(cfg, model, r.e)
  {
    hide EngineOk, ModeOk, StepEngine, FailedOutgrown;
    NeverStuck(cfg, model, e);
    NextOk(cfg, model, e, ev);
    NextMode(cfg, model, e, ev);
    NextFailures(cfg, model, e, ev);
  }

  /** No run ever raises, and every run keeps every invariant. */
  lemma {:induction false} RunSound(cfg: Config, model: Model, e: Engine, events: seq<Event>)
    requires ConfigOk(cfg) && Sound(cfg, model, e)
    ensures var r := Run(cfg, model, e, events); r.Done? && Sound(cfg, model, r.e)
    decreases |events|
  {
    hide Sound, Next;
    if events != [] {
      NextSound(cfg, model, e, events[0]);
      RunSound(cfg, model, Next(cfg, model, e, events[0]).e, events[1..]);
    }
  }

  /** Serving refines generating alone: under any interleaving, a live, failed or aborted request has a
      proper prefix of its lone run's tokens and texts, and one finished with "stop" or "length" has
      the whole of it, for the same reason. */
  lemma {:induction false} ServingRefinesAlone(cfg: Config, model: Model, mem: Mem, events: seq<Event>)
    requires ConfigOk(cfg) && MemShape(cfg, model, mem)
    ensures var r := Run(cfg, model, Start(cfg, mem), events);
      && r.Done?
      && (forall s :: s in LiveSeqs(r.e.st) ==> PartOfAlone(cfg, model, s))
      && (forall s :: s in r.e.st.retired ==> if WellFinished(s) then IsAlone(cfg, model, s) else PartOfAlone(cfg, model, s))
  {
    hide Sound, Run, OnCourse, Settled, Alone;
    StartSound(cfg, model, mem);
    RunSound(cfg, model, Start(cfg, mem), events);
    var st := Run(cfg, model, Start(cfg, mem), events).e.st;
    SoundCourses(cfg, model, Run(cfg, model, Start(cfg, mem), events).e);
    forall s | s in LiveSeqs(st) ensures PartOfAlone(cfg, model, s) {
      var i :| 0 <= i < |LiveSeqs(st)| && LiveSeqs(st)[i] == s;
      CoursePart(cfg, model, s);
    }
    forall s | s in st.retired ensures if WellFinished(s) then IsAlone(cfg, model, s) else PartOfAlone(cfg, model, s) {
      var i :| 0 <= i < |st.retired| && st.retired[i] == s;
      SettledPart(cfg, model, s);
    }
  }

  ghost predicate WellFinished(s: Seq) {
    s.status == Finished && s.reason != Some(Error)
  }

  ghost predicate PartOfAlone(cfg: Config, model: Model, s: Seq) {
    && 1 <= s.gen.promptLen <= NumTokens(s)
    && s.gen.tokens < Alone(cfg, model, s).0.tokens && s.gen.said < Alone(cfg, model, s).0.said && |s.gen.said| == NumOutput(s.gen)
  }

  ghost predicate IsAlone(cfg: Config, model: Model, s: Seq) {
    1 <= s.gen.promptLen <= NumTokens(s) && s.reason.Some? && Alone(cfg, model, s) == (s.gen, s.reason.value)
  }

  lemma {:induction false} SoundCourses(cfg: Config, model: Model, e: Engine)
    requires cfg.blockSize > 0 && Sound(cfg, model, e)
    ensures AllOnCourse(cfg, model, LiveSeqs(e.st)) && AllSettled(cfg, model, e.st.retired)
  {
    hide StateOk, KvOk, ModeOk, OnCourse, Settled;
  }

  lemma {:induction false} CoursePart(cfg: Config, model: Model, s: Seq)
    requires OnCourse(cfg, model, s)
    ensures PartOfAlone(cfg, model, s)
  {
    hide SoloRun;
    OnCoursePrefix(cfg, model, s);
  }

  lemma {:induction false} SettledPart(cfg: Config, model: Model, s: Seq)
    requires Settled(cfg, model, s)
    ensures if WellFinished(s) then IsAlone(cfg, model, s) else PartOfAlone(cfg, model, s)
  {
    hide SoloRun, Alone;
    if !WellFinished(s) {
      CoursePart(cfg, model, s);
    }
  }

  /** No spurious exhaustion: whatever else was running, a failed request had outgrown the whole pool,
      and if its prompt fitted it had generated exactly one token more than the pool had room for. */
  lemma {:induction false} OnlyOutgrownFail(cfg: Config, model: Model, mem: Mem, events: seq<Event>, i: nat)
    requires ConfigOk(cfg) && MemShape(cfg, model, mem)
    requires var r := Run(cfg, model, Start(cfg, mem), events);
      r.Done? && i < |r.e.st.retired| && r.e.st.retired[i].status == Finished && r.e.st.retired[i].reason == Some(Error)
    ensures var s := Run(cfg, model, Start(cfg, mem), events).e.st.retired[i];
      && NumTokens(s) > cfg.numBlocks * cfg.blockSize
      && (s.gen.promptLen <= cfg.numBlocks * cfg.blockSize ==>
            NumOutput(s.gen) == cfg.numBlocks * cfg.blockSize - s.gen.promptLen + 1)
  {
    hide EngineOk, ModeOk, Run;
    StartSound(cfg, model, mem);
    RunSound(cfg, model, Start(cfg, mem), events);
    var s := Run(cfg, model, Start(cfg, mem), events).e.st.retired[i];
    assert Outgrown(cfg, s);
    if s.gen.promptLen <= cfg.numBlocks * cfg.blockSize {
      OutgrownExactly(cfg, s);
    }
  }

  /** Requests whose prompt and allowance fit the pool never fail. */
  lemma {:induction false} FittingNeverFail(cfg: Config, model: Model, mem: Mem, events: seq<Event>, i: nat)
    requires ConfigOk(cfg) && MemShape(cfg, model, mem)
    requires var r := Run(cfg, model, Start(cfg, mem), events);
      r.Done? && i < |r.e.st.retired|
      && r.e.st.retired[i].gen.promptLen + r.e.st.retired[i].params.maxTokens - 1 <= cfg.numBlocks * cfg.blockSize
    ensures var s := Run(cfg, model, Start(cfg, mem), events).e.st.retired[i];
      !(s.status == Finished && s.reason == Some(Error))
  {
    hide EngineOk, ModeOk, Run, Outgrown;
    StartSound(cfg, model, mem);
    RunSound(cfg, model, Start(cfg, mem), events);
    OutgrownAllowance(cfg, Run(cfg, model, Start(cfg, mem), events).e.st.retired[i]);
  }

  lemma {:induction false} OutgrownAllowance(cfg: Config, s: Seq)
    requires cfg.blockSize > 0
    ensures Outgrown(cfg, s) ==> s.gen.promptLen + s.params.maxTokens - 1 > cfg.numBlocks * cfg.blockSize
  {
  }

  /** Whatever has happened, stepping on without arrivals runs the engine dry, within the measure; and
      unchunked, within the tokens its requests may still generate. */
  lemma {:induction false} EveryRunDrains(cfg: Config, model: Model, mem: Mem, events: seq<Event>, n: nat)
    requires ConfigOk(cfg) && MemShape(cfg, model, mem)
    requires Run(cfg, model, Start(cfg, mem), events).Done? ==>
      var st := Run(cfg, model, Start(cfg, mem), events).e.st;
      n >= Measure(cfg, st) || (!cfg.chunked && n >= Work(LiveSeqs(st)))
    ensures var r := Run(cfg, model, Start(cfg, mem), events);
      && r.Done? && Run(cfg, model, r.e, Steps(n)).Done? && LiveSeqs(Run(cfg, model, r.e, Steps(n)).e.st) == []
  {
    hide EngineOk, ModeOk, Run, Measure, Work, FailedOutgrown;
    StartSound(cfg, model, mem);
    RunSound(cfg, model, Start(cfg, mem), events);
    RunsDry(cfg, model, Run(cfg, model, Start(cfg, mem), events).e, n);
  }

  /** From an empty engine, the outputs received under an id are exactly those its requests account for. */
  lemma {:induction false} ClientsReceiveAll(cfg: Config, model: Model, mem: Mem, events: seq<Event>, id: int)
    requires ConfigOk(cfg) && MemShape(cfg, model, mem)
    ensures var r := Run(cfg, model, Start(cfg, mem), events);
      r.Done? && For(r.outputs, id) == History(r.e.st, id)
  {
    hide ModeOk, Run, FailedOutgrown, EngineOk, For, History, Start;
    StartSound(cfg, model, mem);
    RunSound(cfg, model, Start(cfg, mem), events);
    RunDelivers(cfg, model, Start(cfg, mem), events, id);
    NobodyYet(cfg, mem, id);
  }

  lemma {:induction false} NobodyYet(cfg: Config, mem: Mem, id: int)
    ensures History(Start(cfg, mem).st, id) == []
  {
    assert LiveSeqs(Start(cfg, mem).st) == [];
  }

  /** Nobody else has had this id. */
  ghost predicate UsedOnce(st: State, id: int) {
    Total(st.retired, IdOf)[id] + Total(LiveSeqs(st), IdOf)[id] == 1
  }

  /** One output for each token, in order and counted. */
  ghost predicate Tokenwise(outputs: seq<Output>, s: Seq) {
    && 1 <= s.gen.promptLen <= NumTokens(s) && NumOutput(s.gen) <= |outputs|
    && forall k :: 0 <= k < NumOutput(s.gen) ==>
      && outputs[k].id == s.id && outputs[k].tokens == [s.gen.tokens[s.gen.promptLen + k]]
      && outputs[k].promptLen == s.gen.promptLen && outputs[k].numOutput == k + 1
  }

  /** The outputs of a request that has left, its id used once: one for each token; if it finished, exactly the last
      says so, with its reason and its counts; a failure has an output of its own, without a token. */
  lemma {:induction false} RetiredIsTold(cfg: Config, model: Model, mem: Mem, events: seq<Event>, i: nat)
    requires ConfigOk(cfg) && MemShape(cfg, model, mem)
    requires var r := Run(cfg, model, Start(cfg, mem), events);
      r.Done? && i < |r.e.st.retired| && UsedOnce(r.e.st, r.e.st.retired[i].id)
    ensures var r := Run(cfg, model, Start(cfg, mem), events);
      var s := r.e.st.retired[i];
      var told := For(r.outputs, s.id);
      && Tokenwise(told, s)
      && |told| == NumOutput(s.gen) + (if s.status == Finished && s.reason == Some(Error) then 1 else 0)
      && (forall k :: 0 <= k < |told| ==> (told[k].finished <==> s.status == Finished && k == |told| - 1))
      && (forall k :: 0 <= k < |told| ==> told[k].reason == if told[k].finished then s.reason else None)
      && (s.status == Finished ==>
            told != [] && var last := told[|told| - 1];
            last.promptLen == s.gen.promptLen && last.numOutput == NumOutput(s.gen)
            && (s.reason == Some(Error) ==> last.tokens == [] && last.text == ""))
  {
    hide Run, Total, For, PartOfAlone, IsAlone, MemShape;
    var st := Run(cfg, model, Start(cfg, mem), events).e.st;
    var s := st.retired[i];
    ServingRefinesAlone(cfg, model, mem, events);
    assert s in st.retired;
    ClientsReceiveAll(cfg, model, mem, events, s.id);
    HasId(st.retired, i);
    OnlySpeaker(st.retired, i, s.id);
    NobodySays(LiveSeqs(st), s.id);
    SaysItsTokens(cfg, model, s);
    AccountMeans(s);
    hide Account;
    assert Account(s) + [] == Account(s);
  }

  lemma {:induction false} AccountMeans(s: Seq)
    requires |s.gen.said| == NumOutput(s.gen) && 1 <= s.gen.promptLen
    requires forall k :: 0 <= k < NumOutput(s.gen) ==> s.gen.said[k].0 == s.gen.tokens[s.gen.promptLen + k]
    requires s.status == Finished && s.reason != Some(Error) ==> NumOutput(s.gen) > 0
    ensures var told := Account(s);
      && Tokenwise(told, s)
      && |told| == NumOutput(s.gen) + (if s.status == Finished && s.reason == Some(Error) then 1 else 0)
      && (forall k :: 0 <= k < |told| ==> (told[k].finished <==> s.status == Finished && k == |told| - 1))
      && (forall k :: 0 <= k < |told| ==> told[k].reason == if told[k].finished then s.reason else None)
      && (s.status == Finished ==>
            told != [] && var last := told[|told| - 1];
            last.promptLen == s.gen.promptLen && last.numOutput == NumOutput(s.gen)
            && (s.reason == Some(Error) ==> last.tokens == [] && last.text == ""))
  {
  }

  /** What a request has said are the tokens it has generated, in order. */
  lemma {:induction false} SaysItsTokens(cfg: Config, model: Model, s: Seq)
    requires if WellFinished(s) then IsAlone(cfg, model, s) else PartOfAlone(cfg, model, s)
    ensures 1 <= s.gen.promptLen <= NumTokens(s) && |s.gen.said| == NumOutput(s.gen) && (WellFinished(s) ==> NumOutput(s.gen) > 0)
    ensures forall k :: 0 <= k < NumOutput(s.gen) ==> s.gen.said[k].0 == s.gen.tokens[s.gen.promptLen + k]
  {
    hide SoloRun;
    var g := NewGen(Prompt(s), cfg.hasTokenizer);
    SoloRunExtends(model, cfg.serving, s.params, g);
    var r := SoloRun(model, cfg.serving, s.params, g).0;
    assert s.gen.tokens <= r.tokens && s.gen.said <= r.said;
    forall k | 0 <= k < NumOutput(s.gen) ensures s.gen.said[k].0 == s.gen.tokens[s.gen.promptLen + k] {
      SoloRunNames(model, cfg.serving, s.params, g, k);
    }
  }

  /** The outputs of a live request, its id used once: one for each token, and none says that it has ended. */
  lemma {:induction false} LiveIsTold(cfg: Config, model: Model, mem: Mem, events: seq<Event>, s: Seq)
    requires ConfigOk(cfg) && MemShape(cfg, model, mem)
    requires var r := Run(cfg, model, Start(cfg, mem), events); r.Done? && s in LiveSeqs(r.e.st) && UsedOnce(r.e.st, s.id)
    ensures var r := Run(cfg, model, Start(cfg, mem), events);
      var told := For(r.outputs, s.id);
      && Tokenwise(told, s) && |told| == NumOutput(s.gen)
      && forall k :: 0 <= k < |told| ==> !told[k].finished && told[k].reason == None
  {
    hide Run, Total, For, PartOfAlone, IsAlone, MemShape, LiveSeqs, OnTheWay, Tokenwise;
    var st := Run(cfg, model, Start(cfg, mem), events).e.st;
    var i :| 0 <= i < |LiveSeqs(st)| && LiveSeqs(st)[i] == s;
    ServingRefinesAlone(cfg, model, mem, events);
    ClientsReceiveAll(cfg, model, mem, events, s.id);
    HasId(LiveSeqs(st), i);
    OnlySpeaker(LiveSeqs(st), i, s.id);
    NobodySays(st.retired, s.id);
    TellsOnTheWay(cfg, model, s);
    assert [] + OnTheWay(s) == OnTheWay(s);
  }

  lemma {:induction false} TellsOnTheWay(cfg: Config, model: Model, s: Seq)
    requires PartOfAlone(cfg, model, s)
    ensures var told := OnTheWay(s);
      && Tokenwise(told, s) && |told| == NumOutput(s.gen)
      && forall k :: 0 <= k < |told| ==> !told[k].finished && told[k].reason == None
  {
    hide PartOfAlone, IsAlone;
    var t := s.(status := Running);
    SameRequest(cfg, model, s, t);
    SaysItsTokens(cfg, model, t);
    assert OnTheWay(s) == OnTheWay(t);
    AccountMeans(t);
  }

  lemma {:induction false} SameRequest(cfg: Config, model: Model, s: Seq, t: Seq)
    requires PartOfAlone(cfg, model, s) && t.gen == s.gen && t.params == s.params
    ensures PartOfAlone(cfg, model, t)
  {
    assert Prompt(t) == Prompt(s);
  }

  /** So the client of an id used once receives, when the request finishes well, its lone run. */
  lemma {:induction false} ClientReceivesAlone(cfg: Config, model: Model, mem: Mem, events: seq<Event>, i: nat)
    requires ConfigOk(cfg) && MemShape(cfg, model, mem)
    requires var r := Run(cfg, model, Start(cfg, mem), events);
      r.Done? && i < |r.e.st.retired| && WellFinished(r.e.st.retired[i]) && UsedOnce(r.e.st, r.e.st.retired[i].id)
    ensures var r := Run(cfg, model, Start(cfg, mem), events);
      var s := r.e.st.retired[i];
      IsAlone(cfg, model, s) && Delivered(r.outputs, s.id) == Alone(cfg, model, s).0.said
  {
    hide Run, Total, For, SaidIn, Alone, PartOfAlone, MemShape;
    ServingRefinesAlone(cfg, model, mem, events);
    var st := Run(cfg, model, Start(cfg, mem), events).e.st;
    var s := st.retired[i];
    assert s in st.retired;
    ClientsReceiveAll(cfg, model, mem, events, s.id);
    HasId(st.retired, i);
    OnlySpeaker(st.retired, i, s.id);
    NobodySays(LiveSeqs(st), s.id);
    AccountSays(s);
    hide Account;
    assert Account(s) + [] == Account(s);
  }
}
