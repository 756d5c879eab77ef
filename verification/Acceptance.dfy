// Which requests the engine takes, and that over any run it serves those and no others: everybody in the engine, and
// everybody who has left, was asked for in just these words and was fit to be served.
module Acceptance {
  import opened Basics
  import opened BlockPool
  import opened Transformer
  import opened Streaming
  import opened Scheduling
  import opened Planning
  import opened Stepping
  import opened Census
  import opened Results
  import opened EngineRun
  import opened Requests
  import opened Termination

  /** A request that can be served: some prompt of known tokens, something to generate, and room for both. */
  ghost predicate Servable(cfg: Config, prompt: seq<Token>, params: Params) {
    && |prompt| >= 1 && (forall t :: t in prompt ==> 0 <= t < cfg.vocabSize)
    && params.maxTokens >= 1 && (forall stop :: stop in params.stop ==> stop != "")
    && |prompt| + params.maxTokens <= cfg.serving.maxModelLen
  }

  ghost predicate Free(st: State, id: int) {
    forall s :: s in LiveSeqs(st) ==> s.id != id
  }

  lemma {:induction false} FreeIds(seqs: seq<Seq>, id: int)
    ensures FindId(seqs, id).None? <==> forall s :: s in seqs ==> s.id != id
    decreases |seqs|
  {
    if seqs != [] {
      FreeIds(seqs[1..], id);
      assert forall s :: s in seqs <==> s == seqs[0] || s in seqs[1..];
    }
  }

  lemma {:induction false} AcceptableIs(cfg: Config, prompt: seq<Token>, params: Params)
    ensures Acceptable(cfg, prompt, params) <==> Servable(cfg, prompt, params)
  {
    if Acceptable(cfg, prompt, params) {
      forall t | t in prompt ensures 0 <= t < cfg.vocabSize {
        var i :| 0 <= i < |prompt| && prompt[i] == t;
      }
    } else if Servable(cfg, prompt, params) {
      assert forall i :: 0 <= i < |prompt| ==> prompt[i] in prompt;
      assert forall k :: 0 <= k < |params.stop| ==> params.stop[k] in params.stop;
    }
  }

  /** A servable request under an id nobody uses is waiting afterwards, as it was asked for and with nothing generated,
      and nobody else has changed. Any other leaves everything as it was. */
  lemma {:induction false} AddTakes(cfg: Config, e: Engine, id: int, prompt: seq<Token>, params: Params, arrival: real, priority: Option<real>)
    ensures var e' := AddRequest(cfg, e, id, prompt, params, arrival, priority);
      if Servable(cfg, prompt, params) && Free(e.st, id) then Joins(e, e', id, prompt, params, arrival, priority) else e' == e
    ensures Servable(cfg, prompt, params) && Free(e.st, id) <==> Acceptable(cfg, prompt, params) && FindId(LiveSeqs(e.st), id).None?
  {
    AcceptableIs(cfg, prompt, params);
    FreeIds(LiveSeqs(e.st), id);
    var s := NewSeq(cfg, id, prompt, params, arrival, priority);
    var k := Slots(cfg, e.st.waiting, s);
    hide Acceptable, Servable, LiveSeqs, FindId, Enqueue;
    assert IsNew(s, id, prompt, params, arrival, priority);
  }

  /** Somewhere in the waiting queue the request has joined, and nothing else has changed. */
  ghost predicate Joins(e: Engine, e': Engine, id: int, prompt: seq<Token>, params: Params, arrival: real, priority: Option<real>) {
    && e' == e.(st := e.st.(waiting := e'.st.waiting))
    && exists k, s :: 0 <= k <= |e.st.waiting| && e'.st.waiting == e.st.waiting[..k] + [s] + e.st.waiting[k..]
                      && IsNew(s, id, prompt, params, arrival, priority)
  }

  /** A request as it was asked for, nothing computed, generated or said. */
  ghost predicate IsNew(s: Seq, id: int, prompt: seq<Token>, params: Params, arrival: real, priority: Option<real>) {
    && s.id == id && s.gen.tokens == prompt && s.gen.promptLen == |prompt| && s.params == params && s.arrival == arrival
    && s.priority == priority && s.status == Waiting && s.computed == 0 && s.table == [] && s.gen.said == [] && s.gen.text == ""
  }

  /** One place of a queue is given up. */
  ghost predicate OneOut(q: seq<Seq>, q': seq<Seq>, s: Seq) {
    exists k :: 0 <= k < |q| && q[k] == s && q' == q[..k] + q[k + 1..]
  }

  /** A request leaves the queue it is in, and with it the engine; nobody else moves. */
  ghost predicate Leaves(st: State, st': State, s: Seq) {
    && st'.retired == st.retired + [s.(table := [], cpuTable := [], registered := 0, status := Aborted)]
    && match (st'.running == st.running, st'.swapped == st.swapped, st'.preempted == st.preempted, st'.waiting == st.waiting)
       case (false, true, true, true) => OneOut(st.running, st'.running, s)
       case (true, false, true, true) => OneOut(st.swapped, st'.swapped, s)
       case (true, true, false, true) => OneOut(st.preempted, st'.preempted, s)
       case (true, true, true, false) => OneOut(st.waiting, st'.waiting, s)
       case _ => false
  }

  lemma {:induction false} DropsAt(q: seq<Seq>, id: int) returns (k: nat)
    requires FindId(q, id).Some?
    ensures k < |q| && q[k] == FindId(q, id).value && q[k].id == id && DropId(q, id) == q[..k] + q[k + 1..]
    decreases |q|
  {
    k := 0;
    if q[0].id != id {
      var j := DropsAt(q[1..], id);
      k := j + 1;
    }
  }

  lemma {:induction false} DropOneOut(q: seq<Seq>, id: int)
    requires FindId(q, id).Some?
    ensures OneOut(q, DropId(q, id), FindId(q, id).value) && FindId(q, id).value.id == id && DropId(q, id) != q
  {
    hide FindId, DropId;
    var k := DropsAt(q, id);
    assert |DropId(q, id)| < |q|;
  }

  /** Aborting an id takes out the request that bears it and leaves everybody else where they are; an id that nobody
      bears changes nothing. */
  lemma {:induction false} AbortTakesOut(cfg: Config, e: Engine, id: int)
    requires cfg.blockSize > 0 && StateOk(cfg, e.st)
    ensures var e' := AbortRequest(e, id);
      if Free(e.st, id) then e' == e
      else e'.mem == e.mem && exists s: Seq :: s.id == id && s in LiveSeqs(e.st) && Leaves(e.st, e'.st, s)
  {
    hide StateOk, LiveSeqs, DropId, FindId, FreeTable, OneOut;
    var all := LiveSeqs(e.st);
    FreeIds(all, id);
    if FindId(all, id).Some? {
      AbortDispatch(cfg, e.st, id);
      DropMembers(all, id);
      var s := FindId(all, id).value;
      DropOneOut(if s.status == Running then e.st.running
                 else if s.cpuTable != [] then e.st.swapped
                 else if s.status == Preempted then e.st.preempted
                 else e.st.waiting, id);
    }
  }

  lemma {:induction false} Slots(cfg: Config, waiting: seq<Seq>, s: Seq) returns (k: nat)
    ensures k <= |waiting| && Enqueue(cfg, waiting, s) == waiting[..k] + [s] + waiting[k..]
    decreases |waiting|
  {
    hide KeyLess, Key;
    k := 0;
    if waiting != [] && !KeyLess(Key(cfg, s), Key(cfg, waiting[0])) {
      var j := Slots(cfg, waiting[1..], s);
      k := j + 1;
      assert waiting[..k] == [waiting[0]] + waiting[1..][..j];
      assert waiting[1..][j..] == waiting[k..];
    }
  }

  // --- asked for -------------------------------------------------------------------------------------------------------

  /** One of the events asked for this request, in these words, and it can be served. */
  ghost predicate Asked(cfg: Config, events: seq<Event>, s: Seq) {
    && 1 <= s.gen.promptLen <= NumTokens(s) && Servable(cfg, Prompt(s), s.params)
    && Add(s.id, Prompt(s), s.params, s.arrival, s.priority) in events
  }

  ghost predicate AllAsked(cfg: Config, events: seq<Event>, seqs: seq<Seq>) {
    forall i :: 0 <= i < |seqs| ==> Asked(cfg, events, seqs[i])
  }

  lemma {:induction false} AskedCore(cfg: Config, events: seq<Event>, s: Seq)
    ensures Asked(cfg, events, Core(s)) <==> Asked(cfg, events, s)
  {
    hide Servable;
    if s.gen.promptLen <= NumTokens(s) {
      assert Prompt(Core(s)) == Prompt(s);
    }
  }

  /** Who was asked for does not depend on the queues. */
  lemma {:induction false} AskedByCores(cfg: Config, events: seq<Event>, a: seq<Seq>, b: seq<Seq>)
    requires AllAsked(cfg, events, a) && Total(a, CoreOf) == Total(b, CoreOf)
    ensures AllAsked(cfg, events, b)
  {
    hide Asked, Core, Total;
    forall i | 0 <= i < |b| ensures Asked(cfg, events, b[i]) {
      TotalHas(b, i, CoreOf);
      assert Core(b[i]) in CoreOf(b[i]);
      var k := CoreAt(a, Core(b[i]));
      AskedCore(cfg, events, a[k]);
      AskedCore(cfg, events, b[i]);
    }
  }

  lemma {:induction false} AskedConcat(cfg: Config, events: seq<Event>, a: seq<Seq>, b: seq<Seq>)
    ensures AllAsked(cfg, events, a + b) <==> AllAsked(cfg, events, a) && AllAsked(cfg, events, b)
  {
    hide Asked;
    if AllAsked(cfg, events, a + b) {
      forall i | 0 <= i < |a| ensures Asked(cfg, events, a[i]) {
        assert (a + b)[i] == a[i];
      }
      forall i | 0 <= i < |b| ensures Asked(cfg, events, b[i]) {
        assert (a + b)[|a| + i] == b[i];
      }
    }
  }

  lemma {:induction false} AskedBefore(cfg: Config, events: seq<Event>, more: seq<Event>, seqs: seq<Seq>)
    requires AllAsked(cfg, events, seqs)
    ensures AllAsked(cfg, events + more, seqs)
  {
    hide Servable;
    forall i | 0 <= i < |seqs| ensures Asked(cfg, events + more, seqs[i]) {
      assert Asked(cfg, events, seqs[i]);
    }
  }

  // --- one step --------------------------------------------------------------------------------------------------------

  ghost predicate StateAsked(cfg: Config, events: seq<Event>, st: State) {
    AllAsked(cfg, events, LiveSeqs(st)) && AllAsked(cfg, events, st.retired)
  }

  lemma {:induction false} ScheduleAsked(cfg: Config, events: seq<Event>, st: State)
    requires cfg.blockSize > 0 && StateOk(cfg, st) && StateAsked(cfg, events, st)
    ensures var m := Schedule(cfg, st); AllAsked(cfg, events, AllOf(m)) && AllAsked(cfg, events, m.retired)
  {
    hide StateOk, Schedule, LiveCores, HasFailed, FailureOutput, Total, AllOf, Asked, AllAsked, LiveSeqs;
    var m := Schedule(cfg, st);
    var gone := ScheduleMoves(cfg, st);
    AllCores(Begin(st));
    AllCores(m);
    TotalConcat(AllOf(m), gone, CoreOf);
    BeginAll(st);
    AskedByCores(cfg, events, AllOf(Begin(st)), AllOf(m) + gone);
    AskedConcat(cfg, events, AllOf(m), gone);
    AskedConcat(cfg, events, st.retired, gone);
  }

  lemma {:induction false} StillAsked(cfg: Config, events: seq<Event>, s: Seq, s': Seq)
    requires Asked(cfg, events, s) && s'.id == s.id && s'.params == s.params && s'.arrival == s.arrival && s'.priority == s.priority
    requires s'.gen.promptLen == s.gen.promptLen && s.gen.tokens <= s'.gen.tokens
    ensures Asked(cfg, events, s')
  {
    hide Servable;
    assert Prompt(s') == Prompt(s);
  }

  lemma {:induction false} ItemAsked(cfg: Config, events: seq<Event>, p: Pool, it: Item, sampled: seq<Token>)
    requires cfg.blockSize > 0 && Asked(cfg, events, it.s)
    ensures AllAsked(cfg, events, UpdateItem(cfg, p, it, sampled).running) && AllAsked(cfg, events, UpdateItem(cfg, p, it, sampled).retired)
  {
    hide Asked, Publish, ExtendHashes, FreeTable, AppendToken;
    var u := UpdateItem(cfg, p, it, sampled);
    forall i | 0 <= i < |u.running| ensures Asked(cfg, events, u.running[i]) {
      StillAsked(cfg, events, it.s, u.running[i]);
    }
    forall i | 0 <= i < |u.retired| ensures Asked(cfg, events, u.retired[i]) {
      StillAsked(cfg, events, it.s, u.retired[i]);
    }
  }

  lemma {:induction false} ItemsAsked(cfg: Config, events: seq<Event>, p: Pool, items: seq<Item>, sampled: seq<Token>)
    requires cfg.blockSize > 0 && AllAsked(cfg, events, Seqs(items))
    ensures AllAsked(cfg, events, UpdateItems(cfg, p, items, sampled).running)
    ensures AllAsked(cfg, events, UpdateItems(cfg, p, items, sampled).retired)
    decreases |items|
  {
    hide Asked, UpdateItem, Samples;
    if items != [] {
      assert Asked(cfg, events, Seqs(items)[0]);
      SeqsCuts(items);
      ItemAsked(cfg, events, p, items[0], sampled);
      var u := UpdateItem(cfg, p, items[0], sampled);
      var rest := if Samples(items[0]) && sampled != [] then sampled[1..] else sampled;
      ItemsAsked(cfg, events, u.pool, items[1..], rest);
      var v := UpdateItems(cfg, u.pool, items[1..], rest);
      hide AllAsked;
      AskedConcat(cfg, events, u.running, v.running);
      AskedConcat(cfg, events, u.retired, v.retired);
    }
  }

  lemma {:induction false} LiveAsked(cfg: Config, events: seq<Event>, st: State)
    ensures AllAsked(cfg, events, LiveSeqs(st)) <==>
      && AllAsked(cfg, events, st.running) && AllAsked(cfg, events, st.swapped)
      && AllAsked(cfg, events, st.preempted) && AllAsked(cfg, events, st.waiting)
  {
    hide AllAsked;
    AskedConcat(cfg, events, st.running, st.swapped);
    AskedConcat(cfg, events, st.running + st.swapped, st.preempted);
    AskedConcat(cfg, events, st.running + st.swapped + st.preempted, st.waiting);
  }

  lemma {:induction false} MidAsked(cfg: Config, events: seq<Event>, m: Mid)
    requires m.todo == []
    ensures AllAsked(cfg, events, AllOf(m)) <==>
      && AllAsked(cfg, events, Seqs(m.items)) && AllAsked(cfg, events, m.swapped)
      && AllAsked(cfg, events, m.preempted) && AllAsked(cfg, events, m.waiting)
  {
    hide AllAsked;
    assert Seqs(m.todo) == [] && Seqs(m.items) + [] == Seqs(m.items);
    AskedConcat(cfg, events, Seqs(m.items), m.swapped);
    AskedConcat(cfg, events, Seqs(m.items) + m.swapped, m.preempted);
    AskedConcat(cfg, events, Seqs(m.items) + m.swapped + m.preempted, m.waiting);
  }

  lemma {:induction false} StepAsked(cfg: Config, model: Model, events: seq<Event>, e: Engine)
    requires cfg.blockSize > 0 && EngineOk(cfg, model, e) && StateAsked(cfg, events, e.st)
    ensures StepEngine(cfg, model, e).Done? ==> StateAsked(cfg, events, StepEngine(cfg, model, e).e.st)
  {
    hide StateOk, MidOk, Schedule, StepEngine, UpdateItems, AllAsked, LiveSeqs, AllOf;
    var m := Schedule(cfg, e.st);
    var sampled := StepIsUpdate(cfg, model, e);
    ScheduleOk(cfg, e.st);
    ScheduleAsked(cfg, events, e.st);
    MidAsked(cfg, events, m);
    ItemsAsked(cfg, events, m.pool, m.items, sampled);
    var u := UpdateItems(cfg, m.pool, m.items, sampled);
    LiveAsked(cfg, events, Update(cfg, m, sampled).0);
    AskedConcat(cfg, events, m.retired, u.retired);
  }

  // --- arrivals, aborts and runs -----------------------------------------------------------------------------------------

  lemma {:induction false} AddAsked(cfg: Config, events: seq<Event>, e: Engine, ev: Event)
    requires ev.Add? && StateAsked(cfg, events, e.st)
    ensures StateAsked(cfg, events + [ev], AddRequest(cfg, e, ev.id, ev.prompt, ev.params, ev.arrival, ev.priority).st)
  {
    hide AllAsked, LiveSeqs, FindId, Enqueue, Acceptable;
    var all := events + [ev];
    AskedBefore(cfg, events, [ev], LiveSeqs(e.st));
    AskedBefore(cfg, events, [ev], e.st.retired);
    if Acceptable(cfg, ev.prompt, ev.params) && FindId(LiveSeqs(e.st), ev.id).None? {
      var s := NewSeq(cfg, ev.id, ev.prompt, ev.params, ev.arrival, ev.priority);
      AcceptableIs(cfg, ev.prompt, ev.params);
      NewAsked(cfg, all, ev);
      LiveAsked(cfg, all, e.st);
      EnqueueAsked(cfg, all, e.st.waiting, s);
      LiveAsked(cfg, all, AddRequest(cfg, e, ev.id, ev.prompt, ev.params, ev.arrival, ev.priority).st);
    }
  }

  lemma {:induction false} NewAsked(cfg: Config, events: seq<Event>, ev: Event)
    requires ev.Add? && ev in events && Servable(cfg, ev.prompt, ev.params)
    ensures Asked(cfg, events, NewSeq(cfg, ev.id, ev.prompt, ev.params, ev.arrival, ev.priority))
  {
    var s := NewSeq(cfg, ev.id, ev.prompt, ev.params, ev.arrival, ev.priority);
    assert Prompt(s) == ev.prompt;
  }

  lemma {:induction false} EnqueueAsked(cfg: Config, events: seq<Event>, waiting: seq<Seq>, s: Seq)
    requires AllAsked(cfg, events, waiting) && Asked(cfg, events, s)
    ensures AllAsked(cfg, events, Enqueue(cfg, waiting, s))
  {
    hide Asked;
    EnqueueMembers(cfg, waiting, s);
    var w := Enqueue(cfg, waiting, s);
    forall i | 0 <= i < |w| ensures Asked(cfg, events, w[i]) {
      assert w[i] in w;
    }
  }

  lemma {:induction false} DropAsked(cfg: Config, events: seq<Event>, seqs: seq<Seq>, id: int)
    requires AllAsked(cfg, events, seqs)
    ensures AllAsked(cfg, events, DropId(seqs, id))
    decreases |seqs|
  {
    hide Asked;
    if seqs != [] {
      DropAsked(cfg, events, seqs[1..], id);
    }
  }

  lemma {:induction false} AbortAsked(cfg: Config, events: seq<Event>, e: Engine, id: int)
    requires StateAsked(cfg, events, e.st)
    ensures StateAsked(cfg, events, AbortRequest(e, id).st)
  {
    hide FindId, DropId, FreeTable, AllAsked, LiveSeqs;
    var st, st' := e.st, AbortRequest(e, id).st;
    LiveAsked(cfg, events, st);
    LiveAsked(cfg, events, st');
    DropAsked(cfg, events, st.running, id);
    DropAsked(cfg, events, st.swapped, id);
    DropAsked(cfg, events, st.preempted, id);
    DropAsked(cfg, events, st.waiting, id);
    if FindId(LiveSeqs(st), id).Some? {
      GoneAsked(cfg, events, st, id);
    }
  }

  lemma {:induction false} GoneAsked(cfg: Config, events: seq<Event>, st: State, id: int)
    requires StateAsked(cfg, events, st) && FindId(LiveSeqs(st), id).Some?
    ensures var s := FindId(LiveSeqs(st), id).value;
      AllAsked(cfg, events, st.retired + [s.(table := [], cpuTable := [], registered := 0, status := Aborted)])
  {
    hide Asked, FindId, LiveSeqs;
    DropMembers(LiveSeqs(st), id);
    var s := FindId(LiveSeqs(st), id).value;
    StillAsked(cfg, events, s, s.(table := [], cpuTable := [], registered := 0, status := Aborted));
  }

  lemma {:induction false} RunAsked(cfg: Config, model: Model, before: seq<Event>, e: Engine, events: seq<Event>)
    requires cfg.blockSize > 0 && EngineOk(cfg, model, e) && StateAsked(cfg, before, e.st)
    ensures Run(cfg, model, e, events).Done? ==> StateAsked(cfg, before + events, Run(cfg, model, e, events).e.st)
    decreases |events|
  {
    hide EngineOk, Next, StateAsked;
    if events == [] {
      assert before + events == before;
    } else {
      var r := Next(cfg, model, e, events[0]);
      if r.Done? {
        NextOk(cfg, model, e, events[0]);
        NextAsked(cfg, model, before, e, events[0]);
        RunAsked(cfg, model, before + [events[0]], r.e, events[1..]);
        assert before + [events[0]] + events[1..] == before + events;
      }
    }
  }

  lemma {:induction false} NextAsked(cfg: Config, model: Model, before: seq<Event>, e: Engine, ev: Event)
    requires cfg.blockSize > 0 && EngineOk(cfg, model, e) && StateAsked(cfg, before, e.st) && Next(cfg, model, e, ev).Done?
    ensures StateAsked(cfg, before + [ev], Next(cfg, model, e, ev).e.st)
  {
    hide EngineOk, StepEngine, AddRequest, AbortRequest, AllAsked;
    var st := Next(cfg, model, e, ev).e.st;
    match ev
    case Add(id, prompt, params, arrival, priority) => AddAsked(cfg, before, e, ev);
    case Abort(id) =>
      AbortAsked(cfg, before, e, id);
      AskedBefore(cfg, before, [ev], LiveSeqs(st));
      AskedBefore(cfg, before, [ev], st.retired);
    case Step =>
      StepAsked(cfg, model, before, e);
      AskedBefore(cfg, before, [ev], LiveSeqs(st));
      AskedBefore(cfg, before, [ev], st.retired);
  }
}
