// What a client has in the end: the decoded output of its request's lone run, cut at the earliest stop string,
// whatever else the engine was serving.
module Answers {
  import opened Basics
  import opened Transformer
  import opened Streaming
  import opened Text
  import opened Endings
  import opened Utf8
  import opened Scheduling
  import opened Planning
  import opened Memory
  import opened KvKept
  import opened Results
  import opened EngineRun
  import opened Delivery
  import opened Stepping
  import opened Checks
  import opened Modes
  import opened Guarantees
  import opened Acceptance

  // --- the tokens and the reason -----------------------------------------------------------------------------------------

  /** What a request has generated is the model's continuation of its prompt. If it finished well it ends at its first
      token to end with, and says why; otherwise there is no such token yet. */
  ghost predicate Generates(cfg: Config, model: Model, s: Seq)
    requires 1 <= s.gen.promptLen <= NumTokens(s)
  {
    var g, output := NewGen(Prompt(s), cfg.hasTokenizer), s.gen.tokens[s.gen.promptLen..];
    if WellFinished(s) then s.reason.Some? && Completes(model, cfg.serving, s.params, g, output, s.reason.value)
    else IsContinuation(model, Prompt(s), output) && GoesOn(cfg.serving, s.params, g, output)
  }

  /** Over every run, whoever is in the engine or has left was asked for and generates as it should. */
  lemma {:induction false} EverybodyGenerates(cfg: Config, model: Model, mem: Mem, events: seq<Event>, s: Seq)
    requires ConfigOk(cfg) && MemShape(cfg, model, mem)
    requires var r := Run(cfg, model, Start(cfg, mem), events);
      r.Done? && (s in LiveSeqs(r.e.st) || s in r.e.st.retired)
    ensures Asked(cfg, events, s) && Generates(cfg, model, s)
    ensures s in LiveSeqs(Run(cfg, model, Start(cfg, mem), events).e.st) ==> !WellFinished(s)
  {
    hide Run, LiveSeqs, Servable, MemShape, Generates, WellFinished, IsAlone, PartOfAlone, Sound, EngineOk, StateAsked;
    RunAsksFor(cfg, model, mem, events);
    ServingRefinesAlone(cfg, model, mem, events);
    var st := Run(cfg, model, Start(cfg, mem), events).e.st;
    StateIsAsked(cfg, events, st, s);
    NonEmptyStops(cfg, events, s);
    if s in LiveSeqs(st) {
      LiveUnfinished(cfg, st, s);
      PartGenerates(cfg, model, s);
    } else if WellFinished(s) {
      AloneGenerates(cfg, model, s);
    } else {
      PartGenerates(cfg, model, s);
    }
  }

  lemma {:induction false} RunAsksFor(cfg: Config, model: Model, mem: Mem, events: seq<Event>)
    requires ConfigOk(cfg) && MemShape(cfg, model, mem)
    ensures var r := Run(cfg, model, Start(cfg, mem), events);
      r.Done? && StateOk(cfg, r.e.st) && StateAsked(cfg, events, r.e.st)
  {
    hide Run, MemShape, StateAsked, StateOk, KvOk, AllOnCourse, AllSettled, ModeOk, FailedOutgrown;
    StartSound(cfg, model, mem);
    StartAsked(cfg, mem);
    RunSound(cfg, model, Start(cfg, mem), events);
    RunAsked(cfg, model, [], Start(cfg, mem), events);
    assert [] + events == events;
  }

  lemma {:induction false} StateIsAsked(cfg: Config, events: seq<Event>, st: State, s: Seq)
    requires StateAsked(cfg, events, st) && (s in LiveSeqs(st) || s in st.retired)
    ensures Asked(cfg, events, s)
  {
    hide Asked, LiveSeqs;
    IsAsked(cfg, events, LiveSeqs(st), s);
    IsAsked(cfg, events, st.retired, s);
  }

  lemma {:induction false} NonEmptyStops(cfg: Config, events: seq<Event>, s: Seq)
    requires Asked(cfg, events, s)
    ensures forall stop :: stop in s.params.stop ==> stop != ""
  {
  }

  lemma {:induction false} StartAsked(cfg: Config, mem: Mem)
    ensures StateAsked(cfg, [], Start(cfg, mem).st)
  {
    assert LiveSeqs(Start(cfg, mem).st) == [];
  }

  lemma {:induction false} IsAsked(cfg: Config, events: seq<Event>, seqs: seq<Seq>, s: Seq)
    requires AllAsked(cfg, events, seqs)
    ensures s in seqs ==> Asked(cfg, events, s)
  {
    hide Asked;
    if s in seqs {
      var i :| 0 <= i < |seqs| && seqs[i] == s;
    }
  }

  lemma {:induction false} LiveUnfinished(cfg: Config, st: State, s: Seq)
    requires cfg.blockSize > 0 && StateOk(cfg, st) && s in LiveSeqs(st)
    ensures !WellFinished(s)
  {
    QueueFacts(cfg, st);
    hide StateOk;
  }

  lemma {:induction false} StopsOf(params: Params)
    requires forall stop :: stop in params.stop ==> stop != ""
    ensures ValidStops(params.stop)
  {
    assert forall k :: 0 <= k < |params.stop| ==> params.stop[k] in params.stop;
  }

  lemma {:induction false} AloneGenerates(cfg: Config, model: Model, s: Seq)
    requires IsAlone(cfg, model, s) && WellFinished(s) && forall stop :: stop in s.params.stop ==> stop != ""
    ensures Generates(cfg, model, s)
  {
    hide SoloRun, ValidStops, Clean, Completes, IsContinuation, GoesOn;
    StopsOf(s.params);
    NewClean(s.params, Prompt(s), cfg.hasTokenizer);
    SoloCompletes(model, cfg.serving, s.params, NewGen(Prompt(s), cfg.hasTokenizer));
  }

  lemma {:induction false} PartGenerates(cfg: Config, model: Model, s: Seq)
    requires PartOfAlone(cfg, model, s) && !WellFinished(s) && forall stop :: stop in s.params.stop ==> stop != ""
    ensures Generates(cfg, model, s)
  {
    hide SoloRun, ValidStops, Clean, Ends, IsContinuation, GoesOn;
    StopsOf(s.params);
    var g := NewGen(Prompt(s), cfg.hasTokenizer);
    NewClean(s.params, Prompt(s), cfg.hasTokenizer);
    SoloCompletes(model, cfg.serving, s.params, g);
    var all := Alone(cfg, model, s).0.tokens;
    var more, output := all[|g.tokens|..], s.gen.tokens[s.gen.promptLen..];
    assert output <= more[..|more| - 1] by {
      assert s.gen.tokens == all[..|s.gen.tokens|];
    }
    PrefixGoesOn(cfg.serving, s.params, g, more[..|more| - 1], output);
    PrefixContinues(model, g.tokens, more, output);
  }

  lemma {:induction false} PrefixGoesOn(srv: Serving, params: Params, g: Gen, more: seq<Token>, part: seq<Token>)
    requires GoesOn(srv, params, g, more) && part <= more
    ensures GoesOn(srv, params, g, part)
  {
    hide Ends;
    forall k | 0 < k <= |part| ensures !Ends(srv, params, g, part[..k]) {
      assert part[..k] == more[..k];
    }
  }

  lemma {:induction false} PrefixContinues(m: Model, tokens: seq<Token>, more: seq<Token>, part: seq<Token>)
    requires tokens != [] && IsContinuation(m, tokens, more) && part <= more
    ensures IsContinuation(m, tokens, part)
  {
    hide NextToken;
    forall k | 0 <= k < |part| ensures part[k] == NextToken(m, tokens + part[..k]) {
      assert part[..k] == more[..k];
    }
  }

  /** A well-finished request said "stop" if and only if its text holds a stop string or it ended with an end token that
      counts, neither of which it had reached before. Otherwise it said "length", and had generated all it asked for. */
  lemma {:induction false} FinishesAsPromised(cfg: Config, model: Model, mem: Mem, events: seq<Event>, i: nat)
    requires ConfigOk(cfg) && MemShape(cfg, model, mem)
    requires var r := Run(cfg, model, Start(cfg, mem), events);
      r.Done? && i < |r.e.st.retired| && WellFinished(r.e.st.retired[i])
    ensures var s := Run(cfg, model, Start(cfg, mem), events).e.st.retired[i];
      && 1 <= s.gen.promptLen < NumTokens(s) && s.reason.Some?
      && var output, g := s.gen.tokens[s.gen.promptLen..], NewGen(Prompt(s), cfg.hasTokenizer);
      && |output| <= s.params.maxTokens
      && (forall k :: 0 <= k < |output| - 1 ==> output[k] in cfg.serving.eos ==> s.params.ignoreEos)
      && (|output| > 1 ==> NoStop(WholeText(cfg.serving, g, output[..|output| - 1]), s.params.stop))
      && (s.reason.value == Stop <==>
            !NoStop(WholeText(cfg.serving, g, output), s.params.stop) || (output[|output| - 1] in cfg.serving.eos && !s.params.ignoreEos))
      && (s.reason.value != Stop ==> s.reason.value == Length && |output| == s.params.maxTokens)
  {
    hide Run, MemShape, Completes, NoStop, WholeText, Allowance;
    var s := Run(cfg, model, Start(cfg, mem), events).e.st.retired[i];
    assert s in Run(cfg, model, Start(cfg, mem), events).e.st.retired;
    EverybodyGenerates(cfg, model, mem, events, s);
    var output, g := s.gen.tokens[s.gen.promptLen..], NewGen(Prompt(s), cfg.hasTokenizer);
    SomethingGenerated(model, cfg.serving, s.params, g, output, s.reason.value);
    CompletedMeans(model, cfg.serving, s.params, Prompt(s), cfg.hasTokenizer, output, s.reason.value);
    AcceptedAllowance(cfg.serving, s.params, s.gen.promptLen);
  }

  lemma {:induction false} SomethingGenerated(m: Model, srv: Serving, params: Params, g: Gen, more: seq<Token>, reason: Reason)
    requires g.tokens != [] && Completes(m, srv, params, g, more, reason)
    ensures more != []
  {
  }

  // --- what the client reads -----------------------------------------------------------------------------------------------

  /** The texts delivered for a well-finished request, put together, are its decoded output cut at the earliest stop
      string, whenever that output does not end in a broken character; in general exactly when its earliest stop
      string lies in the text that was searched. */
  lemma {:induction false} ClientReadsAnswer(cfg: Config, model: Model, mem: Mem, events: seq<Event>, i: nat)
    requires ConfigOk(cfg) && MemShape(cfg, model, mem) && cfg.hasTokenizer && Splits(cfg.serving.decode)
    requires var r := Run(cfg, model, Start(cfg, mem), events);
      && r.Done? && i < |r.e.st.retired| && WellFinished(r.e.st.retired[i])
      && UsedOnce(r.e.st, r.e.st.retired[i].id)
    ensures var r := Run(cfg, model, Start(cfg, mem), events);
      var s := r.e.st.retired[i];
      && 1 <= s.gen.promptLen <= NumTokens(s)
      && var output := s.gen.tokens[s.gen.promptLen..];
         var full, text, received :=
           cfg.serving.decode(output), WholeText(cfg.serving, NewGen(Prompt(s), true), output), Joined(Delivered(r.outputs, s.id));
         && text <= full && (text == full <==> !EndsBroken(full))
         && (!EndsBroken(full) ==> IsCut(full, s.params.stop, received))
         && (IsCut(full, s.params.stop, received) <==> forall j: nat :: Earliest(full, s.params.stop, j) ==> StopsAt(text, s.params.stop, j))
  {
    hide Run, Total, Delivered, MemShape, SoloRun, WholeText, IsCut, Earliest, StopsAt, Joined, Splits, EndsBroken, ValidStops,
      Generates, Asked;
    ClientReceivesAlone(cfg, model, mem, events, i);
    var s := Run(cfg, model, Start(cfg, mem), events).e.st.retired[i];
    assert s in Run(cfg, model, Start(cfg, mem), events).e.st.retired;
    EverybodyGenerates(cfg, model, mem, events, s);
    NonEmptyStops(cfg, events, s);
    StopsOf(s.params);
    StreamedIsDecode(model, cfg.serving, s.params, Prompt(s));
  }

  /** Until then, the texts delivered for a live request, put together, are all of its text so far that is safe to send:
      everything when it has no stop strings, else all but the last characters, one fewer than its longest has. */
  lemma {:induction false} ClientIsUpToDate(cfg: Config, model: Model, mem: Mem, events: seq<Event>, s: Seq)
    requires ConfigOk(cfg) && MemShape(cfg, model, mem)
    requires var r := Run(cfg, model, Start(cfg, mem), events); r.Done? && s in LiveSeqs(r.e.st) && UsedOnce(r.e.st, s.id)
    ensures var r := Run(cfg, model, Start(cfg, mem), events);
      && 1 <= s.gen.promptLen <= NumTokens(s)
      && var output := s.gen.tokens[s.gen.promptLen..];
         AllSafe(s.params.stop, WholeText(cfg.serving, NewGen(Prompt(s), cfg.hasTokenizer), output), Joined(Delivered(r.outputs, s.id)))
  {
    hide Run, Total, For, Alone, MemShape, LiveSeqs, SaidIn, AllSafe, WholeText, Joined, Asked, Generates, WellFinished;
    ServingRefinesAlone(cfg, model, mem, events);
    EverybodyGenerates(cfg, model, mem, events, s);
    NonEmptyStops(cfg, events, s);
    LiveSays(cfg, model, mem, events, s);
    PartSays(cfg, model, s);
  }

  /** A live request's tokens and texts are what has been delivered. */
  lemma {:induction false} LiveSays(cfg: Config, model: Model, mem: Mem, events: seq<Event>, s: Seq)
    requires ConfigOk(cfg) && MemShape(cfg, model, mem)
    requires var r := Run(cfg, model, Start(cfg, mem), events); r.Done? && s in LiveSeqs(r.e.st) && UsedOnce(r.e.st, s.id)
    ensures Delivered(Run(cfg, model, Start(cfg, mem), events).outputs, s.id) == s.gen.said
  {
    hide Run, Total, For, MemShape, SaidIn;
    var st := Run(cfg, model, Start(cfg, mem), events).e.st;
    var i :| 0 <= i < |LiveSeqs(st)| && LiveSeqs(st)[i] == s;
    ClientsReceiveAll(cfg, model, mem, events, s.id);
    HasId(LiveSeqs(st), i);
    OnlySpeaker(LiveSeqs(st), i, s.id);
    NobodySays(st.retired, s.id);
    AccountSays(s);
    hide LiveSeqs, OnTheWay;
    assert [] + OnTheWay(s) == OnTheWay(s);
  }

  lemma {:induction false} PartSays(cfg: Config, model: Model, s: Seq)
    requires PartOfAlone(cfg, model, s) && forall stop :: stop in s.params.stop ==> stop != ""
    ensures var output := s.gen.tokens[s.gen.promptLen..];
      AllSafe(s.params.stop, WholeText(cfg.serving, NewGen(Prompt(s), cfg.hasTokenizer), output), Joined(s.gen.said))
  {
    hide SoloRun, ValidStops, Clean, AllSafe, WholeText, Joined;
    StopsOf(s.params);
    var g := NewGen(Prompt(s), cfg.hasTokenizer);
    NewClean(s.params, Prompt(s), cfg.hasTokenizer);
    var n := NumOutput(s.gen);
    SoloSays(model, cfg.serving, s.params, g, n);
    var r := Alone(cfg, model, s).0;
    assert r.said[..n] == s.gen.said;
    assert r.tokens[|g.tokens|..|g.tokens| + n] == s.gen.tokens[s.gen.promptLen..] by {
      assert s.gen.tokens == r.tokens[..|s.gen.tokens|];
    }
  }
}
