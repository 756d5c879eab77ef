// Delivery: the outputs a client receives for a request id, step after step, are exactly those its requests account
// for: one for every token, in order and counted, the last of a finished request saying so and why, and one for a failure.
module Delivery {
  import opened Basics
  import opened BlockPool
  import opened Transformer
  import opened Streaming
  import opened Scheduling
  import opened Accounting
  import opened Planning
  import opened Stepping
  import opened Census
  import opened EngineRun
  import opened Requests
  import opened Termination
  import Progress

  // --- what a request accounts for -----------------------------------------------------------------------------------

  type Told = seq<Output>

  /** One output for every token so far, none of them the last. */
  function OnTheWay(s: Seq): (r: Told)
    ensures |r| == |s.gen.said|
    ensures forall k :: 0 <= k < |r| ==>
      r[k] == Output(s.id, [s.gen.said[k].0], s.gen.said[k].1, false, None, s.gen.promptLen, NumOutput(s.gen) - |r| + k + 1)
  {
    var n := |s.gen.said|;
    seq(n, k requires 0 <= k < n =>
      Output(s.id, [s.gen.said[k].0], s.gen.said[k].1, false, None, s.gen.promptLen, NumOutput(s.gen) - n + k + 1))
  }

  /** The outputs of a request that has left: a finished one's last says that it has ended and why, a failed one's is an
      extra output without a token. */
  function Account(s: Seq): Told {
    var told := OnTheWay(s);
    if s.status != Finished then told
    else if s.reason == Some(Error) then told + [FailureOutput(s)]
    else if told == [] then []
    else told[..|told| - 1] + [told[|told| - 1].(finished := true, reason := s.reason)]
  }

  /** What the listed live requests with this id have been told. */
  function ToldBy(seqs: seq<Seq>, id: int): Told {
    if seqs == [] then [] else (if seqs[0].id == id then OnTheWay(seqs[0]) else []) + ToldBy(seqs[1..], id)
  }

  /** What those that have left were told. */
  function AccountBy(seqs: seq<Seq>, id: int): Told {
    if seqs == [] then [] else (if seqs[0].id == id then Account(seqs[0]) else []) + AccountBy(seqs[1..], id)
  }

  /** The outputs for one id, in order. */
  function For(outputs: seq<Output>, id: int): Told {
    if outputs == [] then [] else (if outputs[0].id == id then [outputs[0]] else []) + For(outputs[1..], id)
  }

  /** Everything told under this id: to requests that have left, then to the live one. */
  function History(st: State, id: int): Told {
    AccountBy(st.retired, id) + ToldBy(LiveSeqs(st), id)
  }

  lemma {:induction false} AccountConcat(a: seq<Seq>, b: seq<Seq>, id: int)
    ensures AccountBy(a + b, id) == AccountBy(a, id) + AccountBy(b, id)
    decreases |a|
  {
    if a == [] {
      assert a + b == b;
    } else {
      assert (a + b)[1..] == a[1..] + b;
      AccountConcat(a[1..], b, id);
    }
  }

  lemma {:induction false} ToldConcat(a: seq<Seq>, b: seq<Seq>, id: int)
    ensures ToldBy(a + b, id) == ToldBy(a, id) + ToldBy(b, id)
    decreases |a|
  {
    if a == [] {
      assert a + b == b;
    } else {
      assert (a + b)[1..] == a[1..] + b;
      ToldConcat(a[1..], b, id);
    }
  }

  lemma {:induction false} ForConcat(a: seq<Output>, b: seq<Output>, id: int)
    ensures For(a + b, id) == For(a, id) + For(b, id)
    decreases |a|
  {
    if a == [] {
      assert a + b == b;
    } else {
      assert (a + b)[1..] == a[1..] + b;
      ForConcat(a[1..], b, id);
    }
  }

  /** Failing accounts for one more output each. */
  lemma {:induction false} FailuresTold(gone: seq<Seq>, id: int)
    requires Total(gone, IdOf)[id] <= 1 && forall i :: 0 <= i < |gone| ==> HasFailed(gone[i])
    ensures AccountBy(gone, id) == ToldBy(gone, id) + For(Failures(gone), id)
    decreases |gone|
  {
    hide Account, OnTheWay, FailureOutput, HasFailed, Total, Failures;
    if gone == [] {
      assert Failures(gone) == [];
    } else {
      hide For;
      FirstId(gone, id);
      FailuresTold(gone[1..], id);
      FirstFailure(gone, id);
      FailedAccount(gone[0]);
      var a, t, f := AccountBy(gone[1..], id), ToldBy(gone[1..], id), For(Failures(gone[1..]), id);
      if gone[0].id == id {
        NobodySays(gone[1..], id);
        NobodyFails(gone[1..], id);
        assert a == [] && t == [] && f == [];
      } else {
        assert [] + a == a && [] + t == t && [] + f == f;
      }
    }
  }

  lemma {:induction false} FirstFailure(gone: seq<Seq>, id: int)
    requires gone != []
    ensures For(Failures(gone), id) == (if gone[0].id == id then [FailureOutput(gone[0])] else []) + For(Failures(gone[1..]), id)
  {
    assert Failures(gone)[1..] == Failures(gone[1..]);
  }

  lemma {:induction false} FailedAccount(s: Seq)
    requires HasFailed(s)
    ensures Account(s) == OnTheWay(s) + [FailureOutput(s)] && FailureOutput(s).id == s.id
  {
    hide OnTheWay;
  }

  lemma {:induction false} NobodyFails(gone: seq<Seq>, id: int)
    requires Total(gone, IdOf)[id] == 0
    ensures For(Failures(gone), id) == []
    decreases |gone|
  {
    if gone != [] {
      FirstId(gone, id);
      assert Failures(gone)[1..] == Failures(gone[1..]);
      NobodyFails(gone[1..], id);
    }
  }

  lemma {:induction false} NobodySays(seqs: seq<Seq>, id: int)
    requires Total(seqs, IdOf)[id] == 0
    ensures ToldBy(seqs, id) == [] && AccountBy(seqs, id) == []
    decreases |seqs|
  {
    if seqs != [] {
      assert Total(seqs, IdOf)[id] == IdOf(seqs[0])[id] + Total(seqs[1..], IdOf)[id];
      NobodySays(seqs[1..], id);
    }
  }

  lemma {:induction false} FirstId(seqs: seq<Seq>, id: int)
    requires seqs != []
    ensures Total(seqs, IdOf)[id] == (if seqs[0].id == id then 1 else 0) + Total(seqs[1..], IdOf)[id]
  {
    assert Total(seqs, IdOf)[id] == IdOf(seqs[0])[id] + Total(seqs[1..], IdOf)[id];
  }

  lemma {:induction false} HasId(seqs: seq<Seq>, k: nat)
    requires k < |seqs|
    ensures Total(seqs, IdOf)[seqs[k].id] >= 1
  {
    TotalHas(seqs, k, IdOf);
    assert IdOf(seqs[k])[seqs[k].id] == 1;
  }

  /** With unique ids the only request with this id is the one that speaks. */
  lemma {:induction false} OnlySpeaker(seqs: seq<Seq>, k: nat, id: int)
    requires k < |seqs| && seqs[k].id == id && Total(seqs, IdOf)[id] <= 1
    ensures ToldBy(seqs, id) == OnTheWay(seqs[k]) && AccountBy(seqs, id) == Account(seqs[k])
    decreases |seqs|
  {
    FirstId(seqs, id);
    hide OnTheWay, Account;
    if k == 0 {
      NobodySays(seqs[1..], id);
    } else {
      HasId(seqs[1..], k - 1);
      hide Total;
      OnlySpeaker(seqs[1..], k - 1, id);
    }
  }

  lemma {:induction false} Speaker(seqs: seq<Seq>, id: int) returns (k: nat)
    requires Total(seqs, IdOf)[id] > 0
    ensures k < |seqs| && seqs[k].id == id
    decreases |seqs|
  {
    assert Total(seqs, IdOf)[id] == IdOf(seqs[0])[id] + Total(seqs[1..], IdOf)[id];
    if seqs[0].id == id {
      k := 0;
    } else {
      var j := Speaker(seqs[1..], id);
      k := j + 1;
    }
  }

  // --- tokens and texts alone ------------------------------------------------------------------------------------------

  /** The tokens and texts in some outputs; an output without a token brings none. */
  function SaidIn(outputs: seq<Output>): seq<(Token, string)> {
    if outputs == [] then []
    else (if |outputs[0].tokens| == 1 then [(outputs[0].tokens[0], outputs[0].text)] else []) + SaidIn(outputs[1..])
  }

  /** What outputs bring the client of this id. */
  function Delivered(outputs: seq<Output>, id: int): seq<(Token, string)> {
    SaidIn(For(outputs, id))
  }

  lemma {:induction false} SaidInSnoc(outputs: seq<Output>, out: Output)
    ensures SaidIn(outputs + [out]) == SaidIn(outputs) + (if |out.tokens| == 1 then [(out.tokens[0], out.text)] else [])
    decreases |outputs|
  {
    if outputs == [] {
      assert outputs + [out] == [out] && [out][1..] == [];
    } else {
      SaidInSnoc(outputs[1..], out);
      assert (outputs + [out])[1..] == outputs[1..] + [out];
    }
  }

  /** Outputs of one token each bring just these. */
  lemma {:induction false} SaidInAll(outputs: seq<Output>, said: seq<(Token, string)>)
    requires |outputs| == |said|
    requires forall k :: 0 <= k < |said| ==> outputs[k].tokens == [said[k].0] && outputs[k].text == said[k].1
    ensures SaidIn(outputs) == said
    decreases |said|
  {
    if said != [] {
      SaidInAll(outputs[1..], said[1..]);
      assert said == [said[0]] + said[1..];
    }
  }

  /** A request accounts for what it has said. */
  lemma {:induction false} AccountSays(s: Seq)
    ensures SaidIn(OnTheWay(s)) == s.gen.said && SaidIn(Account(s)) == s.gen.said
  {
    SaidInAll(OnTheWay(s), s.gen.said);
    if s.status == Finished && s.reason == Some(Error) {
      SaidInSnoc(OnTheWay(s), FailureOutput(s));
    } else {
      SaidInAll(Account(s), s.gen.said);
    }
  }

  // --- what is said depends on the requests, not on their queues -----------------------------------------------------

  lemma {:induction false} CutIds(seqs: seq<Seq>, k: nat)
    requires k < |seqs|
    ensures Total(seqs, IdOf) == Total(seqs[..k] + seqs[k + 1..], IdOf) + multiset{seqs[k].id}
  {
    var a, b := seqs[..k], seqs[k + 1..];
    assert seqs == a + ([seqs[k]] + b);
    TotalConcat(a, [seqs[k]] + b, IdOf);
    TotalFront(seqs[k], b, IdOf);
    TotalConcat(a, b, IdOf);
  }

  lemma {:induction false} IdsByCores(a: seq<Seq>, b: seq<Seq>)
    requires Total(a, CoreOf) == Total(b, CoreOf)
    ensures Total(a, IdOf) == Total(b, IdOf)
    decreases |a|
  {
    hide Core;
    if a == [] {
      SomeCoreOf(b);
    } else {
      assert Core(a[0]) in CoreOf(a[0]);
      var k := CoreAt(b, Core(a[0]));
      CutAt(b, k);
      CutIds(b, k);
      SameCoreSays(a[0], b[k]);
      assert CoreOf(a[0]) == CoreOf(b[k]);
      var b' := b[..k] + b[k + 1..];
      Cancel(CoreOf(a[0]), Total(a[1..], CoreOf), Total(b', CoreOf));
      IdsByCores(a[1..], b');
    }
  }

  lemma {:induction false} SomeCoreOf(seqs: seq<Seq>)
    ensures Total(seqs, CoreOf) == multiset{} ==> seqs == []
  {
    Progress.SomeCore(seqs);
  }


  lemma {:induction false} SameCoreSays(s: Seq, t: Seq)
    requires Core(s) == Core(t)
    ensures s.id == t.id && s.gen == t.gen && OnTheWay(s) == OnTheWay(t)
  {
    assert Core(s).id == s.id && Core(t).id == t.id && Core(s).gen == s.gen && Core(t).gen == t.gen;
  }

  lemma {:induction false} ToldByCores(a: seq<Seq>, b: seq<Seq>, id: int)
    requires Total(a, CoreOf) == Total(b, CoreOf) && Total(a, IdOf)[id] <= 1
    ensures ToldBy(a, id) == ToldBy(b, id)
  {
    hide Core, ToldBy, Total;
    IdsByCores(a, b);
    if Total(a, IdOf)[id] == 0 {
      NobodySays(a, id);
      NobodySays(b, id);
    } else {
      var k := Speaker(a, id);
      OnlySpeaker(a, k, id);
      InCores(a, k);
      var j := CoreAt(b, Core(a[k]));
      SameCoreSays(a[k], b[j]);
      OnlySpeaker(b, j, id);
    }
  }

  lemma {:induction false} InCores(seqs: seq<Seq>, k: nat)
    requires k < |seqs|
    ensures Core(seqs[k]) in Total(seqs, CoreOf)
  {
    hide Core;
    TotalHas(seqs, k, CoreOf);
    assert Core(seqs[k]) in CoreOf(seqs[k]);
  }

  lemma {:induction false} AllIds(m: Mid)
    ensures Total(AllOf(m), IdOf) == Ids(m)
  {
    var a, b, c, d := Seqs(m.items), Seqs(m.todo), m.swapped, m.preempted;
    TotalConcat(a, b, IdOf);
    TotalConcat(a + b, c, IdOf);
    TotalConcat(a + b + c, d, IdOf);
    TotalConcat(a + b + c + d, m.waiting, IdOf);
  }

  /** Planning tells only whom it fails. */
  lemma {:induction false} ScheduleTold(cfg: Config, st: State, id: int)
    requires cfg.blockSize > 0 && StateOk(cfg, st)
    ensures var m := Schedule(cfg, st);
      AccountBy(m.retired, id) + ToldBy(AllOf(m), id) == History(st, id) + For(m.outputs, id)
  {
    hide StateOk, Schedule, LiveCores, HasFailed, ToldBy, AccountBy, For, Total, Ids, AllOf, FailureOutput;
    var m := Schedule(cfg, st);
    var gone := ScheduleMoves(cfg, st);
    assert [] + Failures(gone) == Failures(gone);
    AllCores(Begin(st));
    AllCores(m);
    TotalConcat(gone, AllOf(m), CoreOf);
    AllIds(Begin(st));
    UniqueState(cfg, st, id);
    IdsByCores(AllOf(Begin(st)), gone + AllOf(m));
    TotalConcat(gone, AllOf(m), IdOf);
    ToldByCores(AllOf(Begin(st)), gone + AllOf(m), id);
    ToldConcat(gone, AllOf(m), id);
    AccountConcat(st.retired, gone, id);
    FailuresTold(gone, id);
    BeginAll(st);
    OneSpeaks(gone, AllOf(m), id);
    Rejoin(AccountBy(st.retired, id), ToldBy(gone, id), For(Failures(gone), id), ToldBy(AllOf(m), id));
  }

  /** Those who fail or those who stay speak, not both. */
  lemma {:induction false} OneSpeaks(gone: seq<Seq>, stay: seq<Seq>, id: int)
    requires Total(gone, IdOf)[id] + Total(stay, IdOf)[id] <= 1
    ensures For(Failures(gone), id) == [] || ToldBy(stay, id) == []
  {
    hide Total, For, ToldBy;
    if Total(gone, IdOf)[id] == 0 {
      NobodyFails(gone, id);
    } else {
      NobodySays(stay, id);
    }
  }

  lemma {:induction false} Rejoin(left: Told, told: Told, failed: Told, stay: Told)
    requires failed == [] || stay == []
    ensures left + (told + failed) + stay == left + (told + stay) + failed
  {
    if failed == [] {
      assert left + (told + failed) + stay == left + (told + stay);
    } else {
      assert left + (told + failed) + stay == left + told + failed;
      assert left + (told + stay) + failed == left + told + failed;
    }
  }

  lemma {:induction false} UniqueState(cfg: Config, st: State, id: int)
    requires cfg.blockSize > 0 && StateOk(cfg, st)
    ensures Ids(Begin(st))[id] <= 1
  {
    hide Ids;
  }

  // --- taking results ------------------------------------------------------------------------------------------------

  lemma {:induction false} ItemTold(cfg: Config, p: Pool, it: Item, sampled: seq<Token>, id: int)
    requires cfg.blockSize > 0
    ensures var u := UpdateItem(cfg, p, it, sampled);
      && AccountBy(u.retired, id) + ToldBy(u.running, id) == ToldBy([it.s], id) + For(u.outputs, id)
      && (it.s.id != id ==> AccountBy(u.retired, id) == [] && ToldBy(u.running, id) == [] && For(u.outputs, id) == [])
  {
    hide Publish, ExtendHashes, TakeToken, OnTheWay;
    var u := UpdateItem(cfg, p, it, sampled);
    if it.n > 0 {
      var (p1, s1) := Advance(cfg, p, it);
      SameSays(s1, it.s);
      if Samples(it) && sampled != [] {
        TokenTold(cfg, p1, s1, sampled[0], id);
        assert ToldBy([s1], id) == ToldBy([it.s], id);
      }
    }
  }

  lemma {:induction false} SameSays(s: Seq, t: Seq)
    ensures s.id == t.id && s.gen == t.gen ==> OnTheWay(s) == OnTheWay(t)
  {
  }

  /** A sampled token is told of once; if it is the last, with the end and the reason. */
  lemma {:induction false} TokenTold(cfg: Config, p: Pool, s: Seq, t: Token, id: int)
    ensures var u := TakeToken(cfg, p, s, t);
      && AccountBy(u.retired, id) + ToldBy(u.running, id) == ToldBy([s], id) + For(u.outputs, id)
      && (s.id != id ==> AccountBy(u.retired, id) == [] && ToldBy(u.running, id) == [] && For(u.outputs, id) == [])
  {
    hide FreeTable, AppendToken;
    var (gen, text, finish) := AppendToken(cfg.serving, s.params, s.gen, t);
    var s1 := s.(gen := gen);
    OneMoreTold(cfg, s, t);
    var u := TakeToken(cfg, p, s, t);
    assert u.outputs[1..] == [];
    OneSays(s, id);
    if finish.None? {
      OneSays(s1, id);
    } else {
      var s2 := u.retired[0];
      SameSays(s2, s1);
      OneAccounts(s2, id);
      hide OnTheWay;
      assert OnTheWay(s2)[..|OnTheWay(s2)| - 1] == OnTheWay(s);
    }
  }

  lemma {:induction false} OneMoreTold(cfg: Config, s: Seq, t: Token)
    ensures var (gen, text, finish) := AppendToken(cfg.serving, s.params, s.gen, t);
      OnTheWay(s.(gen := gen)) == OnTheWay(s) + [Output(s.id, [t], text, false, None, gen.promptLen, NumOutput(gen))]
    ensures AppendToken(cfg.serving, s.params, s.gen, t).2 != Some(Error)
  {
    hide AppendToken;
  }

  lemma {:induction false} OneSays(s: Seq, id: int)
    ensures ToldBy([s], id) == if s.id == id then OnTheWay(s) else []
  {
    hide OnTheWay;
    assert [s][1..] == [];
  }

  lemma {:induction false} OneAccounts(s: Seq, id: int)
    ensures AccountBy([s], id) == if s.id == id then Account(s) else []
  {
    hide Account;
    assert [s][1..] == [];
  }

  /** Joining what two groups said, when only one of them speaks. */
  lemma {:induction false} JoinTold(a: Told, b: Told, x: Told, p: Told, c: Told, d: Told, y: Told, q: Told)
    requires a + b == x + p && c + d == y + q
    requires (a == [] && b == [] && x == [] && p == []) || (c == [] && d == [] && y == [] && q == [])
    ensures (a + c) + (b + d) == (x + y) + (p + q)
  {
    if c == [] && d == [] && y == [] && q == [] {
      assert (a + c) + (b + d) == a + b && (x + y) + (p + q) == x + p;
    } else {
      assert (a + c) + (b + d) == c + d && (x + y) + (p + q) == y + q;
    }
  }

  /** Each item's new token is reported exactly once. */
  lemma {:induction false} UpdateTold(cfg: Config, p: Pool, items: seq<Item>, sampled: seq<Token>, id: int)
    requires cfg.blockSize > 0 && Total(Seqs(items), IdOf)[id] <= 1
    ensures var u := UpdateItems(cfg, p, items, sampled);
      && AccountBy(u.retired, id) + ToldBy(u.running, id) == ToldBy(Seqs(items), id) + For(u.outputs, id)
      && (Total(Seqs(items), IdOf)[id] == 0 ==>
            AccountBy(u.retired, id) == [] && ToldBy(u.running, id) == [] && For(u.outputs, id) == [])
    decreases |items|
  {
    hide UpdateItem, Samples, ToldBy, AccountBy, For, Total, IdOf;
    if items != [] {
      var it, tail := items[0], items[1..];
      var u := UpdateItem(cfg, p, it, sampled);
      var rest := if Samples(it) && sampled != [] then sampled[1..] else sampled;
      var v := UpdateItems(cfg, u.pool, tail, rest);
      HeadIds(items, id);
      ItemTold(cfg, p, it, sampled, id);
      UpdateTold(cfg, u.pool, tail, rest, id);
      AccountConcat(u.retired, v.retired, id);
      ToldConcat(u.running, v.running, id);
      ForConcat(u.outputs, v.outputs, id);
      assert Seqs(items) == [it.s] + Seqs(tail);
      ToldConcat([it.s], Seqs(tail), id);
      OnlyHead(it.s, tail, id);
      JoinTold(AccountBy(u.retired, id), ToldBy(u.running, id), ToldBy([it.s], id), For(u.outputs, id),
               AccountBy(v.retired, id), ToldBy(v.running, id), ToldBy(Seqs(tail), id), For(v.outputs, id));
    } else {
      assert Seqs(items) == [];
      NobodyAtAll(id);
    }
  }

  lemma {:induction false} NobodyAtAll(id: int)
    ensures ToldBy([], id) == [] && AccountBy([], id) == [] && For([], id) == []
  {
  }

  lemma {:induction false} HeadIds(items: seq<Item>, id: int)
    requires items != []
    ensures Total(Seqs(items), IdOf)[id] == (if items[0].s.id == id then 1 else 0) + Total(Seqs(items[1..]), IdOf)[id]
  {
    SeqsCuts(items);
    assert Total(Seqs(items), IdOf)[id] == IdOf(items[0].s)[id] + Total(Seqs(items[1..]), IdOf)[id];
  }

  lemma {:induction false} OnlyHead(s: Seq, tail: seq<Item>, id: int)
    requires (if s.id == id then 1 else 0) + Total(Seqs(tail), IdOf)[id] <= 1
    ensures if s.id == id then ToldBy(Seqs(tail), id) == [] && Total(Seqs(tail), IdOf)[id] == 0 else ToldBy([s], id) == []
  {
    if s.id == id {
      NobodySays(Seqs(tail), id);
    }
  }

  /** A step's outputs are what its requests newly said. */
  lemma {:induction false} StepTold(cfg: Config, st: State, sampled: seq<Token>, id: int)
    requires cfg.blockSize > 0 && StateOk(cfg, st)
    ensures var (st', outputs) := Update(cfg, Schedule(cfg, st), sampled);
      History(st', id) == History(st, id) + For(outputs, id)
  {
    hide StateOk, MidOk, Schedule, ToldBy, AccountBy, For, Total, UpdateItems, LiveSeqs, AllOf;
    var m := Schedule(cfg, st);
    ScheduleOk(cfg, st);
    ScheduleTold(cfg, st, id);
    MidIds(cfg, m, id);
    UpdateTold(cfg, m.pool, m.items, sampled, id);
    var u := UpdateItems(cfg, m.pool, m.items, sampled);
    var st' := Update(cfg, m, sampled).0;
    LiveTold(st', id);
    MidTold(m, id);
    AccountConcat(m.retired, u.retired, id);
    ForConcat(m.outputs, u.outputs, id);
    RestSays(cfg, m, id);
    LeaveTold(AccountBy(m.retired, id), AccountBy(u.retired, id), ToldBy(u.running, id), ToldBy(Seqs(m.items), id),
              ToldBy(Rest(m.swapped, m.preempted, m.waiting), id), For(u.outputs, id));
  }

  /** Some requests leave the running list for those that have left; then only they or only others speak. */
  lemma {:induction false} LeaveTold(left: Told, a: Told, b: Told, x: Told, rest: Told, d: Told)
    requires a + b == x + d && (rest == [] || (a == [] && b == [] && d == []))
    ensures (left + a) + (b + rest) == (left + (x + rest)) + d
  {
    if rest == [] {
      assert (left + a) + (b + rest) == left + (a + b);
    }
  }

  /** The queues that hold no GPU block. */
  function Rest(swapped: seq<Seq>, preempted: seq<Seq>, waiting: seq<Seq>): seq<Seq> {
    swapped + preempted + waiting
  }

  lemma {:induction false} LiveTold(st: State, id: int)
    ensures ToldBy(LiveSeqs(st), id) == ToldBy(st.running, id) + ToldBy(Rest(st.swapped, st.preempted, st.waiting), id)
  {
    hide ToldBy;
    assert LiveSeqs(st) == st.running + Rest(st.swapped, st.preempted, st.waiting);
    ToldConcat(st.running, Rest(st.swapped, st.preempted, st.waiting), id);
  }

  lemma {:induction false} MidTold(m: Mid, id: int)
    requires m.todo == []
    ensures ToldBy(AllOf(m), id) == ToldBy(Seqs(m.items), id) + ToldBy(Rest(m.swapped, m.preempted, m.waiting), id)
  {
    hide ToldBy;
    assert Seqs(m.todo) == [];
    assert AllOf(m) == Seqs(m.items) + Rest(m.swapped, m.preempted, m.waiting);
    ToldConcat(Seqs(m.items), Rest(m.swapped, m.preempted, m.waiting), id);
  }

  lemma {:induction false} MidIds(cfg: Config, m: Mid, id: int)
    requires cfg.blockSize > 0 && MidOk(cfg, m)
    ensures Total(Seqs(m.items), IdOf)[id] <= 1
    ensures Total(Seqs(m.items), IdOf)[id] > 0 ==> Total(Rest(m.swapped, m.preempted, m.waiting), IdOf)[id] == 0
  {
    hide Valid, CpuValid, ItemsOk, TodosOk, QueuesOk, Total;
    TotalConcat(m.swapped, m.preempted, IdOf);
    TotalConcat(m.swapped + m.preempted, m.waiting, IdOf);
    assert Ids(m)[id] <= 1;
  }

  lemma {:induction false} RestSays(cfg: Config, m: Mid, id: int)
    requires cfg.blockSize > 0 && MidOk(cfg, m)
    ensures Total(Seqs(m.items), IdOf)[id] == 0 || ToldBy(Rest(m.swapped, m.preempted, m.waiting), id) == []
  {
    hide MidOk, Total, ToldBy;
    MidIds(cfg, m, id);
    if Total(Seqs(m.items), IdOf)[id] > 0 {
      NobodySays(Rest(m.swapped, m.preempted, m.waiting), id);
    }
  }

  // --- arrivals and aborts -----------------------------------------------------------------------------------------------

  lemma {:induction false} EnqueueTold(cfg: Config, waiting: seq<Seq>, s: Seq, id: int)
    requires s.gen.said == []
    ensures ToldBy(Enqueue(cfg, waiting, s), id) == ToldBy(waiting, id)
    decreases |waiting|
  {
    hide KeyLess, Key;
    if waiting == [] || KeyLess(Key(cfg, s), Key(cfg, waiting[0])) {
      assert ([s] + waiting)[1..] == waiting;
    } else {
      EnqueueTold(cfg, waiting[1..], s, id);
      var rest := Enqueue(cfg, waiting[1..], s);
      assert ([waiting[0]] + rest)[1..] == rest;
    }
  }

  lemma {:induction false} AddTold(cfg: Config, e: Engine, new_id: int, prompt: seq<Token>, params: Params,
                                   arrival: real, priority: Option<real>, id: int)
    ensures History(AddRequest(cfg, e, new_id, prompt, params, arrival, priority).st, id) == History(e.st, id)
  {
    hide ToldBy, FindId, LiveSeqs;
    var st, st' := e.st, AddRequest(cfg, e, new_id, prompt, params, arrival, priority).st;
    if st' != st {
      var s := NewSeq(cfg, new_id, prompt, params, arrival, priority);
      EnqueueTold(cfg, st.waiting, s, id);
      LiveTold(st, id);
      LiveTold(st', id);
      ToldConcat(st.swapped + st.preempted, st.waiting, id);
      ToldConcat(st.swapped + st.preempted, st'.waiting, id);
    }
  }

  lemma {:induction false} DropTold(seqs: seq<Seq>, gone: int, id: int)
    requires Total(seqs, IdOf)[id] <= 1
    ensures ToldBy(DropId(seqs, gone), id) == if id == gone then [] else ToldBy(seqs, id)
    decreases |seqs|
  {
    if seqs != [] {
      assert Total(seqs, IdOf)[id] == IdOf(seqs[0])[id] + Total(seqs[1..], IdOf)[id];
      if seqs[0].id == gone {
        if id == gone {
          NobodySays(seqs[1..], id);
        }
      } else {
        DropTold(seqs[1..], gone, id);
        var rest := DropId(seqs[1..], gone);
        assert ([seqs[0]] + rest)[1..] == rest;
      }
    }
  }

  lemma {:induction false} FourTold(st: State, id: int)
    ensures ToldBy(LiveSeqs(st), id) == ToldBy(st.running, id) + ToldBy(st.swapped, id) + ToldBy(st.preempted, id) + ToldBy(st.waiting, id)
  {
    hide ToldBy;
    ToldConcat(st.running, st.swapped, id);
    ToldConcat(st.running + st.swapped, st.preempted, id);
    ToldConcat(st.running + st.swapped + st.preempted, st.waiting, id);
  }

  lemma {:induction false} FoundSays(seqs: seq<Seq>, id: int)
    requires FindId(seqs, id).Some? && Total(seqs, IdOf)[id] <= 1
    ensures ToldBy(seqs, id) == OnTheWay(FindId(seqs, id).value) && Total(seqs, IdOf)[id] == 1
    ensures FindId(seqs, id).value.id == id
    decreases |seqs|
  {
    assert Total(seqs, IdOf)[id] == IdOf(seqs[0])[id] + Total(seqs[1..], IdOf)[id];
    if seqs[0].id == id {
      NobodySays(seqs[1..], id);
    } else {
      FoundSays(seqs[1..], id);
    }
  }

  lemma {:induction false} FourIds(cfg: Config, st: State, id: int)
    requires cfg.blockSize > 0 && StateOk(cfg, st)
    ensures Total(st.running, IdOf)[id] + Total(st.swapped, IdOf)[id] + Total(st.preempted, IdOf)[id] + Total(st.waiting, IdOf)[id] <= 1
  {
    hide StateOk, Total;
    UniqueState(cfg, st, id);
    BeginIds(st);
  }

  /** Dropping a request moves what it said from the live to those that have left. */
  lemma {:induction false} AbortTold(cfg: Config, e: Engine, gone: int, id: int)
    requires cfg.blockSize > 0 && StateOk(cfg, e.st)
    ensures History(AbortRequest(e, gone).st, id) == History(e.st, id)
  {
    hide StateOk, ToldBy, AccountBy, OnTheWay, FindId, DropId, LiveSeqs, Total, AbortRequest;
    if FindId(LiveSeqs(e.st), gone).Some? {
      var st, st' := e.st, AbortRequest(e, gone).st;
      var s := FindId(LiveSeqs(st), gone).value;
      AbortDispatch(cfg, st, gone);
      AbortOnly(e, gone);
      FoundId(LiveSeqs(st), gone);
      RetiredTold(st, st', s, id);
      FourIds(cfg, st, id);
      FourTold(st, id);
      FourTold(st', id);
      FourDrops(st, gone, id);
      if id == gone {
        AbortedSays(st, s, gone);
      }
    } else {
      NothingAborted(e, gone);
    }
  }

  lemma {:induction false} NothingAborted(e: Engine, id: int)
    requires FindId(LiveSeqs(e.st), id).None?
    ensures AbortRequest(e, id) == e
  {
  }

  lemma {:induction false} FourDrops(st: State, gone: int, id: int)
    requires Total(st.running, IdOf)[id] + Total(st.swapped, IdOf)[id] + Total(st.preempted, IdOf)[id] + Total(st.waiting, IdOf)[id] <= 1
    ensures ToldBy(DropId(st.running, gone), id) == if id == gone then [] else ToldBy(st.running, id)
    ensures ToldBy(DropId(st.swapped, gone), id) == if id == gone then [] else ToldBy(st.swapped, id)
    ensures ToldBy(DropId(st.preempted, gone), id) == if id == gone then [] else ToldBy(st.preempted, id)
    ensures ToldBy(DropId(st.waiting, gone), id) == if id == gone then [] else ToldBy(st.waiting, id)
  {
    hide ToldBy, DropId, Total;
    DropTold(st.running, gone, id);
    DropTold(st.swapped, gone, id);
    DropTold(st.preempted, gone, id);
    DropTold(st.waiting, gone, id);
  }

  /** Abort leaves all lists but one as they are, and adds the request to those that have left. */
  lemma {:induction false} AbortOnly(e: Engine, id: int)
    requires FindId(LiveSeqs(e.st), id).Some?
    ensures var s, st, st' := FindId(LiveSeqs(e.st), id).value, e.st, AbortRequest(e, id).st;
      && |st'.retired| == |st.retired| + 1 && st.retired <= st'.retired
      && st'.retired[|st.retired|].gen == s.gen && st'.retired[|st.retired|].id == s.id && st'.retired[|st.retired|].status == Aborted
      && st'.running == (if s.status == Running then DropId(st.running, id) else st.running)
      && st'.swapped == (if s.status != Running && s.cpuTable != [] then DropId(st.swapped, id) else st.swapped)
      && st'.preempted == (if s.status == Preempted && s.cpuTable == [] then DropId(st.preempted, id) else st.preempted)
      && st'.waiting == (if s.status != Running && s.cpuTable == [] && s.status != Preempted then DropId(st.waiting, id) else st.waiting)
  {
    hide FindId, DropId, LiveSeqs, FreeTable;
  }

  lemma {:induction false} FoundId(seqs: seq<Seq>, id: int)
    requires FindId(seqs, id).Some?
    ensures FindId(seqs, id).value.id == id
    decreases |seqs|
  {
    if seqs[0].id != id {
      FoundId(seqs[1..], id);
    }
  }

  /** An aborted request has left, and was told nothing of it. */
  lemma {:induction false} RetiredTold(st: State, st': State, s: Seq, id: int)
    requires |st'.retired| == |st.retired| + 1 && st.retired <= st'.retired
    requires var last := st'.retired[|st.retired|]; last.gen == s.gen && last.id == s.id && last.status == Aborted
    ensures AccountBy(st'.retired, id) == AccountBy(st.retired, id) + (if s.id == id then OnTheWay(s) else [])
  {
    hide AccountBy, OnTheWay;
    var last := st'.retired[|st.retired|];
    assert st'.retired == st.retired + [last];
    AccountConcat(st.retired, [last], id);
    OneAccounts(last, id);
    SameSays(last, s);
  }

  /** The aborted request is in one list and said what that list says; the other lists say nothing. */
  lemma {:induction false} AbortedSays(st: State, s: Seq, id: int)
    requires FindId(if s.status == Running then st.running
             else if s.cpuTable != [] then st.swapped
             else if s.status == Preempted then st.preempted
             else st.waiting, id) == Some(s)
    requires Total(st.running, IdOf)[id] + Total(st.swapped, IdOf)[id] + Total(st.preempted, IdOf)[id] + Total(st.waiting, IdOf)[id] <= 1
    ensures s.id == id
    ensures ToldBy(st.running, id) == if s.status == Running then OnTheWay(s) else []
    ensures s.status != Running ==> ToldBy(st.swapped, id) == if s.cpuTable != [] then OnTheWay(s) else []
    ensures s.status == Running ==> ToldBy(st.swapped, id) == []
    ensures s.status == Running || s.cpuTable != [] ==> ToldBy(st.preempted, id) == [] && ToldBy(st.waiting, id) == []
    ensures s.status != Running && s.cpuTable == [] ==>
      ToldBy(st.preempted, id) == (if s.status == Preempted then OnTheWay(s) else [])
      && ToldBy(st.waiting, id) == (if s.status == Preempted then [] else OnTheWay(s))
  {
    hide ToldBy, FindId, Total;
    FoundSays(if s.status == Running then st.running
              else if s.cpuTable != [] then st.swapped
              else if s.status == Preempted then st.preempted
              else st.waiting, id);
    if Total(st.running, IdOf)[id] == 0 {
      NobodySays(st.running, id);
    }
    if Total(st.swapped, IdOf)[id] == 0 {
      NobodySays(st.swapped, id);
    }
    if Total(st.preempted, IdOf)[id] == 0 {
      NobodySays(st.preempted, id);
    }
    if Total(st.waiting, IdOf)[id] == 0 {
      NobodySays(st.waiting, id);
    }
  }

  // --- whole runs ----------------------------------------------------------------------------------------------------------

  lemma {:induction false} NextTold(cfg: Config, model: Model, e: Engine, ev: Event, id: int)
    requires cfg.blockSize > 0 && EngineOk(cfg, model, e)
    ensures var r := Next(cfg, model, e, ev);
      r.Done? ==> History(r.e.st, id) == History(e.st, id) + For(r.outputs, id)
  {
    hide StateOk, StepEngine, AddRequest, AbortRequest, History, Schedule, Update;
    match ev
    case Add(new_id, prompt, params, arrival, priority) =>
      AddTold(cfg, e, new_id, prompt, params, arrival, priority, id);
    case Abort(gone) =>
      AbortTold(cfg, e, gone, id);
    case Step =>
      var sampled := StepIsUpdate(cfg, model, e);
      StepTold(cfg, e.st, sampled, id);
  }

  /** Over a whole run the client of an id receives exactly what was generated under it. */
  lemma {:induction false} RunDelivers(cfg: Config, model: Model, e: Engine, events: seq<Event>, id: int)
    requires cfg.blockSize > 0 && EngineOk(cfg, model, e)
    ensures var r := Run(cfg, model, e, events);
      r.Done? ==> History(r.e.st, id) == History(e.st, id) + For(r.outputs, id)
    decreases |events|
  {
    hide EngineOk, Next, History, For;
    NothingFor(id);
    if events != [] {
      var r := Next(cfg, model, e, events[0]);
      if r.Done? {
        NextOk(cfg, model, e, events[0]);
        NextTold(cfg, model, e, events[0], id);
        RunDelivers(cfg, model, r.e, events[1..], id);
        var r2 := Run(cfg, model, r.e, events[1..]);
        if r2.Done? {
          ForConcat(r.outputs, r2.outputs, id);
        }
      }
    }
  }

  lemma {:induction false} NothingFor(id: int)
    ensures For([], id) == []
  {
  }
}
