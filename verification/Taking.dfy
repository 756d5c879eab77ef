// A step's results on values: the running list after it, and a loop over the batch half-way through.
module Taking {
  import opened Basics
  import opened BlockPool
  import opened Streaming
  import opened Scheduling
  import opened Accounting
  import opened Planning
  import opened Stepping

  lemma {:induction false} BatchSnoc(items: seq<Item>, it: Item)
    ensures Batch(items + [it]) == Batch(items) + (if it.n > 0 then [it] else [])
    ensures BatchTokens(items + [it]) == BatchTokens(items) + it.n
  {
    assert (items + [it])[..|items|] == items;
  }

  lemma {:induction false} BatchFront(items: seq<Item>)
    requires items != []
    ensures Batch(items) == (if items[0].n > 0 then [items[0]] else []) + Batch(items[1..])
    decreases |items|
  {
    var last := |items| - 1;
    if last == 0 {
      assert items[1..] == [] && items[..0] == [];
    } else {
      BatchFront(items[..last]);
      assert items[..last][1..] == items[1..][..last - 1] && items[1..][last - 1] == items[last];
    }
  }

  /** How many of the first i items are in the batch. */
  function Rank(items: seq<Item>, i: nat): nat
    requires i <= |items|
  {
    |Batch(items[..i])|
  }

  lemma {:induction false} RankNext(items: seq<Item>, i: nat)
    requires i < |items|
    ensures Rank(items, i + 1) == Rank(items, i) + (if items[i].n > 0 then 1 else 0)
    ensures items[i].n > 0 ==> Batch(items[..i + 1])[Rank(items, i)] == items[i]
  {
    assert items[..i + 1] == items[..i] + [items[i]];
    BatchSnoc(items[..i], items[i]);
  }

  lemma {:induction false} RankMono(items: seq<Item>, i: nat, j: nat)
    requires i <= j <= |items|
    ensures Rank(items, i) <= Rank(items, j) && Batch(items[..i]) <= Batch(items[..j])
    decreases j
  {
    hide Batch;
    if i < j {
      RankMono(items, i, j - 1);
      assert items[..j] == items[..j - 1] + [items[j - 1]];
      BatchSnoc(items[..j - 1], items[j - 1]);
    }
  }

  /** An item of the batch stands there at its rank. */
  lemma {:induction false} RankIs(items: seq<Item>, i: nat)
    requires i < |items| && items[i].n > 0
    ensures Rank(items, i) < |Batch(items)| && Batch(items)[Rank(items, i)] == items[i]
  {
    RankNext(items, i);
    RankMono(items, i + 1, |items|);
    hide Batch;
    assert items[..|items|] == items;
  }

  lemma {:induction false} RankTail(items: seq<Item>, i: nat)
    requires 1 <= i <= |items|
    ensures Rank(items, i) == (if items[0].n > 0 then 1 else 0) + Rank(items[1..], i - 1)
  {
    BatchFront(items[..i]);
    hide Batch;
    assert items[..i][1..] == items[1..][..i - 1];
  }

  /** Where the k-th of the batch stands among the items. */
  lemma {:induction false} ItemOfBatch(items: seq<Item>, k: nat) returns (i: nat)
    requires k < |Batch(items)|
    ensures i < |items| && items[i].n > 0 && Rank(items, i) == k && Batch(items)[k] == items[i]
    decreases |items|
  {
    var last := |items| - 1;
    assert items[..last] + [items[last]] == items;
    BatchSnoc(items[..last], items[last]);
    if k < |Batch(items[..last])| {
      i := ItemOfBatch(items[..last], k);
      hide Batch;
      assert items[..last][..i] == items[..i];
    } else {
      i := last;
    }
  }

  // --- values after some of the batch has been dealt with ------------------------------------------------------------

  /** The running requests when the first |after| of the batch have become `after`. */
  function Progress(items: seq<Item>, after: seq<Seq>): (r: seq<Seq>)
    ensures |r| == |items|
  {
    seq(|items|, i requires 0 <= i < |items| =>
      if items[i].n > 0 && Rank(items, i) < |after| then after[Rank(items, i)] else items[i].s)
  }

  lemma {:induction false} NoProgress(items: seq<Item>)
    ensures Progress(items, []) == Seqs(items)
  {
  }

  lemma {:induction false} ProgressStep(items: seq<Item>, after: seq<Seq>, v: Seq, i: nat)
    requires i < |items| && items[i].n > 0 && Rank(items, i) == |after|
    ensures Progress(items, after)[i] == items[i].s
    ensures Progress(items, after + [v]) == Progress(items, after)[i := v]
  {
    hide Rank;
    forall j | 0 <= j < |items| ensures Progress(items, after + [v])[j] == Progress(items, after)[i := v][j] {
      if j < i {
        RankNext(items, j);
        RankMono(items, j + 1, i);
      } else if i < j {
        RankNext(items, i);
        RankMono(items, i + 1, j);
      }
    }
  }

  /** Those still running, in order. */
  function StillRunning(values: seq<Seq>): seq<Seq> {
    if values == [] then []
    else StillRunning(values[..|values| - 1]) + (if values[|values| - 1].status == Running then [values[|values| - 1]] else [])
  }

  lemma {:induction false} StillRunningFront(values: seq<Seq>)
    requires values != []
    ensures StillRunning(values) == (if values[0].status == Running then [values[0]] else []) + StillRunning(values[1..])
    decreases |values|
  {
    var last := |values| - 1;
    if last == 0 {
      assert values[1..] == [] && values[..0] == [];
    } else {
      StillRunningFront(values[..last]);
      assert values[..last][1..] == values[1..][..last - 1] && values[1..][last - 1] == values[last];
    }
  }

  /** What an item's request has become. */
  function Result(cfg: Config, p: Pool, it: Item, sampled: seq<Token>): Seq
    requires cfg.blockSize > 0
  {
    var u := UpdateItem(cfg, p, it, sampled);
    if u.running != [] then u.running[0] else if u.retired != [] then u.retired[0] else it.s
  }

  function Rest(it: Item, sampled: seq<Token>): seq<Token> {
    if Samples(it) && sampled != [] then sampled[1..] else sampled
  }

  /** What all of them have become. */
  function After(cfg: Config, p: Pool, items: seq<Item>, sampled: seq<Token>): (r: seq<Seq>)
    requires cfg.blockSize > 0
    ensures |r| == |items|
    decreases |items|
  {
    if items == [] then []
    else
      [Result(cfg, p, items[0], sampled)]
      + After(cfg, UpdateItem(cfg, p, items[0], sampled).pool, items[1..], Rest(items[0], sampled))
  }

  /** One item's result: it goes on running, or it is finished and retired. */
  lemma {:induction false} OneResult(cfg: Config, p: Pool, it: Item, sampled: seq<Token>)
    requires cfg.blockSize > 0 && it.s.status == Running
    ensures var u, r := UpdateItem(cfg, p, it, sampled), Result(cfg, p, it, sampled);
      && r.id == it.s.id && r.params == it.s.params && r.arrival == it.s.arrival && r.priority == it.s.priority && r.gen.promptLen == it.s.gen.promptLen
      && (r.status == Running || r.status == Finished)
      && u.running == (if r.status == Running then [r] else [])
      && u.running + u.retired == [r]
      && (it.n == 0 ==> r == it.s && u == Updated(p, [it.s], [], []) && !Samples(it))
  {
    hide AppendToken, Publish, ExtendHashes, FreeTable;
  }

  lemma {:induction false} UpdateItemsStep(cfg: Config, p: Pool, items: seq<Item>, sampled: seq<Token>)
    requires cfg.blockSize > 0 && items != []
    ensures var u := UpdateItem(cfg, p, items[0], sampled);
      var v := UpdateItems(cfg, u.pool, items[1..], Rest(items[0], sampled));
      UpdateItems(cfg, p, items, sampled) == Updated(v.pool, u.running + v.running, u.retired + v.retired, u.outputs + v.outputs)
  {
    hide UpdateItem, Samples;
  }

  /** Items that compute nothing change nothing: the batch alone decides the pool, the outputs and what its
      requests become; the new running list is the old one with those that finished left out. */
  lemma {:induction false} OverBatch(cfg: Config, p: Pool, items: seq<Item>, sampled: seq<Token>)
    requires cfg.blockSize > 0 && forall i :: 0 <= i < |items| ==> items[i].s.status == Running
    ensures var u, b := UpdateItems(cfg, p, items, sampled), UpdateItems(cfg, p, Batch(items), sampled);
      && u.pool == b.pool && u.outputs == b.outputs
      && u.running == StillRunning(Progress(items, After(cfg, p, Batch(items), sampled)))
    decreases |items|
  {
    hide UpdateItem, Samples, Result, Batch;
    if items == [] {
      assert Progress(items, After(cfg, p, Batch(items), sampled)) == [];
      EmptyBatch();
    } else {
      var it, tail := items[0], items[1..];
      BatchFront(items);
      UpdateItemsStep(cfg, p, items, sampled);
      OneResult(cfg, p, it, sampled);
      var u1 := UpdateItem(cfg, p, it, sampled);
      OverBatch(cfg, u1.pool, tail, Rest(it, sampled));
      if it.n > 0 {
        assert Batch(items)[0] == it && Batch(items)[1..] == Batch(tail);
        UpdateItemsStep(cfg, p, Batch(items), sampled);
      } else {
        assert Batch(items) == Batch(tail);
      }
      FrontProgress(cfg, p, items, sampled);
    }
  }

  lemma {:induction false} EmptyBatch()
    ensures Batch([]) == []
  {
  }

  lemma {:induction false} FirstRank(items: seq<Item>)
    ensures Rank(items, 0) == 0
  {
    assert items[..0] == [];
  }

  lemma {:induction false} FrontProgress(cfg: Config, p: Pool, items: seq<Item>, sampled: seq<Token>)
    requires cfg.blockSize > 0 && items != [] && items[0].s.status == Running
    ensures var u1, r := UpdateItem(cfg, p, items[0], sampled), Result(cfg, p, items[0], sampled);
      var rest := Progress(items[1..], After(cfg, u1.pool, Batch(items[1..]), Rest(items[0], sampled)));
      StillRunning(Progress(items, After(cfg, p, Batch(items), sampled))) == (if r.status == Running then [r] else []) + StillRunning(rest)
  {
    hide UpdateItem, Result, StillRunning, Batch, Samples, Rank;
    FirstRank(items);
    var it, tail := items[0], items[1..];
    BatchFront(items);
    OneResult(cfg, p, it, sampled);
    var after := After(cfg, p, Batch(items), sampled);
    var later := After(cfg, UpdateItem(cfg, p, it, sampled).pool, Batch(tail), Rest(it, sampled));
    if it.n > 0 {
      assert Batch(items)[0] == it && Batch(items)[1..] == Batch(tail);
      assert after == [Result(cfg, p, it, sampled)] + later;
    } else {
      assert Batch(items) == Batch(tail) && after == later;
    }
    var whole, rest := Progress(items, after), Progress(tail, later);
    assert whole[0] == Result(cfg, p, it, sampled);
    forall i | 0 <= i < |rest| ensures whole[i + 1] == rest[i] {
      RankTail(items, i + 1);
      assert tail[i] == items[i + 1];
    }
    assert whole[1..] == rest;
    StillRunningFront(whole);
  }

  /** Requests keep their ids, and end up running or finished. */
  lemma {:induction false} AfterIs(cfg: Config, p: Pool, items: seq<Item>, sampled: seq<Token>)
    requires cfg.blockSize > 0 && forall i :: 0 <= i < |items| ==> items[i].s.status == Running
    ensures var after := After(cfg, p, items, sampled);
      forall i :: 0 <= i < |items| ==> after[i].id == items[i].s.id && (after[i].status == Running || after[i].status == Finished)
    decreases |items|
  {
    hide UpdateItem, Result, Samples;
    if items != [] {
      OneResult(cfg, p, items[0], sampled);
      AfterIs(cfg, UpdateItem(cfg, p, items[0], sampled).pool, items[1..], Rest(items[0], sampled));
    }
  }

  lemma {:induction false} BatchRunning(items: seq<Item>)
    requires forall i :: 0 <= i < |items| ==> items[i].s.status == Running
    ensures forall k :: 0 <= k < |Batch(items)| ==> Batch(items)[k].s.status == Running
  {
    hide Batch;
    forall k | 0 <= k < |Batch(items)| ensures Batch(items)[k].s.status == Running {
      var i := ItemOfBatch(items, k);
    }
  }

  /** Whatever has been dealt with, the ids stay. */
  lemma {:induction false} ProgressIs(items: seq<Item>, after: seq<Seq>, k: nat)
    requires |after| == |Batch(items)| && k <= |after|
    requires forall i :: 0 <= i < |after| ==> after[i].id == Batch(items)[i].s.id && (after[i].status == Running || after[i].status == Finished)
    requires forall i :: 0 <= i < |items| ==> items[i].s.status == Running
    ensures var values := Progress(items, after[..k]);
      forall i :: 0 <= i < |items| ==> values[i].id == items[i].s.id && (values[i].status == Running || values[i].status == Finished)
    ensures (forall j :: 0 <= j < k ==> after[j].status == Running)
      ==> forall i :: 0 <= i < |items| ==> Progress(items, after[..k])[i].status == Running
  {
    hide Batch, Rank;
    forall i | 0 <= i < |items| && items[i].n > 0 ensures Rank(items, i) < |after| && after[Rank(items, i)].id == items[i].s.id {
      RankIs(items, i);
    }
  }

  // --- half-way through the batch --------------------------------------------------------------------------------------

  /** Items ready to have their results taken, beside the tables `others` holds. */
  ghost predicate Ready(cfg: Config, p: Pool, others: multiset<Block>, items: seq<Item>, sampled: seq<Token>)
    requires cfg.blockSize > 0
  {
    Valid(cfg.numBlocks, p, others + Total(Seqs(items), TableOf)) && ItemsOk(cfg, p, items) && |sampled| == NumSampled(items)
  }

  lemma {:induction false} ReadyNext(cfg: Config, p: Pool, others: multiset<Block>, items: seq<Item>, sampled: seq<Token>)
    requires cfg.blockSize > 0 && items != [] && Ready(cfg, p, others, items, sampled)
    ensures var u := UpdateItem(cfg, p, items[0], sampled);
      && Ready(cfg, u.pool, others + Total(u.running, TableOf), items[1..], Rest(items[0], sampled))
      && ItemOk(cfg, p, items[0]) && items[0].s.status == Running && (Samples(items[0]) ==> sampled != [])
      && (forall held :: Valid(cfg.numBlocks, p, held) ==> multiset(items[0].s.table) <= held)
      && UpdateItem(cfg, p, items[0], sampled) == UpdateItem(cfg, p, items[0], if Samples(items[0]) then [sampled[0]] else [])
  {
    UpdateTailReady(cfg, p, others, items, sampled);
    SampledHere(cfg, p, items[0], sampled);
    hide Valid, ItemsOk, UpdateItem, NumSampled, Total, RequestOk, TableOk;
    SeqsCuts(items);
    TotalHas(Seqs(items), 0, TableOf);
    var now := others + Total(Seqs(items), TableOf);
    forall held | Valid(cfg.numBlocks, p, held) ensures multiset(items[0].s.table) <= held {
      HeldIs(cfg.numBlocks, p, held, now);
    }
  }

  lemma {:induction false} SampledHere(cfg: Config, p: Pool, it: Item, sampled: seq<Token>)
    requires cfg.blockSize > 0 && (Samples(it) ==> sampled != [])
    ensures UpdateItem(cfg, p, it, sampled) == UpdateItem(cfg, p, it, if Samples(it) then [sampled[0]] else [])
  {
    hide Advance, TakeToken;
  }

  /** The first k of a batch have been dealt with, using the first `used` samples: p is the pool they leave,
      `outs` what they put out. */
  ghost predicate Half(cfg: Config, p0: Pool, items: seq<Item>, sampled: seq<Token>, k: nat, used: nat, p: Pool,
                       others: multiset<Block>, outs: seq<Output>)
    requires cfg.blockSize > 0
  {
    && k <= |items| && used <= |sampled| && Ready(cfg, p, others, items[k..], sampled[used..])
    && var u, v := UpdateItems(cfg, p0, items, sampled), UpdateItems(cfg, p, items[k..], sampled[used..]);
    && u.pool == v.pool && u.outputs == outs + v.outputs
    && After(cfg, p0, items, sampled)[k..] == After(cfg, p, items[k..], sampled[used..])
  }

  lemma {:induction false} HalfStart(cfg: Config, p: Pool, others: multiset<Block>, items: seq<Item>, sampled: seq<Token>)
    requires cfg.blockSize > 0 && Ready(cfg, p, others, items, sampled)
    ensures Half(cfg, p, items, sampled, 0, 0, p, others, [])
  {
    hide Ready, UpdateItems;
    assert items[0..] == items && sampled[0..] == sampled;
    var u := UpdateItems(cfg, p, items, sampled);
    assert [] + u.outputs == u.outputs;
  }

  lemma {:induction false} HalfStep(cfg: Config, p0: Pool, items: seq<Item>, sampled: seq<Token>, k: nat, used: nat,
                                    p: Pool, others: multiset<Block>, outs: seq<Output>)
    requires cfg.blockSize > 0 && k < |items| && Half(cfg, p0, items, sampled, k, used, p, others, outs)
    ensures var it := items[k];
      && (Samples(it) ==> used < |sampled|)
      && var u := UpdateItem(cfg, p, it, if Samples(it) then [sampled[used]] else []);
      && Half(cfg, p0, items, sampled, k + 1, used + (if Samples(it) then 1 else 0), u.pool, others + Total(u.running, TableOf), outs + u.outputs)
      && u.running + u.retired == [After(cfg, p0, items, sampled)[k]]
      && After(cfg, p0, items, sampled)[k].status == (if u.running != [] then Running else Finished)
      && After(cfg, p0, items, sampled)[k].id == it.s.id
      && ItemOk(cfg, p, it) && it.s.status == Running
      && (forall held :: Valid(cfg.numBlocks, p, held) ==> multiset(it.s.table) <= held)
  {
    hide Ready, UpdateItem, UpdateItems, Result, Samples, ItemOk, Valid, Total;
    var it, rest := items[k], sampled[used..];
    assert items[k..][0] == it && items[k..][1..] == items[k + 1..];
    ReadyNext(cfg, p, others, items[k..], rest);
    OneResult(cfg, p, it, rest);
    UpdateItemsStep(cfg, p, items[k..], rest);
    var u := UpdateItem(cfg, p, it, rest);
    var after := After(cfg, p0, items, sampled);
    assert after[k..] == [Result(cfg, p, it, rest)] + After(cfg, u.pool, items[k + 1..], Rest(it, rest));
    assert after[k] == after[k..][0] && after[k + 1..] == after[k..][1..];
    assert Samples(it) ==> rest[1..] == sampled[used + 1..];
    var v := UpdateItems(cfg, u.pool, items[k + 1..], Rest(it, rest));
    assert outs + (u.outputs + v.outputs) == outs + u.outputs + v.outputs;
  }

  lemma {:induction false} HalfDone(cfg: Config, p0: Pool, items: seq<Item>, sampled: seq<Token>, used: nat, p: Pool,
                                    others: multiset<Block>, outs: seq<Output>)
    requires cfg.blockSize > 0 && Half(cfg, p0, items, sampled, |items|, used, p, others, outs)
    ensures UpdateItems(cfg, p0, items, sampled).pool == p && UpdateItems(cfg, p0, items, sampled).outputs == outs
  {
    assert items[|items|..] == [];
    assert outs + [] == outs;
  }

  // --- a batch is ready ------------------------------------------------------------------------------------------------

  lemma {:induction false} BatchReady(cfg: Config, p: Pool, others: multiset<Block>, items: seq<Item>,
                                      sampled: seq<Token>) returns (beside: multiset<Block>)
    requires cfg.blockSize > 0 && Ready(cfg, p, others, items, sampled)
    ensures Ready(cfg, p, beside, Batch(items), sampled)
  {
    hide Valid, ItemOk, NumSampled;
    beside := others + BatchTables(items);
    BatchTotal(items);
    BatchItems(cfg, p, items);
    BatchSampled(items);
    assert others + Total(Seqs(items), TableOf) == beside + Total(Seqs(Batch(items)), TableOf);
  }

  /** The tables of those not in the batch. */
  function BatchTables(items: seq<Item>): multiset<Block> {
    if items == [] then multiset{}
    else (if items[0].n > 0 then multiset{} else TableOf(items[0].s)) + BatchTables(items[1..])
  }

  lemma {:induction false} BatchTotal(items: seq<Item>)
    ensures Total(Seqs(items), TableOf) == BatchTables(items) + Total(Seqs(Batch(items)), TableOf)
    decreases |items|
  {
    if items != [] {
      BatchFront(items);
      BatchTotal(items[1..]);
      SeqsCuts(items);
      hide Batch;
      if items[0].n > 0 {
        SeqsCuts(Batch(items));
        assert Batch(items)[1..] == Batch(items[1..]);
      } else {
        assert Batch(items) == Batch(items[1..]);
      }
    }
  }

  lemma {:induction false} BatchItems(cfg: Config, p: Pool, items: seq<Item>)
    requires cfg.blockSize > 0 && ItemsOk(cfg, p, items)
    ensures ItemsOk(cfg, p, Batch(items))
  {
    hide ItemOk, Batch;
    forall k | 0 <= k < |Batch(items)| ensures ItemOk(cfg, p, Batch(items)[k]) {
      var i := ItemOfBatch(items, k);
    }
  }

  lemma {:induction false} BatchSampled(items: seq<Item>)
    ensures NumSampled(Batch(items)) == NumSampled(items)
    decreases |items|
  {
    if items != [] {
      BatchFront(items);
      BatchSampled(items[1..]);
      hide Batch;
      if items[0].n > 0 {
        assert Batch(items)[0] == items[0] && Batch(items)[1..] == Batch(items[1..]);
      } else {
        assert Batch(items) == Batch(items[1..]);
      }
    }
  }
}
