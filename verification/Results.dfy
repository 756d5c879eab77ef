// Taking a step's results: newly published pages hold what their hashes stand for, continuing
// requests keep their K/V, and every request stays on the path of its own lone run.
module Results {
  import opened Basics
  import opened Paging
  import opened BlockPool
  import opened PrefixCache
  import opened Transformer
  import opened Streaming
  import opened Scheduling
  import opened Accounting
  import opened Planning
  import opened Stepping
  import opened Memory
  import opened KvKept
  import opened Execute

  // --- K/V ---------------------------------------------------------------------------------------------------

  /** A full computed block holds what its prefix hash stands for. */
  lemma {:induction false} FullBlockKV(cfg: Config, model: Model, pages: seq<PageData>, s: Seq, i: nat)
    requires cfg.blockSize > 0 && i < |s.table| && (i + 1) * cfg.blockSize <= s.computed
    requires SeqKV(model, cfg.blockSize, pages, s.table, s.gen.tokens, s.computed)
    ensures HashKV(model, cfg.blockSize, pages, s.table[i], PrefixHash(cfg.blockSize, s.gen.tokens, i + 1))
  {
    assert s.computed <= NumTokens(s);
    hide PrefixHash, EntryAt, HashTokens, SeqKV, Cell;
    PrefixHashTokens(cfg.blockSize, s.gen.tokens, i + 1);
    forall o | 0 <= o < cfg.blockSize {
      FullBlockCell(cfg, model, pages, s, i, o);
    }
  }

  lemma {:induction false} FullBlockEnds(bs: nat, computed: nat, i: nat)
    requires bs > 0 && i < computed / bs
    ensures (i + 1) * bs <= computed
  {
    FullPages(bs, computed);
    MulMono(i + 1, computed / bs, bs);
  }

  lemma {:induction false} FullBlockCell(cfg: Config, model: Model, pages: seq<PageData>, s: Seq, i: nat, o: nat)
    requires cfg.blockSize > 0 && o < cfg.blockSize && i < |s.table| && (i + 1) * cfg.blockSize <= s.computed
    requires SeqKV(model, cfg.blockSize, pages, s.table, s.gen.tokens, s.computed)
    ensures 0 <= i * cfg.blockSize && (i + 1) * cfg.blockSize == i * cfg.blockSize + cfg.blockSize
    ensures var tokens := s.gen.tokens[..(i + 1) * cfg.blockSize];
      Cell(pages, s.table[i], o) == EntryAt(model, tokens, |tokens| - cfg.blockSize + o)
  {
    hide EntryAt, Cell, Page, Offset;
    var bs, tokens := cfg.blockSize, s.gen.tokens;
    PageOf(bs, i, o);
    var p: nat, hi := i * bs + o, (i + 1) * bs;
    assert hi == i * bs + bs;
    assert At(bs, pages, s.table, p) == EntryAt(model, tokens, p);
    assert tokens[..hi][..p + 1] == tokens[..p + 1];
    EntryPrefix(model, tokens[..hi], tokens, p);
  }

  lemma {:induction false} PublishKv(cfg: Config, model: Model, pages: seq<PageData>, p: Pool, others: multiset<Block>, s: Seq)
    requires cfg.blockSize > 0 && Valid(cfg.numBlocks, p, others + multiset(s.table))
    requires RunOk(cfg, p, s, 0) && RequestOk(cfg, s)
    requires SeqKV(model, cfg.blockSize, pages, s.table, s.gen.tokens, s.computed) && CacheKV(model, cfg.blockSize, pages, p)
    ensures CacheKV(model, cfg.blockSize, pages, CacheFullBlocks(cfg, p, s).0)
  {
    hide Valid, RunOk, RequestOk, SeqKV, HashOf, HashKV, Publish, ExtendHashes, PrefixHash;
    var full := s.computed / cfg.blockSize;
    if cfg.prefixCaching && s.registered < full {
      PublishReady(cfg, p, others, s);
      var (q, s') := CacheFullBlocks(cfg, p, s);
      forall b: Block | HashOf(q, b).Some? ensures HashKV(model, cfg.blockSize, pages, b, HashOf(q, b).value) {
        if HashOf(q, b) != HashOf(p, b) {
          assert Gained(p, q, s.table, s'.hashes, s.registered, full, b);
          var i :| s.registered <= i < full && b == s.table[i] && HashOf(q, b) == Some(s'.hashes[i]);
          FullBlockEnds(cfg.blockSize, s.computed, i);
          FullBlockKV(cfg, model, pages, s, i);
        } else {
          assert HashKV(model, cfg.blockSize, pages, b, HashOf(p, b).value);
        }
      }
    }
  }

  ghost predicate UpdatedKv(cfg: Config, model: Model, pages: seq<PageData>, u: Updated)
    requires cfg.blockSize > 0
  {
    OnDevice(cfg, model, pages, u.running) && CacheKV(model, cfg.blockSize, pages, u.pool)
  }

  lemma {:induction false} UpdateItemKv(cfg: Config, model: Model, pages: seq<PageData>, p: Pool,
                                        others: multiset<Block>, it: Item, sampled: seq<Token>)
    requires cfg.blockSize > 0 && Valid(cfg.numBlocks, p, others + multiset(it.s.table)) && ItemOk(cfg, p, it)
    requires SeqKV(model, cfg.blockSize, pages, it.s.table, it.s.gen.tokens, it.s.computed + it.n)
    requires CacheKV(model, cfg.blockSize, pages, p)
    ensures UpdatedKv(cfg, model, pages, UpdateItem(cfg, p, it, sampled))
  {
    hide Valid, RunOk, RequestOk, SeqKV, CacheKV, FreeTable, AppendToken, CacheFullBlocks, KeepsHash;
    if it.n > 0 {
      var s0 := it.s.(computed := it.s.computed + it.n);
      AdvanceTableOk(cfg, p, it.s, it.n);
      SameRequestOk(cfg, it.s, s0);
      PublishKv(cfg, model, pages, p, others, s0);
      AdvanceOk(cfg, p, others, it);
      var (p1, s1) := Advance(cfg, p, it);
      if Samples(it) && sampled != [] {
        var gen := AppendToken(cfg.serving, s1.params, s1.gen, sampled[0]).0;
        SeqKVAppend(model, cfg.blockSize, pages, s1.table, s1.gen.tokens, [sampled[0]], s1.computed);
        AppendsToken(cfg, s1, sampled[0]);
        FinishedNoNew(cfg, p1, others, s1, gen, AppendToken(cfg.serving, s1.params, s1.gen, sampled[0]).2);
        CacheKVKept(cfg, model, pages, p1, FreeTable(p1, s1.table));
      }
    }
  }

  lemma {:induction false} AppendsToken(cfg: Config, s: Seq, t: Token)
    ensures AppendToken(cfg.serving, s.params, s.gen, t).0.tokens == s.gen.tokens + [t]
  {
  }

  lemma {:induction false} FinishedNoNew(cfg: Config, p: Pool, others: multiset<Block>, s: Seq, gen: Gen, finish: Option<Reason>)
    requires Valid(cfg.numBlocks, p, others + multiset(s.table))
    ensures NoNewHash(p, FreeTable(p, s.table))
  {
    FreeSeqNoNew(cfg, p, others, s);
  }

  lemma {:induction false} UpdateItemsKv(cfg: Config, model: Model, pages: seq<PageData>, p: Pool,
                                         others: multiset<Block>, items: seq<Item>, sampled: seq<Token>)
    requires cfg.blockSize > 0 && Valid(cfg.numBlocks, p, others + Total(Seqs(items), TableOf))
    requires ItemsOk(cfg, p, items) && |sampled| == NumSampled(items)
    requires Executed(cfg, model, pages, items) && CacheKV(model, cfg.blockSize, pages, p)
    ensures UpdatedKv(cfg, model, pages, UpdateItems(cfg, p, items, sampled))
    decreases |items|
  {
    hide Valid, ItemOk, ItemsOk, UpdateItem, SeqKV, CacheKV, UpdatedOk, Total, NumSampled;
    if items == [] {
      NobodyOnDevice(cfg, model, pages);
    } else {
      var it, tail := items[0], items[1..];
      UpdateTailReady(cfg, p, others, items, sampled);
      var u := UpdateItem(cfg, p, it, sampled);
      UpdateItemKv(cfg, model, pages, p, others + Total(Seqs(tail), TableOf), it, sampled);
      var rest := if Samples(it) && sampled != [] then sampled[1..] else sampled;
      UpdateItemsKv(cfg, model, pages, u.pool, others + Total(u.running, TableOf), tail, rest);
    }
  }

  // --- the reference run -------------------------------------------------------------------------------------

  function Prompt(s: Seq): seq<Token>
    requires s.gen.promptLen <= NumTokens(s)
  {
    s.gen.tokens[..s.gen.promptLen]
  }

  /** The request generated alone, from its prompt. */
  function Alone(cfg: Config, model: Model, s: Seq): (Gen, Reason)
    requires 1 <= s.gen.promptLen <= NumTokens(s)
  {
    SoloRun(model, cfg.serving, s.params, NewGen(Prompt(s), cfg.hasTokenizer))
  }

  /** The request is part-way along its lone run: going on alone from here ends as the lone run ends. */
  ghost predicate OnCourse(cfg: Config, model: Model, s: Seq) {
    && 1 <= s.gen.promptLen <= NumTokens(s)
    && SoloRun(model, cfg.serving, s.params, s.gen) == Alone(cfg, model, s)
  }

  /** A request that has left. Finished with a stop or a length it is its whole lone run; failed or
      aborted it is part-way along it. */
  ghost predicate Settled(cfg: Config, model: Model, s: Seq) {
    && 1 <= s.gen.promptLen <= NumTokens(s)
    && (s.status == Finished || s.status == Aborted)
    && (s.status == Finished ==> s.reason.Some?)
    && if s.status == Finished && s.reason != Some(Error)
       then Alone(cfg, model, s) == (s.gen, s.reason.value)
       else OnCourse(cfg, model, s)
  }

  lemma {:induction false} TakeTokenOnCourse(cfg: Config, model: Model, p: Pool, s: Seq, t: Token)
    requires OnCourse(cfg, model, s) && t == NextToken(model, s.gen.tokens)
    ensures var u := TakeToken(cfg, p, s, t);
      && (forall i :: 0 <= i < |u.running| ==> OnCourse(cfg, model, u.running[i]))
      && (forall i :: 0 <= i < |u.retired| ==> Settled(cfg, model, u.retired[i]))
  {
    hide AppendToken, FreeTable, NextToken;
    var (gen, text, finish) := AppendToken(cfg.serving, s.params, s.gen, t);
    AppendsToken(cfg, s, t);
    AppendsMore(cfg, s, t);
    assert gen.tokens[..gen.promptLen] == s.gen.tokens[..s.gen.promptLen];
    assert SoloRun(model, cfg.serving, s.params, s.gen)
        == if finish.Some? then (gen, finish.value) else SoloRun(model, cfg.serving, s.params, gen);
    if finish.Some? {
      var done := TakeToken(cfg, p, s, t).retired[0];
      assert done.gen == gen && done.params == s.params && done.reason == finish;
      assert Prompt(done) == Prompt(s);
      assert finish.value == Stop || finish.value == Length;
    }
  }

  lemma {:induction false} AppendsMore(cfg: Config, s: Seq, t: Token)
    ensures AppendToken(cfg.serving, s.params, s.gen, t).0.promptLen == s.gen.promptLen
    ensures AppendToken(cfg.serving, s.params, s.gen, t).2 != Some(Error)
  {
  }

  lemma {:induction false} UpdateItemOnCourse(cfg: Config, model: Model, p: Pool, it: Item, sampled: seq<Token>)
    requires cfg.blockSize > 0 && OnCourse(cfg, model, it.s)
    requires Samples(it) ==> sampled != [] && sampled[0] == NextToken(model, it.s.gen.tokens)
    ensures AllOnCourse(cfg, model, UpdateItem(cfg, p, it, sampled).running)
    ensures AllSettled(cfg, model, UpdateItem(cfg, p, it, sampled).retired)
  {
    hide SoloRun, TakeToken, Publish, ExtendHashes, NextToken;
    if it.n > 0 {
      var (p1, s1) := Advance(cfg, p, it);
      assert s1.gen == it.s.gen && s1.params == it.s.params;
      if Samples(it) {
        TakeTokenOnCourse(cfg, model, p1, s1, sampled[0]);
      }
    }
  }

  ghost predicate AllOnCourse(cfg: Config, model: Model, seqs: seq<Seq>) {
    forall i :: 0 <= i < |seqs| ==> OnCourse(cfg, model, seqs[i])
  }

  ghost predicate AllSettled(cfg: Config, model: Model, seqs: seq<Seq>) {
    forall i :: 0 <= i < |seqs| ==> Settled(cfg, model, seqs[i])
  }

  lemma {:induction false} CourseConcat(cfg: Config, model: Model, a: seq<Seq>, b: seq<Seq>)
    ensures AllOnCourse(cfg, model, a) && AllOnCourse(cfg, model, b) ==> AllOnCourse(cfg, model, a + b)
    ensures AllSettled(cfg, model, a) && AllSettled(cfg, model, b) ==> AllSettled(cfg, model, a + b)
  {
    hide OnCourse, Settled;
  }

  /** Sampling what lone runs would sample keeps every request on its course. */
  lemma {:induction false} UpdateItemsOnCourse(cfg: Config, model: Model, p: Pool, items: seq<Item>, sampled: seq<Token>)
    requires cfg.blockSize > 0 && AllOnCourse(cfg, model, Seqs(items)) && sampled == Expected(model, items)
    ensures AllOnCourse(cfg, model, UpdateItems(cfg, p, items, sampled).running)
    ensures AllSettled(cfg, model, UpdateItems(cfg, p, items, sampled).retired)
    decreases |items|
  {
    hide OnCourse, Settled, UpdateItem, NextToken;
    if items != [] {
      var it, tail := items[0], items[1..];
      assert OnCourse(cfg, model, Seqs(items)[0]);
      SeqsCuts(items);
      HasTokens(cfg, model, it.s);
      UpdateItemOnCourse(cfg, model, p, it, sampled);
      var u := UpdateItem(cfg, p, it, sampled);
      var rest := if Samples(it) && sampled != [] then sampled[1..] else sampled;
      UpdateItemsOnCourse(cfg, model, u.pool, tail, rest);
      var v := UpdateItems(cfg, u.pool, tail, rest);
      CourseConcat(cfg, model, u.running, v.running);
      CourseConcat(cfg, model, u.retired, v.retired);
    }
  }

  lemma {:induction false} HasTokens(cfg: Config, model: Model, s: Seq)
    requires OnCourse(cfg, model, s)
    ensures s.gen.tokens != []
  {
  }

  /** What a request on its course has so far, tokens and texts, is a proper prefix of its lone run. */
  lemma {:induction false} OnCoursePrefix(cfg: Config, model: Model, s: Seq)
    requires OnCourse(cfg, model, s)
    ensures s.gen.tokens < Alone(cfg, model, s).0.tokens && s.gen.said < Alone(cfg, model, s).0.said
    ensures |s.gen.said| == NumOutput(s.gen)
  {
    hide SoloRun;
    SoloRunExtends(model, cfg.serving, s.params, s.gen);
    SoloRunExtends(model, cfg.serving, s.params, NewGen(Prompt(s), cfg.hasTokenizer));
  }
}
