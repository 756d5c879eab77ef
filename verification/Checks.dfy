// The two debug checkers, assertion by assertion, and the proof that every state the engine reaches
// passes them.
module Checks {
  import opened Basics
  import opened Paging
  import opened BlockPool
  import opened Scheduling
  import opened Accounting
  import opened Planning
  import opened Stepping
  import opened EngineRun
  import opened Requests
  import opened Order

  /** How many block tables hold a block. */
  function Holders(seqs: seq<Seq>, b: Block): nat {
    if seqs == [] then 0 else (if b in seqs[0].table then 1 else 0) + Holders(seqs[1..], b)
  }

  function HostHolders(seqs: seq<Seq>, c: Block): nat {
    if seqs == [] then 0 else multiset(seqs[0].cpuTable)[c] + HostHolders(seqs[1..], c)
  }

  /** A table maps no block twice and has one block per page of computed tokens. */
  ghost predicate TablesCheck(cfg: Config, running: seq<Seq>)
    requires cfg.blockSize > 0
  {
    forall i :: 0 <= i < |running| ==>
      Distinct(running[i].table) && |running[i].table| == BlocksFor(cfg.blockSize, running[i].computed)
  }

  /** A block's count is the number of tables that hold it. */
  ghost predicate CountsCheck(cfg: Config, p: Pool, running: seq<Seq>) {
    forall b: Block :: 0 <= b < cfg.numBlocks ==> RefsOf(p, b) == Holders(running, b)
  }

  ghost function InUse(cfg: Config, running: seq<Seq>): set<Block> {
    set b: Block | b in Below(cfg.numBlocks) && Holders(running, b) > 0
  }

  /** Free, evictable and in use are disjoint and make up the pool. */
  ghost predicate PoolsCheck(cfg: Config, p: Pool, running: seq<Seq>) {
    var free, evictable := set b: Block | b in p.free, set b: Block | b in p.evictable;
    var used := InUse(cfg, running);
    && Distinct(p.free) && Distinct(p.evictable)
    && free !! evictable && free !! used && evictable !! used
    && |p.free| + |p.evictable| + |used| == cfg.numBlocks
  }

  ghost predicate HashesCheck(p: Pool) {
    && (forall b: Block :: b in p.free ==> HashOf(p, b) == None)
    && (forall b: Block :: b in p.evictable ==>
          HashOf(p, b).Some? && HashOf(p, b).value in p.cached && p.cached[HashOf(p, b).value] == b)
    && (forall h :: h in p.cached ==> HashOf(p, p.cached[h]) == Some(h))
  }

  ghost function HostsInUse(cfg: Config, swapped: seq<Seq>): set<Block> {
    set c: Block | c in Below(cfg.numCpuBlocks) && HostHolders(swapped, c) > 0
  }

  ghost predicate HostsCheck(cfg: Config, cpuFree: seq<Block>, swapped: seq<Seq>) {
    && (forall c: Block :: HostHolders(swapped, c) <= 1)
    && Distinct(cpuFree) && (set c: Block | c in cpuFree) !! HostsInUse(cfg, swapped)
    && |cpuFree| + |HostsInUse(cfg, swapped)| == cfg.numCpuBlocks
  }

  /** The scheduler's own assertions about its four queues. */
  ghost predicate QueuesCheck(cfg: Config, st: State) {
    && (forall i :: 0 <= i < |st.running| ==>
          st.running[i].status == Running && st.running[i].cpuTable == [] && Uncomputed(st.running[i]) >= 1)
    && (forall i :: 0 <= i < |st.swapped| ==>
          st.swapped[i].status == Preempted && st.swapped[i].cpuTable != [] && st.swapped[i].table == [])
    && (forall i :: 0 <= i < |st.preempted| ==>
          var s := st.preempted[i]; s.status == Preempted && s.table == [] && s.cpuTable == [] && s.computed == 0)
    && (forall i :: 0 <= i < |st.waiting| ==>
          var s := st.waiting[i]; s.status == Waiting && s.table == [] && s.computed == 0)
    && Distinct(IdsOf(LiveSeqs(st)))
    && |st.running| <= cfg.maxNumSeqs
  }

  // --- the proofs ------------------------------------------------------------------------------------------------

  lemma {:induction false} HoldersCount(seqs: seq<Seq>, b: Block)
    requires forall i :: 0 <= i < |seqs| ==> Distinct(seqs[i].table)
    ensures Total(seqs, TableOf)[b] == Holders(seqs, b)
    decreases |seqs|
  {
    if seqs != [] {
      DistinctCount(seqs[0].table, b);
      assert Total(seqs, TableOf)[b] == TableOf(seqs[0])[b] + Total(seqs[1..], TableOf)[b];
      HoldersCount(seqs[1..], b);
    }
  }

  lemma {:induction false} HostCount(seqs: seq<Seq>, c: Block)
    ensures Total(seqs, HostsOf)[c] == HostHolders(seqs, c)
    decreases |seqs|
  {
    if seqs != [] {
      assert Total(seqs, HostsOf)[c] == HostsOf(seqs[0])[c] + Total(seqs[1..], HostsOf)[c];
      HostCount(seqs[1..], c);
    }
  }

  lemma {:induction false} StateParts(cfg: Config, st: State)
    requires cfg.blockSize > 0 && StateOk(cfg, st)
    ensures Valid(cfg.numBlocks, st.pool, Total(st.running, TableOf))
    ensures CpuValid(cfg.numCpuBlocks, st.pool.cpuFree, Total(st.swapped, HostsOf))
    ensures Unique(Total(st.running, IdOf) + Total(st.swapped, IdOf) + Total(st.preempted, IdOf) + Total(st.waiting, IdOf))
    ensures TablesCheck(cfg, st.running)
    ensures |st.running| <= cfg.maxNumSeqs
  {
    hide Valid, CpuValid, Unique, QueuesOk, TodosOk, RequestOk, BlocksFor, Total;
    var m := Begin(st);
    IdleConcat(st.running, []);
    assert Seqs(m.todo) == [];
    NoTotal(TableOf);
    assert Held(m.items, m.todo) == Total(st.running, TableOf);
    BeginIds(st);
    forall i | 0 <= i < |st.running|
      ensures Distinct(st.running[i].table) && |st.running[i].table| == BlocksFor(cfg.blockSize, st.running[i].computed)
    {
      assert ItemOk(cfg, st.pool, m.items[i]);
    }
  }

  lemma {:induction false} PoolChecks(cfg: Config, p: Pool, held: multiset<Block>, running: seq<Seq>)
    requires Valid(cfg.numBlocks, p, held) && forall b: Block :: held[b] == Holders(running, b)
    ensures PoolsCheck(cfg, p, running)
  {
    hide Holders;
    PoolPartition(cfg.numBlocks, p, held);
    ListsDistinct(cfg.numBlocks, p, held);
    forall b: Block | b in held ensures 0 <= b < cfg.numBlocks {
      PoolCover(cfg.numBlocks, p, held, b);
    }
    hide Valid, Distinct;
    assert (set b: Block | b in held) == InUse(cfg, running);
  }

  lemma {:induction false} ListsDistinct(n: nat, p: Pool, held: multiset<Block>)
    requires Valid(n, p, held)
    ensures Distinct(p.free) && Distinct(p.evictable)
  {
  }

  lemma {:induction false} PublishedChecks(n: nat, p: Pool, held: multiset<Block>)
    requires Valid(n, p, held)
    ensures HashesCheck(p)
  {
    hide Counted, Distinct;
  }

  lemma {:induction false} GpuChecks(cfg: Config, st: State)
    requires cfg.blockSize > 0 && StateOk(cfg, st)
    ensures CountsCheck(cfg, st.pool, st.running) && PoolsCheck(cfg, st.pool, st.running) && HashesCheck(st.pool)
  {
    hide StateOk, Valid, CpuValid, Unique, BlocksFor, Holders, Total, Distinct, PoolsCheck, HashesCheck, RefsOf;
    StateParts(cfg, st);
    var held := Total(st.running, TableOf);
    forall b: Block ensures held[b] == Holders(st.running, b) {
      HoldersCount(st.running, b);
    }
    forall b: Block | 0 <= b < cfg.numBlocks ensures RefsOf(st.pool, b) == held[b] {
      CountedRefs(cfg.numBlocks, st.pool, held, b);
    }
    PoolChecks(cfg, st.pool, held, st.running);
    PublishedChecks(cfg.numBlocks, st.pool, held);
  }

  lemma {:induction false} CountedRefs(n: nat, p: Pool, held: multiset<Block>, b: Block)
    requires Valid(n, p, held) && 0 <= b < n
    ensures RefsOf(p, b) == held[b]
  {
    hide Listed, Indexed;
  }

  lemma {:induction false} CpuChecks(cfg: Config, cpuFree: seq<Block>, held: multiset<Block>, swapped: seq<Seq>)
    requires CpuValid(cfg.numCpuBlocks, cpuFree, held) && forall c: Block :: held[c] == HostHolders(swapped, c)
    ensures HostsCheck(cfg, cpuFree, swapped)
  {
    hide HostHolders;
    forall c: Block ensures multiset(cpuFree)[c] <= 1 && (c in cpuFree <==> multiset(cpuFree)[c] == 1) {
      assert c in cpuFree <==> c in multiset(cpuFree);
    }
    CountsDistinct(cpuFree);
    DistinctSize(cpuFree);
    hide Distinct;
    var free := set c: Block | c in cpuFree;
    var used := HostsInUse(cfg, swapped);
    assert free !! used;
    CoverSize(cfg.numCpuBlocks, free, used, {});
  }

  lemma {:induction false} HostChecks(cfg: Config, st: State)
    requires cfg.blockSize > 0 && StateOk(cfg, st)
    ensures HostsCheck(cfg, st.pool.cpuFree, st.swapped)
  {
    hide StateOk, Valid, CpuValid, Unique, HostHolders, Total, HostsCheck, TablesCheck;
    StateParts(cfg, st);
    var held := Total(st.swapped, HostsOf);
    forall c: Block ensures held[c] == HostHolders(st.swapped, c) {
      HostCount(st.swapped, c);
    }
    CpuChecks(cfg, st.pool.cpuFree, held, st.swapped);
  }

  lemma {:induction false} IdsCount(seqs: seq<Seq>)
    ensures multiset(IdsOf(seqs)) == Total(seqs, IdOf)
    decreases |seqs|
  {
    if seqs == [] {
      assert IdsOf(seqs) == [];
    } else {
      IdsCount(seqs[1..]);
      assert IdsOf(seqs) == [seqs[0].id] + IdsOf(seqs[1..]);
    }
  }

  lemma {:induction false} IdsAreDistinct(cfg: Config, st: State)
    requires cfg.blockSize > 0 && StateOk(cfg, st)
    ensures Distinct(IdsOf(LiveSeqs(st)))
  {
    StateParts(cfg, st);
    hide StateOk, Valid, CpuValid, Total, TablesCheck;
    IdsCount(LiveSeqs(st));
    TotalConcat(st.running, st.swapped, IdOf);
    TotalConcat(st.running + st.swapped, st.preempted, IdOf);
    TotalConcat(st.running + st.swapped + st.preempted, st.waiting, IdOf);
    CountsDistinct(IdsOf(LiveSeqs(st)));
  }

  /** Every state between steps passes both checkers. */
  lemma {:induction false} PassesChecks(cfg: Config, st: State)
    requires cfg.blockSize > 0 && StateOk(cfg, st)
    ensures TablesCheck(cfg, st.running) && CountsCheck(cfg, st.pool, st.running)
    ensures PoolsCheck(cfg, st.pool, st.running) && HashesCheck(st.pool)
    ensures HostsCheck(cfg, st.pool.cpuFree, st.swapped) && QueuesCheck(cfg, st)
  {
    StateParts(cfg, st);
    GpuChecks(cfg, st);
    HostChecks(cfg, st);
    IdsAreDistinct(cfg, st);
    QueueFacts(cfg, st);
    hide StateOk, TablesCheck, CountsCheck, PoolsCheck, HashesCheck, HostsCheck, Valid, CpuValid, Unique, Distinct;
  }

  lemma {:induction false} QueueFacts(cfg: Config, st: State)
    requires cfg.blockSize > 0 && StateOk(cfg, st)
    ensures forall i :: 0 <= i < |st.running| ==>
      st.running[i].status == Running && st.running[i].cpuTable == [] && Uncomputed(st.running[i]) >= 1
    ensures forall i :: 0 <= i < |st.swapped| ==>
      st.swapped[i].status == Preempted && st.swapped[i].cpuTable != [] && st.swapped[i].table == []
    ensures forall i :: 0 <= i < |st.preempted| ==>
      var s := st.preempted[i]; s.status == Preempted && s.table == [] && s.cpuTable == [] && s.computed == 0
    ensures forall i :: 0 <= i < |st.waiting| ==>
      var s := st.waiting[i]; s.status == Waiting && s.table == [] && s.computed == 0
  {
    hide Valid, CpuValid, Unique, RequestOk, BlocksFor, Total;
    forall i | 0 <= i < |st.running|
      ensures st.running[i].status == Running && st.running[i].cpuTable == [] && Uncomputed(st.running[i]) >= 1
    {
      assert ItemOk(cfg, st.pool, Begin(st).items[i]);
    }
    forall i | 0 <= i < |st.swapped| ensures st.swapped[i].cpuTable != [] {
      SwappedHasHosts(cfg, st.swapped[i]);
    }
    forall i | 0 <= i < |st.waiting| ensures st.waiting[i].status == Waiting {
      assert ParkedOk(cfg, st.waiting[i], Waiting);
    }
  }
}
