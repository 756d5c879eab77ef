// The scheduler as a value: one engine step's decisions as functions of the queues and the pool.
//
// While a step is being planned the running list is cut in two: `items` holds the sequences already
// visited, each with the number of tokens it computes this step (0 when it is skipped), and `todo`
// the rest with their planned numbers. The batch is the items with a positive number, in order.
module Scheduling {
  import opened Basics
  import opened Paging
  import opened BlockPool
  import opened Streaming

  datatype Policy = Fcfs | Sjf | Priority

  datatype Config = Config(
    numBlocks: nat,
    blockSize: nat,
    prefixCaching: bool,
    numCpuBlocks: nat,
    watermarkBlocks: nat,
    maxNumSeqs: nat,
    maxBatchTokens: nat,
    chunked: bool,
    swap: bool,
    policy: Policy,
    agingRate: real,
    serving: Serving,
    hasTokenizer: bool,
    vocabSize: nat)

  /** The cross-field rules a resolved configuration satisfies. */
  predicate ConfigOk(cfg: Config) {
    && cfg.numBlocks > 0 && cfg.blockSize > 0 && cfg.maxNumSeqs > 0 && cfg.maxBatchTokens > 0
    && cfg.agingRate >= 0.0
    && (if cfg.chunked then cfg.maxBatchTokens >= cfg.maxNumSeqs
        else cfg.maxBatchTokens >= cfg.serving.maxModelLen)
  }

  datatype Status = Waiting | Running | Preempted | Finished | Aborted

  datatype Seq = Seq(
    id: int,
    params: Params,
    arrival: real,
    priority: Option<real>,
    gen: Gen,
    table: seq<Block>,
    cpuTable: seq<Block>,
    computed: nat,
    hashes: seq<Hash>,
    registered: nat,
    status: Status,
    reason: Option<Reason>)

  function NewSeq(cfg: Config, id: int, prompt: seq<Token>, params: Params, arrival: real, priority: Option<real>): Seq {
    Seq(id, params, arrival, priority, NewGen(prompt, cfg.hasTokenizer), [], [], 0, [], 0, Waiting, None)
  }

  function NumTokens(s: Seq): nat {
    |s.gen.tokens|
  }

  function Uncomputed(s: Seq): int {
    |s.gen.tokens| - s.computed
  }

  datatype Output = Output(
    id: int, tokens: seq<Token>, text: string, finished: bool, reason: Option<Reason>, promptLen: nat, numOutput: int)

  datatype Item = Item(s: Seq, n: nat)

  /** The engine's requests between two steps. `retired` is a history of those that have left. */
  datatype State = State(
    pool: Pool,
    running: seq<Seq>,
    swapped: seq<Seq>,
    preempted: seq<Seq>,
    waiting: seq<Seq>,
    retired: seq<Seq>)

  datatype Mid = Mid(
    pool: Pool,
    items: seq<Item>,
    todo: seq<Item>,
    swapped: seq<Seq>,
    preempted: seq<Seq>,
    waiting: seq<Seq>,
    retired: seq<Seq>,
    outputs: seq<Output>,
    swapOut: seq<(Block, Block)>,
    swapIn: seq<(Block, Block)>,
    numPreempted: nat)

  function Seqs(items: seq<Item>): (r: seq<Seq>)
    ensures |r| == |items| && forall i :: 0 <= i < |items| ==> r[i] == items[i].s
  {
    seq(|items|, i requires 0 <= i < |items| => items[i].s)
  }

  function Idle(seqs: seq<Seq>): (r: seq<Item>)
    ensures |r| == |seqs| && forall i :: 0 <= i < |seqs| ==> r[i] == Item(seqs[i], 0)
  {
    seq(|seqs|, i requires 0 <= i < |seqs| => Item(seqs[i], 0))
  }

  function BatchTokens(items: seq<Item>): nat {
    if items == [] then 0 else BatchTokens(items[..|items| - 1]) + items[|items| - 1].n
  }

  function Batch(items: seq<Item>): seq<Item> {
    if items == [] then []
    else
      var last := items[|items| - 1];
      Batch(items[..|items| - 1]) + (if last.n > 0 then [last] else [])
  }

  function Begin(st: State): Mid {
    Mid(st.pool, Idle(st.running), [], st.swapped, st.preempted, st.waiting, st.retired, [], [], [], 0)
  }

  // --- the allocator, seen from one sequence ---------------------------------------------------------

  function Needed(cfg: Config, s: Seq, n: nat): int
    requires cfg.blockSize > 0
  {
    BlocksFor(cfg.blockSize, s.computed + n) - |s.table|
  }

  predicate CanAppend(cfg: Config, p: Pool, s: Seq, n: nat)
    requires cfg.blockSize > 0
  {
    Needed(cfg, s, n) <= NumFree(p)
  }

  function AppendSlots(cfg: Config, p: Pool, s: Seq, n: nat): (Pool, Seq)
    requires cfg.blockSize > 0
  {
    var (q, blocks) := Grow(p, Needed(cfg, s, n));
    (q, s.(table := s.table + blocks))
  }

  function FreeSeq(p: Pool, s: Seq): (Pool, Seq) {
    (FreeTable(p, s.table), s.(table := [], registered := 0))
  }

  predicate CanSwapOut(p: Pool, s: Seq) {
    |s.table| <= |p.cpuFree|
  }

  function Zip(a: seq<Block>, b: seq<Block>): (r: seq<(Block, Block)>)
    requires |a| == |b|
    ensures |r| == |a| && forall i :: 0 <= i < |a| ==> r[i] == (a[i], b[i])
  {
    seq(|a|, i requires 0 <= i < |a| => (a[i], b[i]))
  }

  /** Park a sequence's blocks in host memory; the copies are (GPU block, host block). */
  function SwapOut(p: Pool, s: Seq): (Pool, Seq, seq<(Block, Block)>)
    requires CanSwapOut(p, s)
  {
    var hosts := p.cpuFree[..|s.table|];
    var (q, s') := FreeSeq(p.(cpuFree := p.cpuFree[|s.table|..]), s.(cpuTable := s.cpuTable + hosts));
    (q, s', Zip(s.table, hosts))
  }

  predicate CanSwapIn(cfg: Config, p: Pool, s: Seq, n: nat, useWatermark: bool)
    requires cfg.blockSize > 0
  {
    BlocksFor(cfg.blockSize, s.computed + n) <= NumFree(p) - (if useWatermark then cfg.watermarkBlocks else 0)
  }

  /** Bring a sequence's blocks back; the copies are (host block, GPU block). */
  function SwapIn(p: Pool, s: Seq): (Pool, Seq, seq<(Block, Block)>) {
    var (q, blocks) := Grow(p, |s.cpuTable|);
    var s' := s.(table := s.table + blocks, cpuTable := [], registered := 0);
    GrowLength(p, |s.cpuTable|);
    (q.(cpuFree := q.cpuFree + s.cpuTable), s', Zip(s.cpuTable, blocks))
  }

  lemma {:induction false} GrowLength(p: Pool, k: int)
    ensures |Grow(p, k).1| == if k <= 0 then 0 else k
    decreases k
  {
    if k > 0 {
      GrowLength(TakeFree(p).0, k - 1);
    }
  }

  function FreeCpu(p: Pool, s: Seq): (Pool, Seq) {
    (p.(cpuFree := p.cpuFree + s.cpuTable), s.(cpuTable := []))
  }

  function MaxCached(cfg: Config, s: Seq): int
    requires cfg.blockSize > 0
  {
    (NumTokens(s) - 1) / cfg.blockSize
  }

  /** The longest cached prefix of a request, and the request with its hashes memoised. */
  function CachedPrefix(cfg: Config, p: Pool, s: Seq): (Seq, seq<Block>)
    requires cfg.blockSize > 0
  {
    if !cfg.prefixCaching || NumTokens(s) == 0 then (s, [])
    else
      var k := MaxCached(cfg, s);
      var hashes := ExtendHashes(cfg.blockSize, s.gen.tokens, s.hashes, k);
      (s.(hashes := hashes), Hits(p, hashes[..Min(k, |hashes|)]))
  }

  predicate CanAllocate(cfg: Config, p: Pool, n: nat, cached: seq<Block>, useWatermark: bool)
    requires cfg.blockSize > 0
  {
    var needed := BlocksFor(cfg.blockSize, |cached| * cfg.blockSize + n) - |cached|;
    var available := NumFree(p) - Pinned(p, cached) - (if useWatermark then cfg.watermarkBlocks else 0);
    needed <= available
  }

  function Allocate(cfg: Config, p: Pool, s: Seq, n: nat, cached: seq<Block>): (Pool, Seq)
    requires cfg.blockSize > 0
  {
    AppendSlots(cfg, PinAll(p, cached),
                s.(table := cached, computed := |cached| * cfg.blockSize, registered := |cached|), n)
  }

  /** Publish the blocks of s that have become full. */
  function CacheFullBlocks(cfg: Config, p: Pool, s: Seq): (Pool, Seq)
    requires cfg.blockSize > 0
  {
    var full := s.computed / cfg.blockSize;
    if !cfg.prefixCaching || full <= s.registered then (p, s)
    else
      var hashes := ExtendHashes(cfg.blockSize, s.gen.tokens, s.hashes, full);
      (Publish(p, s.table, hashes, s.registered, full), s.(hashes := hashes, registered := full))
  }

  // --- leaving and being preempted ---------------------------------------------------------------------

  function FailureOutput(s: Seq): Output {
    Output(s.id, [], "", true, Some(Error), s.gen.promptLen, NumOutput(s.gen))
  }

  /** A request too large for the whole pool leaves with an error. */
  function Fail(m: Mid, s: Seq): Mid {
    var (p1, s1) := FreeSeq(m.pool, s);
    var (p2, s2) := FreeCpu(p1, s1);
    m.(pool := p2, retired := m.retired + [s2.(status := Finished, reason := Some(Error))],
       outputs := m.outputs + [FailureOutput(s)])
  }

  /** Preempt a sequence already taken off the running list. */
  function Preempt(cfg: Config, m: Mid, s: Seq): Mid {
    var v := s.(status := Preempted);
    if cfg.swap && CanSwapOut(m.pool, v) then
      var (q, v', copies) := SwapOut(m.pool, v);
      m.(pool := q, swapped := [v'] + m.swapped, swapOut := m.swapOut + copies, numPreempted := m.numPreempted + 1)
    else
      var (q, v') := FreeSeq(m.pool, v);
      m.(pool := q, preempted := [v'.(computed := 0)] + m.preempted, numPreempted := m.numPreempted + 1)
  }

  // --- planning one step ---------------------------------------------------------------------------------

  function CountDecodes(running: seq<Seq>): nat {
    if running == [] then 0
    else CountDecodes(running[1..]) + (if Uncomputed(running[0]) == 1 then 1 else 0)
  }

  function PlanFrom(running: seq<Seq>, left: int): seq<Item> {
    if running == [] then []
    else if Uncomputed(running[0]) == 1 then [Item(running[0], 1)] + PlanFrom(running[1..], left)
    else
      var n := Min(Uncomputed(running[0]), left);
      [Item(running[0], if n < 0 then 0 else n)] + PlanFrom(running[1..], left - n)
  }

  /** The planned numbers as they are computed, with nothing to stop them from going negative. */
  function RawPlan(running: seq<Seq>, left: int): seq<int> {
    if running == [] then []
    else
      var n := if Uncomputed(running[0]) == 1 then 1 else Min(Uncomputed(running[0]), left);
      [n] + RawPlan(running[1..], if Uncomputed(running[0]) == 1 then left else left - n)
  }

  /** No planned number is negative. */
  predicate PlanSound(cfg: Config, running: seq<Seq>) {
    var raw := RawPlan(running, cfg.maxBatchTokens - CountDecodes(running));
    cfg.chunked ==> forall i :: 0 <= i < |raw| ==> raw[i] >= 0
  }

  lemma {:induction false} RawPlanIsPlan(running: seq<Seq>, left: int)
    requires forall i :: 0 <= i < |RawPlan(running, left)| ==> RawPlan(running, left)[i] >= 0
    ensures |RawPlan(running, left)| == |PlanFrom(running, left)| == |running|
    ensures forall i :: 0 <= i < |running| ==>
      PlanFrom(running, left)[i].s == running[i] && PlanFrom(running, left)[i].n == RawPlan(running, left)[i]
    decreases |running|
  {
    if running != [] {
      var raw := RawPlan(running, left);
      var left' := if Uncomputed(running[0]) == 1 then left else left - raw[0];
      forall i | 0 <= i < |RawPlan(running[1..], left')| ensures RawPlan(running[1..], left')[i] >= 0 {
        assert raw[i + 1] == RawPlan(running[1..], left')[i];
      }
      assert raw[0] >= 0;
      RawPlanIsPlan(running[1..], left');
    }
  }

  function Plan(cfg: Config, running: seq<Seq>): seq<Item> {
    if cfg.chunked then PlanFrom(running, cfg.maxBatchTokens - CountDecodes(running))
    else seq(|running|, i requires 0 <= i < |running| => Item(running[i], 1))
  }

  // The single decisions a step is made of.

  /** Leave the oldest unvisited sequence out of this step. */
  function SkipHead(m: Mid): Mid
    requires m.todo != []
  {
    m.(items := m.items + [Item(m.todo[0].s, 0)], todo := m.todo[1..])
  }

  /** Give the oldest unvisited sequence room for its planned tokens. */
  function AppendHead(cfg: Config, m: Mid): Mid
    requires cfg.blockSize > 0 && m.todo != []
  {
    var Item(s, n) := m.todo[0];
    var (q, s') := AppendSlots(cfg, m.pool, s, n);
    m.(pool := q, items := m.items + [Item(s', n)], todo := m.todo[1..])
  }

  function PreemptNewest(cfg: Config, m: Mid): Mid
    requires m.todo != []
  {
    var last := |m.todo| - 1;
    Preempt(cfg, m.(todo := m.todo[..last]), m.todo[last].s)
  }

  function FailHead(m: Mid): Mid
    requires m.todo != []
  {
    Fail(m.(todo := m.todo[1..]), m.todo[0].s)
  }

  function FailSwapped(m: Mid): Mid
    requires m.swapped != []
  {
    Fail(m.(swapped := m.swapped[1..]), m.swapped[0])
  }

  function SwapInOne(cfg: Config, m: Mid, n: nat): Mid
    requires cfg.blockSize > 0 && m.swapped != []
  {
    var (p1, s1, copies) := SwapIn(m.pool, m.swapped[0]);
    var (p2, s2) := AppendSlots(cfg, p1, s1, n);
    m.(pool := p2, swapped := m.swapped[1..], swapIn := m.swapIn + copies,
       items := m.items + [Item(s2.(status := Running), n)])
  }

  /** The next request to admit: recompute victims first, then the waiting queue's head. */
  function NextUp(m: Mid): Option<Seq> {
    if m.preempted != [] then Some(m.preempted[0])
    else if m.waiting != [] then Some(m.waiting[0])
    else None
  }

  function PopNextUp(m: Mid): Mid {
    if m.preempted != [] then m.(preempted := m.preempted[1..])
    else if m.waiting != [] then m.(waiting := m.waiting[1..])
    else m
  }

  function FailNext(m: Mid): Mid
    requires NextUp(m).Some?
  {
    Fail(PopNextUp(m), NextUp(m).value)
  }

  /** Memoising its hashes is the only thing a lookup changes in a request left waiting. */
  function NoteNext(m: Mid, s: Seq): Mid {
    if m.preempted != [] then m.(preempted := m.preempted[0 := s])
    else if m.waiting != [] then m.(waiting := m.waiting[0 := s])
    else m
  }

  function AdmitOne(cfg: Config, m: Mid, s: Seq, n: nat, cached: seq<Block>): Mid
    requires cfg.blockSize > 0
  {
    var (q, s') := Allocate(cfg, m.pool, s, n, cached);
    PopNextUp(m).(pool := q, items := m.items + [Item(s'.(status := Running), n)])
  }

  /** See to the running sequences in order of age; while the pool has no room for one, the youngest of
      those not seen to yet is preempted. */
  function RunLoop(cfg: Config, m: Mid): Mid
    requires cfg.blockSize > 0
    decreases |m.todo|
  {
    if m.todo == [] then m
    else if m.todo[0].n == 0 then RunLoop(cfg, SkipHead(m))
    else if CanAppend(cfg, m.pool, m.todo[0].s, m.todo[0].n) then RunLoop(cfg, AppendHead(cfg, m))
    else if |m.todo| > 1 then RunLoop(cfg, PreemptNewest(cfg, m))
    else if m.items == [] then FailHead(m)
    else PreemptNewest(cfg, m)
  }

  function ScheduleRunning(cfg: Config, m: Mid): Mid
    requires cfg.blockSize > 0
  {
    RunLoop(cfg, m.(items := [], todo := Plan(cfg, Seqs(m.items))))
  }

  function SwapInTokens(s: Seq, budget: Option<int>): int {
    match budget case None => Uncomputed(s) case Some(b) => Min(Uncomputed(s), b)
  }

  function Spend(budget: Option<int>, n: int): Option<int> {
    match budget case None => None case Some(b) => Some(b - n)
  }

  function SwapInLoop(cfg: Config, m: Mid, budget: Option<int>): Mid
    requires cfg.blockSize > 0
    decreases |m.swapped|
  {
    if m.swapped == [] || |m.items| >= cfg.maxNumSeqs then m
    else
      var n := SwapInTokens(m.swapped[0], budget);
      if n <= 0 then m
      else if CanSwapIn(cfg, m.pool, m.swapped[0], n, m.items != []) then
        SwapInLoop(cfg, SwapInOne(cfg, m, n), Spend(budget, n))
      else if m.items == [] then SwapInLoop(cfg, FailSwapped(m), budget)
      else m
  }

  function AdmitTokens(cfg: Config, s: Seq, cached: seq<Block>, budget: int): int {
    var remaining := NumTokens(s) - |cached| * cfg.blockSize;
    if cfg.chunked then Min(remaining, budget) else remaining
  }

  predicate Admissible(cfg: Config, m: Mid, s: Seq, cached: seq<Block>, budget: int)
    requires cfg.blockSize > 0
  {
    var n := AdmitTokens(cfg, s, cached, budget);
    0 < n <= budget && CanAllocate(cfg, m.pool, n, cached, m.items != [])
  }

  function AdmitLoop(cfg: Config, m: Mid, budget: int): Mid
    requires cfg.blockSize > 0
    decreases |m.preempted| + |m.waiting|
  {
    if budget <= 0 || |m.items| >= cfg.maxNumSeqs || NextUp(m).None? then m
    else if BlocksFor(cfg.blockSize, NumTokens(NextUp(m).value)) > cfg.numBlocks then
      AdmitLoop(cfg, FailNext(m), budget)
    else
      var (s, cached) := CachedPrefix(cfg, m.pool, NextUp(m).value);
      if Admissible(cfg, m, s, cached, budget) then
        var n := AdmitTokens(cfg, s, cached, budget);
        AdmitLoop(cfg, AdmitOne(cfg, m, s, n, cached), budget - n)
      else NoteNext(m, s)
  }

  function SchedulePrefillPriority(cfg: Config, m: Mid): Mid
    requires cfg.blockSize > 0
  {
    var m1 := if m.swapped == [] then AdmitLoop(cfg, m, cfg.maxBatchTokens) else m;
    if Batch(m1.items) != [] then m1
    else
      var m2 := ScheduleRunning(cfg, m1);
      if m2.numPreempted == 0 then SwapInLoop(cfg, m2, None) else m2
  }

  function ScheduleChunked(cfg: Config, m: Mid): Mid
    requires cfg.blockSize > 0
  {
    var m1 := ScheduleRunning(cfg, m);
    if m1.numPreempted > 0 then m1
    else
      var m2 := SwapInLoop(cfg, m1, Some(cfg.maxBatchTokens - BatchTokens(m1.items)));
      if m2.swapped == [] then AdmitLoop(cfg, m2, cfg.maxBatchTokens - BatchTokens(m2.items)) else m2
  }

  function Schedule(cfg: Config, st: State): Mid
    requires cfg.blockSize > 0
  {
    if cfg.chunked then ScheduleChunked(cfg, Begin(st)) else SchedulePrefillPriority(cfg, Begin(st))
  }

  predicate BatchEmpty(m: Mid) {
    Batch(m.items) == [] && m.swapOut == [] && m.swapIn == []
  }

  // --- after the forward pass -----------------------------------------------------------------------------

  predicate Samples(it: Item) {
    it.n > 0 && it.s.computed + it.n == NumTokens(it.s)
  }

  function NumSampled(items: seq<Item>): nat {
    if items == [] then 0 else (if Samples(items[0]) then 1 else 0) + NumSampled(items[1..])
  }

  datatype Updated = Updated(pool: Pool, running: seq<Seq>, retired: seq<Seq>, outputs: seq<Output>)

  /** One sampled token: the request continues or finishes. */
  function TakeToken(cfg: Config, p: Pool, s: Seq, t: Token): Updated {
    var (gen, text, finish) := AppendToken(cfg.serving, s.params, s.gen, t);
    var s1 := s.(gen := gen);
    var out := Output(s.id, [t], text, finish.Some?, finish, gen.promptLen, NumOutput(gen));
    if finish.None? then Updated(p, [s1], [], [out])
    else
      var (q, s2) := FreeSeq(p, s1.(status := Finished, reason := finish));
      Updated(q, [], [s2], [out])
  }

  function Advance(cfg: Config, p: Pool, it: Item): (Pool, Seq)
    requires cfg.blockSize > 0
  {
    CacheFullBlocks(cfg, p, it.s.(computed := it.s.computed + it.n))
  }

  function UpdateItem(cfg: Config, p: Pool, it: Item, sampled: seq<Token>): Updated
    requires cfg.blockSize > 0
  {
    if it.n == 0 then Updated(p, [it.s], [], [])
    else
      var (p1, s1) := Advance(cfg, p, it);
      if !Samples(it) || sampled == [] then Updated(p1, [s1], [], []) else TakeToken(cfg, p1, s1, sampled[0])
  }

  function UpdateItems(cfg: Config, p: Pool, items: seq<Item>, sampled: seq<Token>): Updated
    requires cfg.blockSize > 0
    decreases |items|
  {
    if items == [] then Updated(p, [], [], [])
    else
      var u := UpdateItem(cfg, p, items[0], sampled);
      var rest := if Samples(items[0]) && sampled != [] then sampled[1..] else sampled;
      var v := UpdateItems(cfg, u.pool, items[1..], rest);
      Updated(v.pool, u.running + v.running, u.retired + v.retired, u.outputs + v.outputs)
  }

  function Update(cfg: Config, m: Mid, sampled: seq<Token>): (State, seq<Output>)
    requires cfg.blockSize > 0
  {
    var u := UpdateItems(cfg, m.pool, m.items, sampled);
    (State(u.pool, u.running, m.swapped, m.preempted, m.waiting, m.retired + u.retired), m.outputs + u.outputs)
  }

  // --- requests arriving and leaving ------------------------------------------------------------------------

  predicate HasWork(st: State) {
    st.running != [] || st.swapped != [] || st.preempted != [] || st.waiting != []
  }

  /** A request's own priority; the prompt length unless it has one. */
  function PriorityOf(s: Seq): real {
    match s.priority case Some(p) => p case None => s.gen.promptLen as real
  }

  /** The admission policies' static keys; smaller goes first. */
  function Key(cfg: Config, s: Seq): (real, real) {
    var promptLen := s.gen.promptLen as real;
    match cfg.policy
    case Fcfs => (s.arrival, 0.0)
    case Sjf => (promptLen, s.arrival)
    case Priority => (PriorityOf(s) + cfg.agingRate * s.arrival, s.arrival)
  }

  predicate KeyLess(a: (real, real), b: (real, real)) {
    a.0 < b.0 || (a.0 == b.0 && a.1 < b.1)
  }

  /** Enter the waiting queue behind everything whose key is no larger. */
  function Enqueue(cfg: Config, waiting: seq<Seq>, s: Seq): seq<Seq> {
    if waiting == [] || KeyLess(Key(cfg, s), Key(cfg, waiting[0])) then [s] + waiting
    else [waiting[0]] + Enqueue(cfg, waiting[1..], s)
  }

  /** Sampling parameters that can be made: at least one token, no empty stop string. */
  predicate ValidParams(params: Params) {
    params.maxTokens >= 1 && forall k :: 0 <= k < |params.stop| ==> params.stop[k] != ""
  }

  /** What request validation accepts. */
  predicate Acceptable(cfg: Config, prompt: seq<Token>, params: Params) {
    && ValidParams(params) && prompt != [] && |prompt| + params.maxTokens <= cfg.serving.maxModelLen
    && forall i :: 0 <= i < |prompt| ==> 0 <= prompt[i] < cfg.vocabSize
  }

  function DropId(seqs: seq<Seq>, id: int): seq<Seq> {
    if seqs == [] then [] else if seqs[0].id == id then seqs[1..] else [seqs[0]] + DropId(seqs[1..], id)
  }

  function FindId(seqs: seq<Seq>, id: int): Option<Seq> {
    if seqs == [] then None else if seqs[0].id == id then Some(seqs[0]) else FindId(seqs[1..], id)
  }
}
