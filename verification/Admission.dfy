// The waiting queue: smallest key first, ties in arrival order, in every reachable state; what that
// means for aged priorities, and when a late request cannot overtake.
module Admission {
  import opened Basics
  import opened Paging
  import opened BlockPool
  import opened Transformer
  import opened Streaming
  import opened Scheduling
  import opened Stepping
  import opened EngineRun
  import opened Modes
  import Census
  import Order

  ghost predicate Sorted(cfg: Config, w: seq<Seq>) {
    forall i, j :: 0 <= i < j < |w| ==> !KeyLess(Key(cfg, w[j]), Key(cfg, w[i]))
  }

  lemma {:induction false} KeyOrder(a: (real, real), b: (real, real), c: (real, real))
    ensures !KeyLess(a, a)
    ensures KeyLess(a, b) && KeyLess(b, c) ==> KeyLess(a, c)
    ensures KeyLess(a, b) && !KeyLess(c, b) ==> KeyLess(a, c)
    ensures KeyLess(a, b) || KeyLess(b, a) || a == b
  {
  }

  /** A new request goes in behind everything whose key is no larger and ahead of everything larger:
      ties stay in push order. */
  lemma {:induction false} EnqueuePlace(cfg: Config, w: seq<Seq>, s: Seq) returns (k: nat)
    requires Sorted(cfg, w)
    ensures k <= |w| && Enqueue(cfg, w, s) == w[..k] + [s] + w[k..]
    ensures forall i :: 0 <= i < k ==> !KeyLess(Key(cfg, s), Key(cfg, w[i]))
    ensures forall i :: k <= i < |w| ==> KeyLess(Key(cfg, s), Key(cfg, w[i]))
    decreases |w|
  {
    hide Key;
    if w == [] {
      k := 0;
    } else if KeyLess(Key(cfg, s), Key(cfg, w[0])) {
      k := 0;
      forall i | 0 <= i < |w| ensures KeyLess(Key(cfg, s), Key(cfg, w[i])) {
        if i > 0 {
          KeyOrder(Key(cfg, s), Key(cfg, w[0]), Key(cfg, w[i]));
        }
      }
    } else {
      var j := EnqueuePlace(cfg, w[1..], s);
      k := j + 1;
      hide KeyLess;
      assert w[1..][..j] == w[1..k] && w[1..][j..] == w[k..];
      assert w[..k] == [w[0]] + w[1..k];
    }
  }

  lemma {:induction false} EnqueueSorted(cfg: Config, w: seq<Seq>, s: Seq)
    requires Sorted(cfg, w)
    ensures Sorted(cfg, Enqueue(cfg, w, s))
  {
    hide Key, Enqueue;
    var k := EnqueuePlace(cfg, w, s);
    var q := Enqueue(cfg, w, s);
    forall i, j | 0 <= i < j < |q| ensures !KeyLess(Key(cfg, q[j]), Key(cfg, q[i])) {
      var a, b := if i < k then w[i] else if i == k then s else w[i - 1], if j < k then w[j] else if j == k then s else w[j - 1];
      assert q[i] == a && q[j] == b;
    }
  }

  // --- every reachable queue is in order -----------------------------------------------------------------------------

  /** w' is w without its first requests, their keys unchanged. */
  ghost predicate LaterOf(cfg: Config, w: seq<Seq>, w': seq<Seq>) {
    |w'| <= |w| && forall i :: 0 <= i < |w'| ==> Key(cfg, w'[i]) == Key(cfg, w[|w| - |w'| + i])
  }

  lemma {:induction false} LaterSorted(cfg: Config, w: seq<Seq>, w': seq<Seq>)
    requires Sorted(cfg, w) && LaterOf(cfg, w, w')
    ensures Sorted(cfg, w')
  {
    hide Key, KeyLess;
  }

  lemma {:induction false} LaterThen(cfg: Config, a: seq<Seq>, b: seq<Seq>, c: seq<Seq>)
    requires LaterOf(cfg, a, b) && LaterOf(cfg, b, c)
    ensures LaterOf(cfg, a, c)
  {
    hide Key;
    var j := |b| - |c|;
    assert forall i :: 0 <= i < |c| ==> Key(cfg, c[i]) == Key(cfg, b[j + i]);
  }

  lemma {:induction false} PopLater(cfg: Config, m: Mid)
    requires NextUp(m).Some?
    ensures LaterOf(cfg, m.waiting, PopNextUp(m).waiting)
    ensures |PopNextUp(m).preempted| + |PopNextUp(m).waiting| < |m.preempted| + |m.waiting|
  {
    hide Key;
  }

  lemma {:induction false} NoteLater(cfg: Config, m: Mid, s: Seq)
    requires NextUp(m).Some? && Key(cfg, s) == Key(cfg, NextUp(m).value)
    ensures LaterOf(cfg, m.waiting, NoteNext(m, s).waiting)
  {
    hide Key;
  }

  lemma {:induction false} AdmittedQueues(cfg: Config, m: Mid, s: Seq, n: nat, cached: seq<Block>)
    requires cfg.blockSize > 0
    ensures AdmitOne(cfg, m, s, n, cached).waiting == PopNextUp(m).waiting
    ensures AdmitOne(cfg, m, s, n, cached).preempted == PopNextUp(m).preempted
  {
    hide Allocate;
  }

  /** Admission takes requests off the front only. */
  lemma {:induction false} AdmitLoopLater(cfg: Config, m: Mid, budget: int)
    requires cfg.blockSize > 0
    ensures LaterOf(cfg, m.waiting, AdmitLoop(cfg, m, budget).waiting)
    decreases |m.preempted| + |m.waiting|
  {
    hide Admissible, CachedPrefix, AdmitTokens, BlocksFor, Fail, AdmitOne, NoteNext, PopNextUp, LaterOf, Key;
    SameLater(cfg, m.waiting);
    if budget > 0 && |m.items| < cfg.maxNumSeqs && NextUp(m).Some? {
      PopLater(cfg, m);
      if BlocksFor(cfg.blockSize, NumTokens(NextUp(m).value)) > cfg.numBlocks {
        FailShape(PopNextUp(m), NextUp(m).value);
        AdmitLoopLater(cfg, FailNext(m), budget);
        LaterThen(cfg, m.waiting, PopNextUp(m).waiting, AdmitLoop(cfg, m, budget).waiting);
      } else {
        var (s, cached) := CachedPrefix(cfg, m.pool, NextUp(m).value);
        CachedPrefixKey(cfg, m.pool, NextUp(m).value);
        if Admissible(cfg, m, s, cached, budget) {
          var n := AdmitTokens(cfg, s, cached, budget);
          Census.AdmissibleTokens(cfg, m, s, cached, budget);
          AdmittedQueues(cfg, m, s, n, cached);
          AdmitLoopLater(cfg, AdmitOne(cfg, m, s, n, cached), budget - n);
          LaterThen(cfg, m.waiting, PopNextUp(m).waiting, AdmitLoop(cfg, m, budget).waiting);
        } else {
          NoteLater(cfg, m, s);
        }
      }
    }
  }

  lemma {:induction false} CachedPrefixKey(cfg: Config, p: Pool, s: Seq)
    requires cfg.blockSize > 0
    ensures Key(cfg, CachedPrefix(cfg, p, s).0) == Key(cfg, s)
  {
    SameKey(cfg, s, CachedPrefix(cfg, p, s).0);
  }

  lemma {:induction false} SameKey(cfg: Config, s: Seq, t: Seq)
    requires t.gen == s.gen && t.arrival == s.arrival && t.priority == s.priority
    ensures Key(cfg, t) == Key(cfg, s)
  {
    assert PriorityOf(t) == PriorityOf(s);
    assert Key(cfg, t).0 == Key(cfg, s).0;
    assert Key(cfg, t).1 == Key(cfg, s).1;
  }

  lemma {:induction false} SwapInKeepsWaiting(cfg: Config, m: Mid, budget: Option<int>)
    requires cfg.blockSize > 0
    ensures SwapInLoop(cfg, m, budget).waiting == m.waiting
    decreases |m.swapped|
  {
    hide CanSwapIn, SwapInTokens, Fail, SwapIn, AppendSlots;
    if m.swapped != [] && |m.items| < cfg.maxNumSeqs {
      var n := SwapInTokens(m.swapped[0], budget);
      if n > 0 {
        if CanSwapIn(cfg, m.pool, m.swapped[0], n, m.items != []) {
          SwapInKeepsWaiting(cfg, SwapInOne(cfg, m, n), Spend(budget, n));
        } else if m.items == [] {
          FailShape(m.(swapped := m.swapped[1..]), m.swapped[0]);
          SwapInKeepsWaiting(cfg, FailSwapped(m), budget);
        }
      }
    }
  }

  lemma {:induction false} RunningKeepsWaiting(cfg: Config, m: Mid)
    requires cfg.blockSize > 0
    ensures ScheduleRunning(cfg, m).waiting == m.waiting
  {
    Order.RunLoopVictims(cfg, m.(items := [], todo := Plan(cfg, Seqs(m.items))));
  }

  lemma {:induction false} SameLater(cfg: Config, w: seq<Seq>)
    ensures LaterOf(cfg, w, w)
  {
  }

  lemma {:induction false} ScheduleLater(cfg: Config, st: State)
    requires cfg.blockSize > 0
    ensures LaterOf(cfg, st.waiting, Schedule(cfg, st).waiting)
  {
    hide AdmitLoop, SwapInLoop, ScheduleRunning, Batch, BatchTokens, LaterOf;
    var m := Begin(st);
    SameLater(cfg, st.waiting);
    if cfg.chunked {
      RunningKeepsWaiting(cfg, m);
      var m1 := ScheduleRunning(cfg, m);
      var b1 := Some(cfg.maxBatchTokens - BatchTokens(m1.items));
      SwapInKeepsWaiting(cfg, m1, b1);
      var m2 := SwapInLoop(cfg, m1, b1);
      AdmitLoopLater(cfg, m2, cfg.maxBatchTokens - BatchTokens(m2.items));
    } else {
      AdmitLoopLater(cfg, m, cfg.maxBatchTokens);
      var m1 := if m.swapped == [] then AdmitLoop(cfg, m, cfg.maxBatchTokens) else m;
      RunningKeepsWaiting(cfg, m1);
      SwapInKeepsWaiting(cfg, ScheduleRunning(cfg, m1), None);
    }
  }

  lemma {:induction false} DropSorted(cfg: Config, w: seq<Seq>, id: int)
    requires Sorted(cfg, w)
    ensures Sorted(cfg, DropId(w, id))
  {
    hide Key, KeyLess;
    var k := DropAt(w, id);
  }

  /** In every state of every run the queue is in order. */
  lemma {:induction false} NextSorted(cfg: Config, model: Model, e: Engine, ev: Event)
    requires cfg.blockSize > 0 && Sorted(cfg, e.st.waiting)
    ensures Next(cfg, model, e, ev).Done? ==> Sorted(cfg, Next(cfg, model, e, ev).e.st.waiting)
  {
    hide Sorted, Schedule, RunBatch, UpdateItems, Batch, FindId, DropId;
    match ev
    case Add(id, prompt, params, arrival, priority) =>
      EnqueueSorted(cfg, e.st.waiting, NewSeq(cfg, id, prompt, params, arrival, priority));
    case Abort(id) => DropSorted(cfg, e.st.waiting, id);
    case Step =>
      ScheduleLater(cfg, e.st);
      LaterSorted(cfg, e.st.waiting, Schedule(cfg, e.st).waiting);
  }

  lemma {:induction false} RunSorted(cfg: Config, model: Model, e: Engine, events: seq<Event>)
    requires cfg.blockSize > 0 && Sorted(cfg, e.st.waiting)
    ensures Run(cfg, model, e, events).Done? ==> Sorted(cfg, Run(cfg, model, e, events).e.st.waiting)
    decreases |events|
  {
    hide Sorted, Next;
    if events != [] {
      NextSorted(cfg, model, e, events[0]);
      var r := Next(cfg, model, e, events[0]);
      if r.Done? {
        RunSorted(cfg, model, r.e, events[1..]);
      }
    }
  }

  // --- what the order means --------------------------------------------------------------------------------------------

  /** A waiting request's priority improves by the aging rate for every second waited. */
  function Effective(cfg: Config, s: Seq, now: real): real {
    PriorityOf(s) - cfg.agingRate * (now - s.arrival)
  }

  lemma {:induction false} EffectiveKey(cfg: Config, s: Seq, now: real)
    requires cfg.policy == Priority
    ensures Effective(cfg, s, now) == Key(cfg, s).0 - cfg.agingRate * now
  {
  }

  /** At every moment the head of the queue has the best effective priority of all that wait, although
      the queue is ordered by keys that never change. */
  lemma {:induction false} HeadIsBest(cfg: Config, w: seq<Seq>, i: nat, now: real)
    requires cfg.policy == Priority && Sorted(cfg, w) && i < |w|
    ensures Effective(cfg, w[0], now) <= Effective(cfg, w[i], now)
  {
    hide Key, Effective;
    EffectiveKey(cfg, w[0], now);
    EffectiveKey(cfg, w[i], now);
    if i > 0 {
      assert !KeyLess(Key(cfg, w[i]), Key(cfg, w[0]));
    }
  }

  /** Who goes first: whoever came first; the shortest prompt; or, without aging, the smallest priority, for which a
      request that names none has its prompt's length. Ties go by arrival. */
  ghost predicate GoesFirst(cfg: Config, a: Seq, b: Seq) {
    var (m, n) := (a.gen.promptLen, b.gen.promptLen);
    var soon := a.arrival <= b.arrival;
    match cfg.policy
    case Fcfs => soon
    case Sjf => m < n || (m == n && soon)
    case Priority => cfg.agingRate == 0.0 ==>
      match (a.priority, b.priority)
      case (None, None) => m < n || (m == n && soon)
      case (Some(x), Some(y)) => x < y || (x == y && soon)
      case (Some(x), None) => x < n as real || (x == n as real && soon)
      case (None, Some(y)) => m as real < y || (m as real == y && soon)
  }

  lemma {:induction false} HeadIsFirst(cfg: Config, w: seq<Seq>, i: nat)
    requires Sorted(cfg, w) && i < |w|
    ensures GoesFirst(cfg, w[0], w[i])
  {
    if i > 0 {
      assert !KeyLess(Key(cfg, w[i]), Key(cfg, w[0]));
    }
  }

  /** With aging, a request that arrives late enough never overtakes a waiting one: it goes in behind. */
  lemma {:induction false} NoOvertaking(cfg: Config, w: seq<Seq>, r: nat, s: Seq)
    requires cfg.policy == Priority && Sorted(cfg, w) && r < |w| && cfg.agingRate > 0.0
    requires s.arrival - w[r].arrival > (PriorityOf(w[r]) - PriorityOf(s)) / cfg.agingRate
    ensures r < |Enqueue(cfg, w, s)| && Enqueue(cfg, w, s)[r] == w[r]
    ensures exists k :: r < k < |Enqueue(cfg, w, s)| && Enqueue(cfg, w, s)[k] == s
  {
    LateKey(cfg, w[r], s);
    hide Key, Enqueue;
    var k := EnqueuePlace(cfg, w, s);
    KeyOrder(Key(cfg, w[r]), Key(cfg, s), Key(cfg, w[r]));
    assert k > r;
    assert Enqueue(cfg, w, s)[k] == s;
  }

  lemma {:induction false} LateKey(cfg: Config, r: Seq, s: Seq)
    requires cfg.policy == Priority && cfg.agingRate > 0.0
    requires s.arrival - r.arrival > (PriorityOf(r) - PriorityOf(s)) / cfg.agingRate
    ensures KeyLess(Key(cfg, r), Key(cfg, s))
  {
    var a, gap, d := cfg.agingRate, PriorityOf(r) - PriorityOf(s), s.arrival - r.arrival;
    Scaled(d, gap, a);
    assert a * d == a * s.arrival - a * r.arrival;
  }

  lemma {:induction false} Scaled(d: real, gap: real, a: real)
    requires a > 0.0 && d > gap / a
    ensures a * d > gap
  {
    assert (d - gap / a) * a > 0.0;
    assert (d - gap / a) * a == d * a - gap / a * a;
    assert gap / a * a == gap;
  }
}
