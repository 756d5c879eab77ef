// The waiting queue as the scheduler runs it: a heap whose removed entries stay until they surface, and
// a map of the requests that are really waiting. It behaves as the plain queue on values.
module Queueing {
  import opened Basics
  import opened Streaming
  import opened Scheduling
  import opened Sequences
  import Admission

  /** Entries are compared by key, then by push order. */
  datatype Entry = Entry(key: (real, real), count: nat, s: Sequence)

  ghost predicate EntryLess(a: Entry, b: Entry) {
    KeyLess(a.key, b.key) || (a.key == b.key && a.count < b.count)
  }

  /** The key of a request, from fields that never change. */
  function KeyOf(cfg: Config, s: Sequence): (real, real) {
    var promptLen := |s.promptTokenIds| as real;
    match cfg.policy
    case Fcfs => (s.arrivalTime, 0.0)
    case Sjf => (promptLen, s.arrivalTime)
    case Priority => ((match s.priority case Some(p) => p case None => promptLen) + cfg.agingRate * s.arrivalTime, s.arrivalTime)
  }

  /** A heap keeps only its least entry in front; the model keeps all entries in order. */
  function HeapPush(heap: seq<Entry>, e: Entry): seq<Entry> {
    if heap == [] || KeyLess(e.key, heap[0].key) then [e] + heap else [heap[0]] + HeapPush(heap[1..], e)
  }

  predicate IsLive(live: map<int, Sequence>, s: Sequence) {
    s.id in live && live[s.id] == s
  }

  /** The requests of a heap that are still waiting, in heap order. */
  function LiveOf(heap: seq<Entry>, live: map<int, Sequence>): (r: seq<Sequence>)
    ensures forall s :: s in r ==> IsLive(live, s) && exists i :: 0 <= i < |heap| && heap[i].s == s
  {
    if heap == [] then []
    else (if IsLive(live, heap[0].s) then [heap[0].s] else []) + LiveOf(heap[1..], live)
  }

  ghost predicate InOrder(heap: seq<Entry>) {
    forall i, j :: 0 <= i < j < |heap| ==> EntryLess(heap[i], heap[j])
  }

  ghost predicate NoTwice(heap: seq<Entry>) {
    forall i, j :: 0 <= i < j < |heap| ==> heap[i].s != heap[j].s
  }

  ghost predicate Holds(heap: seq<Entry>, s: Sequence) {
    exists i :: 0 <= i < |heap| && heap[i].s == s
  }

  ghost function Members(heap: seq<Entry>): set<Sequence> {
    set e | e in heap :: e.s
  }

  /** Insert a request into a list of requests as Enqueue inserts its value. */
  function EnqueueSeq(cfg: Config, q: seq<Sequence>, s: Sequence): seq<Sequence> {
    if q == [] || KeyLess(KeyOf(cfg, s), KeyOf(cfg, q[0])) then [s] + q else [q[0]] + EnqueueSeq(cfg, q[1..], s)
  }

  function DropSeq(q: seq<Sequence>, id: int): seq<Sequence> {
    if q == [] then [] else if q[0].id == id then q[1..] else [q[0]] + DropSeq(q[1..], id)
  }

  // --- the heap and the queue it stands for --------------------------------------------------------------------------

  /** Making another request live, or not, leaves the others as they are. */
  lemma {:induction false} LiveSame(heap: seq<Entry>, live: map<int, Sequence>, live': map<int, Sequence>)
    requires forall i :: 0 <= i < |heap| ==> (IsLive(live, heap[i].s) <==> IsLive(live', heap[i].s))
    ensures LiveOf(heap, live) == LiveOf(heap, live')
    decreases |heap|
  {
    hide IsLive;
    if heap != [] {
      forall i | 0 <= i < |heap[1..]| ensures IsLive(live, heap[1..][i].s) <==> IsLive(live', heap[1..][i].s) {
        assert heap[1..][i] == heap[i + 1];
      }
      LiveSame(heap[1..], live, live');
    }
  }

  lemma {:induction false} OrderedTail(heap: seq<Entry>)
    requires heap != [] && InOrder(heap)
    ensures InOrder(heap[1..]) && forall i :: 0 <= i < |heap[1..]| ==> EntryLess(heap[0], heap[1..][i])
  {
    hide EntryLess;
    forall i, j | 0 <= i < j < |heap[1..]| ensures EntryLess(heap[1..][i], heap[1..][j]) {
      assert heap[1..][i] == heap[i + 1] && heap[1..][j] == heap[j + 1];
    }
  }

  lemma {:induction false} PushMembers(heap: seq<Entry>, e: Entry)
    ensures |HeapPush(heap, e)| == |heap| + 1
    ensures forall x :: x in HeapPush(heap, e) <==> x == e || x in heap
    decreases |heap|
  {
    hide KeyLess;
    if heap != [] && !KeyLess(e.key, heap[0].key) {
      PushMembers(heap[1..], e);
      var rest := HeapPush(heap[1..], e);
      assert forall x :: x in [heap[0]] + rest <==> x == heap[0] || x in rest;
      assert forall x :: x in heap <==> x == heap[0] || x in heap[1..];
    }
  }

  /** A pushed entry is younger than all there, so it goes in behind its equals. */
  lemma {:induction false} PushInOrder(heap: seq<Entry>, e: Entry)
    requires InOrder(heap) && forall i :: 0 <= i < |heap| ==> heap[i].count < e.count
    ensures InOrder(HeapPush(heap, e))
    decreases |heap|
  {
    if heap != [] {
      if KeyLess(e.key, heap[0].key) {
        assert EntryLess(e, heap[0]);
        forall i | 0 <= i < |heap| ensures EntryLess(e, heap[i]) {
          if i > 0 {
            assert EntryLess(heap[0], heap[i]);
          }
        }
      } else {
        OrderedTail(heap);
        PushInOrder(heap[1..], e);
        PushMembers(heap[1..], e);
        var rest := HeapPush(heap[1..], e);
        FrontOfRest(heap, e, rest);
      }
    }
  }

  lemma {:induction false} FrontOfRest(heap: seq<Entry>, e: Entry, rest: seq<Entry>)
    requires heap != [] && !KeyLess(e.key, heap[0].key) && heap[0].count < e.count && InOrder(rest)
    requires forall i :: 0 <= i < |heap[1..]| ==> EntryLess(heap[0], heap[1..][i])
    requires forall x :: x in rest <==> x == e || x in heap[1..]
    ensures InOrder([heap[0]] + rest)
  {
    var all := [heap[0]] + rest;
    Admission.KeyOrder(heap[0].key, e.key, e.key);
    assert EntryLess(heap[0], e);
    hide EntryLess;
    forall i, j | 0 <= i < j < |all| ensures EntryLess(all[i], all[j]) {
      if i == 0 {
        assert all[j] in rest;
        if all[j] != e {
          var k :| 0 <= k < |heap[1..]| && heap[1..][k] == all[j];
        }
      } else {
        assert all[i] == rest[i - 1] && all[j] == rest[j - 1];
      }
    }
  }

  /** Pushing a live request inserts it into the queue at its place. */
  lemma {:induction false} PushEnqueues(cfg: Config, heap: seq<Entry>, live: map<int, Sequence>, e: Entry)
    requires InOrder(heap) && IsLive(live, e.s) && e.key == KeyOf(cfg, e.s)
    requires forall i :: 0 <= i < |heap| ==> heap[i].key == KeyOf(cfg, heap[i].s)
    ensures LiveOf(HeapPush(heap, e), live) == EnqueueSeq(cfg, LiveOf(heap, live), e.s)
    decreases |heap|
  {
    hide IsLive, KeyOf;
    if heap != [] {
      if KeyLess(e.key, heap[0].key) {
        var q := LiveOf(heap, live);
        assert ([e] + heap)[1..] == heap;
        if q != [] {
          assert q[0] in q;
          var i :| 0 <= i < |heap| && heap[i].s == q[0];
          if i > 0 {
            assert EntryLess(heap[0], heap[i]);
            Admission.KeyOrder(e.key, heap[0].key, heap[i].key);
          }
        }
      } else {
        OrderedTail(heap);
        var rest := HeapPush(heap[1..], e);
        assert ([heap[0]] + rest)[1..] == rest;
        forall i | 0 <= i < |heap[1..]| ensures heap[1..][i].key == KeyOf(cfg, heap[1..][i].s) {
          assert heap[1..][i] == heap[i + 1];
        }
        PushEnqueues(cfg, heap[1..], live, e);
        var q, q' := LiveOf(heap, live), LiveOf(heap[1..], live);
        if IsLive(live, heap[0].s) {
          assert q == [heap[0].s] + q' && q[1..] == q' && heap[0].key == KeyOf(cfg, heap[0].s);
        } else {
          assert q == q';
        }
        assert LiveOf([heap[0]] + rest, live) == (if IsLive(live, heap[0].s) then [heap[0].s] else []) + LiveOf(rest, live);
      }
    }
  }

  /** Taking one request out of the live ones drops it from the queue. */
  lemma {:induction false} RemoveDrops(heap: seq<Entry>, live: map<int, Sequence>, id: int)
    requires NoTwice(heap) && id in live && live[id].id == id && Holds(heap, live[id])
    requires forall s :: s in live.Keys ==> live[s].id == s
    ensures LiveOf(heap, live - {id}) == DropSeq(LiveOf(heap, live), id)
    decreases |heap|
  {
    var gone := live[id];
    var tail := heap[1..];
    assert forall i, j :: 0 <= i < j < |tail| ==> tail[i] == heap[i + 1] && tail[j] == heap[j + 1];
    if heap[0].s == gone {
      forall i | 0 <= i < |tail| ensures IsLive(live, tail[i].s) <==> IsLive(live - {id}, tail[i].s) {
        assert tail[i] == heap[i + 1] && heap[0].s != heap[i + 1].s;
      }
      LiveSame(tail, live, live - {id});
      var q := LiveOf(heap, live);
      assert q[1..] == LiveOf(tail, live);
    } else {
      var k :| 0 <= k < |heap| && heap[k].s == gone;
      assert tail[k - 1].s == gone;
      RemoveDrops(tail, live, id);
      var q := LiveOf(heap, live);
      assert IsLive(live - {id}, heap[0].s) <==> IsLive(live, heap[0].s);
      if IsLive(live, heap[0].s) {
        assert q == [heap[0].s] + LiveOf(tail, live) && q[1..] == LiveOf(tail, live) && q[0].id != id;
      } else {
        assert q == LiveOf(tail, live);
      }
    }
  }

  lemma {:induction false} LiveFound(heap: seq<Entry>, live: map<int, Sequence>, i: nat)
    requires i < |heap| && IsLive(live, heap[i].s)
    ensures heap[i].s in LiveOf(heap, live)
    decreases |heap|
  {
    hide IsLive;
    if i > 0 {
      assert heap[1..][i - 1] == heap[i];
      LiveFound(heap[1..], live, i - 1);
    }
  }

  class WaitingQueue {
    const cfg: Config
    var heap: seq<Entry>
    var counter: nat
    /** The requests really waiting, by id. An aborted one is no longer here, though its entry is still in the heap. */
    var live: map<int, Sequence>

    constructor (cfg: Config)
      ensures this.cfg == cfg && Valid() && Queue() == [] && heap == [] && live == map[]
    {
      this.cfg := cfg;
      heap, counter, live := [], 0, map[];
    }

    ghost predicate Valid()
      reads this
    {
      && InOrder(heap) && NoTwice(heap)
      && (forall i :: 0 <= i < |heap| ==> heap[i].count < counter && heap[i].key == KeyOf(cfg, heap[i].s))
      && (forall id :: id in live ==> live[id].id == id && Holds(heap, live[id]))
    }

    /** The waiting requests in the order they will be admitted. */
    ghost function Queue(): seq<Sequence>
      reads this
    {
      LiveOf(heap, live)
    }

    method Push(s: Sequence)
      requires Valid() && s.id !in live && !Holds(heap, s)
      modifies this
      ensures Valid() && Queue() == EnqueueSeq(cfg, old(Queue()), s)
      ensures live == old(live)[s.id := s] && heap == HeapPush(old(heap), Entry(KeyOf(cfg, s), old(counter), s))
    {
      hide KeyOf, EntryLess;
      var e := Entry(KeyOf(cfg, s), counter, s);
      ghost var live0, heap0 := live, heap;
      PushMembers(heap, e);
      PushInOrder(heap, e);
      heap := HeapPush(heap, e);
      counter := counter + 1;
      live := live[s.id := s];
      LiveSame(heap0, live0, live);
      PushEnqueues(cfg, heap0, live, e);
      PushKeeps(cfg, heap0, heap, live0, live, e);
    }

    static lemma {:induction false} PushKeeps(cfg: Config, heap: seq<Entry>, heap': seq<Entry>, live: map<int,
                                              Sequence>, live': map<int, Sequence>, e: Entry)
      requires heap' == HeapPush(heap, e) && InOrder(heap') && InOrder(heap) && NoTwice(heap) && !Holds(heap, e.s)
      requires live' == live[e.s.id := e.s] && e.key == KeyOf(cfg, e.s)
      requires forall i :: 0 <= i < |heap| ==> heap[i].count < e.count && heap[i].key == KeyOf(cfg, heap[i].s)
      requires forall id :: id in live ==> live[id].id == id && Holds(heap, live[id])
      ensures NoTwice(heap')
      ensures forall i :: 0 <= i < |heap'| ==> heap'[i].count < e.count + 1 && heap'[i].key == KeyOf(cfg, heap'[i].s)
      ensures forall id :: id in live' ==> live'[id].id == id && Holds(heap', live'[id])
    {
      PushMembers(heap, e);
      hide KeyOf, HeapPush;
      forall i | 0 <= i < |heap'| ensures heap'[i] == e || exists k :: 0 <= k < |heap| && heap[k] == heap'[i] {
        assert heap'[i] in heap';
      }
      forall i, j | 0 <= i < j < |heap'| ensures heap'[i].s != heap'[j].s {
        assert EntryLess(heap'[i], heap'[j]);
        assert heap'[i] != heap'[j];
      }
      forall id | id in live' ensures live'[id].id == id && Holds(heap', live'[id]) {
        if id == e.s.id {
          assert e in heap';
        } else {
          var k :| 0 <= k < |heap| && heap[k].s == live[id];
          assert heap[k] in heap';
          var j :| 0 <= j < |heap'| && heap'[j] == heap[k];
        }
      }
    }

    /** The next request, without taking it; removed entries that have surfaced are discarded. */
    method Peek() returns (s: Sequence?)
      requires Valid()
      modifies this`heap
      ensures Valid() && Queue() == old(Queue())
      ensures s == if Queue() == [] then null else Queue()[0]
      ensures s != null ==> heap != [] && heap[0].s == s && IsLive(live, s)
      ensures Members(heap) <= old(Members(heap))
    {
      hide KeyOf, EntryLess, IsLive;
      while heap != [] && !IsLive(live, heap[0].s)
        invariant Valid() && Queue() == old(Queue())
        invariant Members(heap) <= old(Members(heap))
        decreases |heap|
      {
        ghost var before := heap;
        OrderedTail(heap);
        RemovedNotLive(live, heap[0].s);
        heap := heap[1..];
        TailKeeps(before, live);
      }
      s := if heap == [] then null else heap[0].s;
    }

    static lemma {:induction false} RemovedNotLive(live: map<int, Sequence>, s: Sequence)
      requires !IsLive(live, s) && forall id :: id in live ==> live[id].id == id
      ensures forall id :: id in live ==> live[id] != s
    {
    }

    /** Discarding a removed entry. */
    static lemma {:induction false} TailKeeps(heap: seq<Entry>, live: map<int, Sequence>)
      requires heap != [] && NoTwice(heap)
      ensures NoTwice(heap[1..])
      ensures forall t :: Holds(heap[1..], t) ==> Holds(heap, t)
      ensures forall t :: Holds(heap, t) && t != heap[0].s ==> Holds(heap[1..], t)
      ensures forall i :: 0 <= i < |heap[1..]| ==> heap[1..][i] == heap[i + 1]
    {
      forall t | Holds(heap, t) && t != heap[0].s ensures Holds(heap[1..], t) {
        var i :| 0 <= i < |heap| && heap[i].s == t;
        assert heap[1..][i - 1].s == t;
      }
    }

    /** Take the next request: of all waiting, the least by key and then by push order. */
    method Pop() returns (s: Sequence)
      requires Valid() && Queue() != []
      modifies this`heap, this`live
      ensures Valid() && s == old(Queue())[0] && Queue() == old(Queue())[1..]
      ensures live == old(live) - {s.id} && s.id in old(live)
      ensures Members(heap) <= old(Members(heap))
      ensures forall t :: t in old(Queue()) ==> !KeyLess(KeyOf(cfg, t), KeyOf(cfg, s))
      ensures exists e :: e in old(heap) && e.s == s && forall f :: f in old(heap) && IsLive(old(live), f.s) && f != e ==> EntryLess(e, f)
    {
      hide KeyOf;
      ghost var heap0, live0 := heap, live;
      PopLeast(cfg, heap, live);
      var next := Peek();
      s := next;
      ghost var heap1 := heap;
      OrderedTail(heap);
      TailKeeps(heap, live);
      heap := heap[1..];
      live := live - {s.id};
      forall i | 0 <= i < |heap| ensures IsLive(live0, heap[i].s) <==> IsLive(live, heap[i].s) {
        assert heap[i] == heap1[i + 1] && heap1[0].s != heap1[i + 1].s;
      }
      LiveSame(heap, live0, live);
    }

    /** The head of the queue is the least live entry of the heap. */
    static lemma {:induction false} PopLeast(cfg: Config, heap: seq<Entry>, live: map<int, Sequence>)
      requires InOrder(heap) && NoTwice(heap) && LiveOf(heap, live) != []
      requires forall i :: 0 <= i < |heap| ==> heap[i].key == KeyOf(cfg, heap[i].s)
      ensures var s := LiveOf(heap, live)[0];
        && (exists e :: e in heap && e.s == s && forall f :: f in heap && IsLive(live, f.s) && f != e ==> EntryLess(e, f))
        && (forall t :: t in LiveOf(heap, live) ==> !KeyLess(KeyOf(cfg, t), KeyOf(cfg, s)))
    {
      var k := FirstLive(heap, live);
      hide KeyOf, LiveOf;
      var s, e := LiveOf(heap, live)[0], heap[k];
      forall f | f in heap && IsLive(live, f.s) && f != e ensures EntryLess(e, f) {
        var j :| 0 <= j < |heap| && heap[j] == f;
      }
      forall t | t in LiveOf(heap, live) ensures !KeyLess(KeyOf(cfg, t), KeyOf(cfg, s)) {
        var j :| 0 <= j < |heap| && heap[j].s == t;
        if j != k {
          assert EntryLess(e, heap[j]);
          Admission.KeyOrder(e.key, heap[j].key, e.key);
        } else {
          Admission.KeyOrder(e.key, e.key, e.key);
        }
      }
    }

    static lemma {:induction false} FirstLive(heap: seq<Entry>, live: map<int, Sequence>) returns (k: nat)
      requires LiveOf(heap, live) != []
      ensures k < |heap| && heap[k].s == LiveOf(heap, live)[0] && IsLive(live, heap[k].s)
      ensures forall i :: 0 <= i < k ==> !IsLive(live, heap[i].s)
      decreases |heap|
    {
      hide IsLive;
      if IsLive(live, heap[0].s) {
        k := 0;
      } else {
        var j := FirstLive(heap[1..], live);
        k := j + 1;
        forall i | 0 <= i < k ensures !IsLive(live, heap[i].s) {
          if i > 0 {
            assert heap[i] == heap[1..][i - 1];
          }
        }
      }
    }

    /** Drop a request by id; its entry stays in the heap. */
    method Remove(id: int) returns (s: Sequence?)
      requires Valid()
      modifies this`live
      ensures Valid() && live == old(live) - {id}
      ensures s == if id in old(live) then old(live)[id] else null
      ensures id in old(live) ==> Queue() == DropSeq(old(Queue()), id)
      ensures id !in old(live) ==> Queue() == old(Queue())
    {
      hide KeyOf, EntryLess, LiveOf;
      if id in live {
        s := live[id];
        RemoveDrops(heap, live, id);
        live := live - {id};
      } else {
        s := null;
        assert live - {id} == live;
      }
    }

    /** Somebody waits exactly when the queue is not empty. */
    method IsEmpty() returns (empty: bool)
      requires Valid()
      ensures empty == (Queue() == [])
    {
      empty := live.Keys == {};
      forall id | id in live ensures Queue() != [] {
        var i :| 0 <= i < |heap| && heap[i].s == live[id];
        LiveFound(heap, live, i);
      }
      if Queue() == [] {
        assert live.Keys == {};
      } else {
        assert Queue()[0] in Queue();
      }
    }
  }
}
