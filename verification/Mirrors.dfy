// Lists of request objects standing for lists of values, through a map from ids to both.
module Mirrors {
  import opened Basics
  import opened Streaming
  import opened Scheduling
  import opened Planning
  import opened Sequences
  import opened Queueing
  import opened Taking

  /** The footprint of all request objects and detokenizers; the requests known, and what they stand for. */
  datatype Ledger = Ledger(objs: set<object>, seqs: map<int, Sequence>, vals: map<int, Seq>, decode: seq<Token> -> string)

  /** The fields of a request that never change. */
  ghost predicate Fixed(s: Sequence, v: Seq) {
    && s.id == v.id && s.params == v.params && s.arrivalTime == v.arrival && s.priority == v.priority
    && |s.promptTokenIds| == v.gen.promptLen
  }

  /** The engine knows s by its id, and s stands for v. */
  ghost predicate Stands(l: Ledger, s: Sequence, v: Seq) {
    s.id in l.seqs && l.seqs[s.id] == s && s.id in l.vals && l.vals[s.id] == v && Fixed(s, v)
  }

  ghost predicate Mirror(l: Ledger, list: seq<Sequence>, values: seq<Seq>) {
    |list| == |values| && forall i :: 0 <= i < |list| ==> Stands(l, list[i], values[i])
  }

  /** Every known request stands for its value, and its objects lie in the footprint. */
  ghost predicate All(l: Ledger)
    reads l.objs
  {
    && l.vals.Keys == l.seqs.Keys
    && forall id :: id in l.seqs ==>
      && l.seqs[id] in l.objs && (l.seqs[id].detokenizer != null ==> l.seqs[id].detokenizer in l.objs)
      && l.seqs[id].id == id && l.seqs[id].Is(l.vals[id], l.decode)
  }

  lemma {:induction false} AllHas(l: Ledger, s: Sequence)
    requires All(l) && s.id in l.seqs && l.seqs[s.id] == s
    ensures s.id in l.vals && s.Is(l.vals[s.id], l.decode) && s in l.objs && (s.detokenizer != null ==> s.detokenizer in l.objs)
    ensures Fixed(s, l.vals[s.id])
  {
  }

  /** Of the objects in the footprint, only s and its detokenizer have changed. */
  twostate predicate OnlyChanges(objs: set<object>, new s: Sequence)
    requires s in objs
    reads objs
  {
    forall o :: o in objs && o != s && o != old(s.detokenizer) ==> unchanged(o)
  }

  function Revised(l: Ledger, id: int, v: Seq): (r: Ledger)
    ensures r.objs == l.objs && r.seqs == l.seqs && r.decode == l.decode
    ensures id in r.vals && r.vals[id] == v
  {
    l.(vals := l.vals[id := v])
  }

  /** A request's own objects. */
  ghost function ObjectsOf(s: Sequence): set<object>
    reads s`detokenizer
  {
    {s} + if s.detokenizer == null then {} else {s.detokenizer}
  }

  function Entered(l: Ledger, more: set<object>, s: Sequence, v: Seq): (r: Ledger)
    ensures r.objs == l.objs + more && r.seqs == l.seqs[s.id := s] && r.decode == l.decode
  {
    l.(objs := l.objs + more, seqs := l.seqs[s.id := s], vals := l.vals[s.id := v])
  }

  function Struck(l: Ledger, id: int): (r: Ledger)
    ensures r.objs == l.objs && r.seqs == l.seqs - {id} && r.decode == l.decode
  {
    l.(seqs := l.seqs - {id}, vals := l.vals - {id})
  }

  /** One request's object changes, and its detokenizer perhaps; the others still stand for their values. */
  twostate lemma {:induction false} AllBut(l: Ledger, new s: Sequence, new v: Seq)
    requires s in l.objs && s.id in l.seqs && l.seqs[s.id] == s
    requires old(All(l))
    requires OnlyChanges(l.objs, s)
    requires s.Is(v, l.decode) && s.detokenizer == old(s.detokenizer)
    ensures All(Revised(l, s.id, v)) && All(Struck(l, s.id))
  {
    assert old(s.Is(l.vals[s.id], l.decode));
    forall id | id in l.seqs && id != s.id
      ensures l.seqs[id] in l.objs && l.seqs[id].detokenizer == old(l.seqs[id].detokenizer) && l.seqs[id].Is(l.vals[id], l.decode)
    {
      var t := l.seqs[id];
      assert old(t.Is(l.vals[id], l.decode));
      assert unchanged(t);
      assert t.detokenizer != null ==> t.detokenizer != old(s.detokenizer);
    }
  }

  lemma {:induction false} AllKeys(l: Ledger)
    requires All(l)
    ensures l.vals.Keys == l.seqs.Keys && forall id :: id in l.seqs <==> id in l.vals
  {
    assert forall id :: id in l.seqs <==> id in l.seqs.Keys;
    assert forall id :: id in l.vals <==> id in l.vals.Keys;
  }

  lemma {:induction false} KnownStands(l: Ledger, s: Sequence, v: Seq)
    requires All(l) && Stands(l, s, v)
    ensures s.id in l.seqs && l.seqs[s.id] == s && s.id == v.id && s.id in l.vals && l.vals[s.id] == v
    ensures s.Is(v, l.decode) && Fixed(s, v) && s in l.objs && (s.detokenizer != null ==> s.detokenizer in l.objs)
  {
  }

  /** A known request that stands for v now does so in the revised ledger. */
  lemma {:induction false} StandsNow(l: Ledger, s: Sequence, v: Seq)
    requires s.id in l.seqs && l.seqs[s.id] == s && s.Is(v, l.decode)
    ensures Stands(Revised(l, s.id, v), s, v) && v.id == s.id && Fixed(s, v)
  {
  }

  lemma {:induction false} IsFixed(s: Sequence, v: Seq, decode: seq<Token> -> string)
    requires s.Is(v, decode)
    ensures v.id == s.id && Fixed(s, v)
  {
  }

  /** A new request's objects join the footprint. */
  lemma {:induction false} AllNew(l: Ledger, s: Sequence, v: Seq)
    requires All(l) && s.id !in l.seqs && s.Is(v, l.decode)
    ensures All(Entered(l, ObjectsOf(s), s, v))
  {
  }

  // --- lists -----------------------------------------------------------------------------------------------------------

  lemma {:induction false} MirrorEnds(l: Ledger, list: seq<Sequence>, values: seq<Seq>)
    requires Mirror(l, list, values) && list != []
    ensures Mirror(l, list[1..], values[1..]) && Mirror(l, list[..|list| - 1], values[..|values| - 1])
    ensures Stands(l, list[0], values[0]) && Stands(l, list[|list| - 1], values[|values| - 1])
  {
    hide Stands;
  }

  lemma {:induction false} MirrorAt(l: Ledger, list: seq<Sequence>, values: seq<Seq>, i: nat)
    requires Mirror(l, list, values) && i < |list|
    ensures Stands(l, list[i], values[i])
  {
  }

  lemma {:induction false} MirrorConcat(l: Ledger, a: seq<Sequence>, b: seq<Sequence>, x: seq<Seq>, y: seq<Seq>)
    requires |a| == |x| && |b| == |y|
    ensures Mirror(l, a + b, x + y) <==> Mirror(l, a, x) && Mirror(l, b, y)
  {
    hide Stands;
    if Mirror(l, a + b, x + y) {
      forall i | 0 <= i < |a| ensures Stands(l, a[i], x[i]) {
        assert (a + b)[i] == a[i] && (x + y)[i] == x[i];
      }
      forall i | 0 <= i < |b| ensures Stands(l, b[i], y[i]) {
        assert (a + b)[|a| + i] == b[i] && (x + y)[|a| + i] == y[i];
      }
    }
  }

  lemma {:induction false} MirrorOne(l: Ledger, s: Sequence, v: Seq)
    requires Stands(l, s, v)
    ensures Mirror(l, [s], [v])
  {
  }

  /** A list without the request that changes is untouched by the change. */
  lemma {:induction false} MirrorChange(l: Ledger, list: seq<Sequence>, values: seq<Seq>, id: int, v: Seq)
    requires Mirror(l, list, values) && NoneHas(values, id)
    ensures Mirror(Revised(l, id, v), list, values) && Mirror(Struck(l, id), list, values)
  {
    forall i | 0 <= i < |list|
      ensures Stands(Revised(l, id, v), list[i], values[i]) && Stands(Struck(l, id), list[i], values[i])
    {
      assert Stands(l, list[i], values[i]);
    }
  }

  lemma {:induction false} MirrorNew(l: Ledger, list: seq<Sequence>, values: seq<Seq>, more: set<object>, s: Sequence, v: Seq)
    requires Mirror(l, list, values) && s.id !in l.seqs
    ensures Mirror(Entered(l, more, s, v), list, values)
  {
    forall i | 0 <= i < |list| ensures Stands(Entered(l, more, s, v), list[i], values[i]) {
      assert Stands(l, list[i], values[i]);
    }
  }

  lemma {:induction false} KeyOfFixed(cfg: Config, s: Sequence, v: Seq)
    requires Fixed(s, v)
    ensures KeyOf(cfg, s) == Key(cfg, v)
  {
    assert KeyOf(cfg, s).0 == Key(cfg, v).0 && KeyOf(cfg, s).1 == Key(cfg, v).1;
  }

  /** Inserting a request inserts its value. */
  lemma {:induction false} MirrorEnqueue(cfg: Config, l: Ledger, list: seq<Sequence>, values: seq<Seq>, s: Sequence, v: Seq)
    requires Mirror(l, list, values) && Stands(l, s, v)
    ensures Mirror(l, EnqueueSeq(cfg, list, s), Enqueue(cfg, values, v))
    decreases |list|
  {
    KeyOfFixed(cfg, s, v);
    if list != [] {
      MirrorEnds(l, list, values);
      KeyOfFixed(cfg, list[0], values[0]);
      hide Stands, Key, KeyOf, KeyLess, Mirror;
      MirrorOne(l, list[0], values[0]);
      MirrorOne(l, s, v);
      MirrorLength(l, list, values);
      if KeyLess(KeyOf(cfg, s), KeyOf(cfg, list[0])) {
        MirrorConcat(l, [s], list, [v], values);
      } else {
        MirrorEnqueue(cfg, l, list[1..], values[1..], s, v);
        var rest, rest' := EnqueueSeq(cfg, list[1..], s), Enqueue(cfg, values[1..], v);
        MirrorLength(l, rest, rest');
        MirrorConcat(l, [list[0]], rest, [values[0]], rest');
      }
    } else {
      MirrorOne(l, s, v);
    }
  }

  lemma {:induction false} MirrorLength(l: Ledger, list: seq<Sequence>, values: seq<Seq>)
    requires Mirror(l, list, values)
    ensures |list| == |values|
  {
  }

  /** Dropping a request by its id, or as an object, drops its value. */
  lemma {:induction false} MirrorDrop(l: Ledger, list: seq<Sequence>, values: seq<Seq>, s: Sequence)
    requires Mirror(l, list, values) && s.id in l.seqs && l.seqs[s.id] == s
    ensures DropSeq(list, s.id) == Without(list, s)
    ensures Mirror(l, Without(list, s), DropId(values, s.id))
    decreases |list|
  {
    if list != [] {
      MirrorEnds(l, list, values);
      MirrorDrop(l, list[1..], values[1..], s);
      hide Mirror;
      assert list[0].id == values[0].id && (list[0].id == s.id <==> list[0] == s);
      hide Stands;
      if list[0] != s {
        var rest, rest' := Without(list[1..], s), DropId(values[1..], s.id);
        MirrorLength(l, rest, rest');
        MirrorOne(l, list[0], values[0]);
        MirrorConcat(l, [list[0]], rest, [values[0]], rest');
      }
    }
  }

  /** The objects hold the items' tokens, tables and progress. */
  ghost predicate Carries(seqs: seq<Sequence>, ns: seq<nat>, items: seq<Item>)
    reads seqs
  {
    && |seqs| == |ns| == |items|
    && forall i :: 0 <= i < |seqs| ==>
      && ns[i] == items[i].n && seqs[i].tokenIds == items[i].s.gen.tokens
      && seqs[i].blockTable == items[i].s.table && seqs[i].numComputedTokens == items[i].s.computed
  }

  // --- ids -------------------------------------------------------------------------------------------------------------

  ghost predicate NoneHas(values: seq<Seq>, id: int) {
    forall i :: 0 <= i < |values| ==> values[i].id != id
  }

  lemma {:induction false} NotAmong(values: seq<Seq>, id: int)
    ensures Total(values, IdOf)[id] == 0 <==> NoneHas(values, id)
    decreases |values|
  {
    if values != [] {
      NotAmong(values[1..], id);
      assert values == [values[0]] + values[1..];
      assert IdOf(values[0])[id] == (if values[0].id == id then 1 else 0);
    }
  }

  /** A request in hand is in no list. */
  ghost predicate Apart(m: Mid, id: int) {
    && NoneHas(Seqs(m.items) + Seqs(m.todo), id) && NoneHas(m.swapped, id) && NoneHas(m.preempted, id) && NoneHas(m.waiting, id)
  }

  lemma {:induction false} HandApart(m: Mid, id: int)
    ensures Ids(m)[id] == 0 <==> Apart(m, id)
  {
    hide NoneHas, Total;
    NotAmong(Seqs(m.items) + Seqs(m.todo), id);
    TotalConcat(Seqs(m.items), Seqs(m.todo), IdOf);
    NotAmong(m.swapped, id);
    NotAmong(m.preempted, id);
    NotAmong(m.waiting, id);
  }

  /** The keys are exactly the ids counted. */
  ghost predicate KeysAre(keys: set<int>, ids: multiset<int>) {
    forall id :: id in keys <==> id in ids
  }

  lemma {:induction false} AllKeysAre(keys: set<int>, ids: multiset<int>)
    requires forall id :: id in keys <==> id in ids
    ensures KeysAre(keys, ids)
  {
  }

  lemma {:induction false} OneApart(m: Mid, id: int)
    ensures Apart(m, id) <==>
      NoneHas(Seqs(m.items) + Seqs(m.todo), id) && NoneHas(m.swapped, id) && NoneHas(m.preempted, id) && NoneHas(m.waiting, id)
  {
    hide NoneHas;
  }

  // --- some requests finished, their objects still at hand -----------------------------------------------------------

  /** Of the requests in l, those still known are the unfinished. */
  ghost predicate LivePart(seqs: map<int, Sequence>, l: Ledger) {
    && (forall id :: id in seqs <==> id in l.seqs && id in l.vals && l.vals[id].status != Finished)
    && (forall id :: id in seqs ==> seqs[id] == l.seqs[id])
  }

  /** A live request changes, and leaves if it finished. */
  lemma {:induction false} LiveStep(seqs: map<int, Sequence>, seqs': map<int, Sequence>, l: Ledger, id: int, v: Seq, v': Seq)
    requires LivePart(seqs, l) && id in l.seqs && id in l.vals && l.vals[id] == v && v.status == Running
    requires seqs' == if v'.status == Running then seqs else seqs - {id}
    requires v'.status == Running || v'.status == Finished
    ensures LivePart(seqs', Revised(l, id, v'))
  {
  }

  /** What a list's values say of an id, the ledger says. */
  lemma {:induction false} MirrorSays(l: Ledger, list: seq<Sequence>, values: seq<Seq>, id: int)
    requires Mirror(l, list, values)
    ensures forall v :: v in values && v.id == id ==> id in l.seqs && id in l.vals && l.vals[id] == v
    ensures !NoneHas(values, id) ==> exists v :: v in values && v.id == id && id in l.seqs && id in l.vals && l.vals[id] == v
  {
    forall v | v in values && v.id == id ensures id in l.seqs && id in l.vals && l.vals[id] == v {
      var i :| 0 <= i < |values| && values[i] == v;
      assert Stands(l, list[i], values[i]);
    }
    if !NoneHas(values, id) {
      var i :| 0 <= i < |values| && values[i].id == id;
      assert values[i] in values;
    }
  }

  /** l without the finished. */
  function Trimmed(l: Ledger, seqs: map<int, Sequence>): (r: Ledger)
    ensures r.objs == l.objs && r.seqs == seqs && r.decode == l.decode
  {
    Ledger(l.objs, seqs, map id | id in seqs && id in l.vals :: l.vals[id], l.decode)
  }

  lemma {:induction false} AllTrimmed(l: Ledger, seqs: map<int, Sequence>)
    requires All(l) && LivePart(seqs, l)
    ensures All(Trimmed(l, seqs))
  {
    var r := Trimmed(l, seqs);
    assert forall id :: id in r.vals <==> id in r.seqs;
    assert r.vals.Keys == r.seqs.Keys;
  }

  lemma {:induction false} MirrorTrimmed(l: Ledger, seqs: map<int, Sequence>, list: seq<Sequence>, values: seq<Seq>)
    requires LivePart(seqs, l) && Mirror(l, list, values) && forall i :: 0 <= i < |values| ==> values[i].status != Finished
    ensures Mirror(Trimmed(l, seqs), list, values)
  {
    forall i | 0 <= i < |list| ensures Stands(Trimmed(l, seqs), list[i], values[i]) {
      assert Stands(l, list[i], values[i]);
    }
  }

  /** One of a list changes. */
  lemma {:induction false} MirrorUpdate(l: Ledger, list: seq<Sequence>, values: seq<Seq>, i: nat, v: Seq)
    requires i < |list| && Mirror(l, list, values) && v.id == values[i].id && Fixed(list[i], v)
    requires forall j :: 0 <= j < |values| && j != i ==> values[j].id != v.id
    ensures Mirror(Revised(l, v.id, v), list, values[i := v])
  {
    forall j | 0 <= j < |list| ensures Stands(Revised(l, v.id, v), list[j], values[i := v][j]) {
      assert Stands(l, list[j], values[j]);
    }
  }

  /** The objects of those still running. */
  function Selected(list: seq<Sequence>, values: seq<Seq>): seq<Sequence>
    requires |list| == |values|
  {
    if values == [] then []
    else
      var last := |values| - 1;
      Selected(list[..last], values[..last]) + (if values[last].status == Running then [list[last]] else [])
  }

  lemma {:induction false} SelectedStands(l: Ledger, list: seq<Sequence>, values: seq<Seq>)
    requires Mirror(l, list, values)
    ensures Mirror(l, Selected(list, values), StillRunning(values))
    decreases |list|
  {
    hide Stands;
    if list != [] {
      var last := |list| - 1;
      MirrorEnds(l, list, values);
      SelectedStands(l, list[..last], values[..last]);
      MirrorOne(l, list[last], values[last]);
      var a, b := Selected(list[..last], values[..last]), StillRunning(values[..last]);
      MirrorConcat(l, a, [list[last]], b, [values[last]]);
      assert a + [] == a && b + [] == b;
    }
  }

  lemma {:induction false} AllSelected(list: seq<Sequence>, values: seq<Seq>)
    requires |list| == |values| && forall i :: 0 <= i < |values| ==> values[i].status == Running
    ensures Selected(list, values) == list
    decreases |list|
  {
    if list != [] {
      AllSelected(list[..|list| - 1], values[..|list| - 1]);
    }
  }

  lemma {:induction false} StillRunningMembers(values: seq<Seq>)
    ensures forall v :: v in StillRunning(values) <==> v in values && v.status == Running
    decreases |values|
  {
    if values != [] {
      var last := |values| - 1;
      StillRunningMembers(values[..last]);
      assert forall v :: v in values <==> v in values[..last] || v == values[last];
    }
  }

  /** Who is still running has been running. */
  lemma {:induction false} StillRunningIds(values: seq<Seq>, id: int)
    ensures id in Total(StillRunning(values), IdOf) <==> !NoneHas(StillRunning(values), id)
    ensures NoneHas(StillRunning(values), id) <==> forall v :: v in values && v.status == Running ==> v.id != id
  {
    NotAmong(StillRunning(values), id);
    StillRunningMembers(values);
    hide StillRunning;
    var r := StillRunning(values);
    if NoneHas(r, id) {
      forall v | v in values && v.status == Running ensures v.id != id {
        assert v in r;
      }
    } else {
      var i :| 0 <= i < |r| && r[i].id == id;
      assert r[i] in r;
    }
  }
}
