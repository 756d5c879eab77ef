// The mutable objects of one request: its detokenizer, its state, and what a sampled token does to them.
module Sequences {
  import opened Basics
  import opened BlockPool
  import opened Streaming
  import opened Text
  import opened Scheduling

  /** A window over a growing token list, decoded without decoding all of it at every token. */
  class IncrementalDetokenizer {
    const decode: seq<Token> -> string
    /** The request whose text this is. */
    ghost const owner: object
    var ids: seq<Token>
    var prefixOffset: nat
    var readOffset: nat

    constructor (decode: seq<Token> -> string, ghost owner: object)
      ensures this.decode == decode && this.owner == owner && View() == Detok([], 0, 0)
    {
      this.decode, this.owner := decode, owner;
      ids, prefixOffset, readOffset := [], 0, 0;
    }

    function View(): Detok
      reads this
    {
      Detok(ids, prefixOffset, readOffset)
    }

    method Add(t: Token) returns (piece: string)
      modifies this
      ensures (View(), piece) == DetokAdd(decode, old(View()), t)
    {
      ids := ids + [t];
      var prefixText := decode(Slice(ids, prefixOffset, readOffset));
      var newText := decode(Slice(ids, prefixOffset, |ids|));
      if |newText| > |prefixText| && !EndsBroken(newText) {
        prefixOffset, readOffset := readOffset, |ids|;
        return newText[|prefixText|..];
      }
      return "";
    }

    /** Let go of the characters kept waiting for more tokens; none will come. */
    method Flush() returns (rest: string)
      modifies this
      ensures (View(), rest) == DetokFlush(decode, old(View()))
    {
      var prefixText := decode(Slice(ids, prefixOffset, readOffset));
      var newText := decode(Slice(ids, prefixOffset, |ids|));
      prefixOffset, readOffset := |ids|, |ids|;
      return Slice(newText, |prefixText|, |newText|);
    }
  }

  /** The engine's process control block for one request. */
  class Sequence {
    const id: int
    const promptTokenIds: seq<Token>
    const params: Params
    const arrivalTime: real
    const priority: Option<real>
    var outputTokenIds: seq<Token>
    var tokenIds: seq<Token>
    var blockTable: seq<Block>
    var cpuBlockTable: seq<Block>
    var status: Status
    var numComputedTokens: nat
    var blockHashes: seq<Hash>
    var numRegisteredBlocks: nat
    var finishReason: Option<Reason>
    var outputText: string
    var numEmittedChars: nat
    var detokenizer: IncrementalDetokenizer?
    ghost var said: seq<(Token, string)>

    constructor (id: int, prompt: seq<Token>, params: Params, arrival: real, priority: Option<real>)
      ensures this.id == id && this.params == params && promptTokenIds == prompt
      ensures Valid() && detokenizer == null
      ensures View() == Seq(id, params, arrival, priority, NewGen(prompt, false), [], [], 0, [], 0, Waiting, None)
    {
      this.id, promptTokenIds, this.params, arrivalTime, this.priority := id, prompt, params, arrival, priority;
      outputTokenIds, tokenIds := [], prompt;
      blockTable, cpuBlockTable, status, numComputedTokens := [], [], Waiting, 0;
      blockHashes, numRegisteredBlocks, finishReason := [], 0, None;
      outputText, numEmittedChars, detokenizer, said := "", 0, null, [];
    }

    ghost predicate Valid()
      reads this
    {
      tokenIds == promptTokenIds + outputTokenIds
    }

    /** The value this object stands for. */
    ghost function View(): Seq
      reads this, detokenizer
    {
      Seq(id, params, arrivalTime, priority, Generated(), blockTable, cpuBlockTable, numComputedTokens, blockHashes,
          numRegisteredBlocks, status, finishReason)
    }

    ghost function Generated(): Gen
      reads this, detokenizer
    {
      Gen(|promptTokenIds|, tokenIds, if detokenizer == null then None else Some(detokenizer.View()), outputText, numEmittedChars, said)
    }

    /** This object stands for v, and its detokenizer, if it has one, is its own. */
    ghost predicate Is(v: Seq, decode: seq<Token> -> string)
      reads this, detokenizer
    {
      && Valid() && View() == v
      && (detokenizer != null ==> detokenizer.owner == this && detokenizer.decode == decode)
    }

    function NumTokens(): nat
      reads this
    {
      |tokenIds|
    }

    function NumOutputTokens(): nat
      reads this
    {
      |outputTokenIds|
    }

    function NumUncomputedTokens(): int
      reads this
    {
      |tokenIds| - numComputedTokens
    }

    method AppendToken(t: Token)
      requires Valid()
      modifies this`tokenIds, this`outputTokenIds
      ensures Valid() && tokenIds == old(tokenIds) + [t] && outputTokenIds == old(outputTokenIds) + [t]
    {
      tokenIds := tokenIds + [t];
      outputTokenIds := outputTokenIds + [t];
    }
  }

  /** The first place where some stop string matches, among matches that reach past prevLen. */
  method FindStopIn(text: string, prevLen: nat, stops: seq<string>) returns (found: Option<nat>)
    ensures found == FindStop(text, prevLen, stops)
  {
    found := None;
    var i := 0;
    while i < |stops|
      invariant i <= |stops|
      invariant FindStopFrom(text, prevLen, stops[i..], found) == FindStop(text, prevLen, stops)
    {
      var stop := stops[i];
      assert stops[i..][0] == stop && stops[i..][1..] == stops[i + 1..];
      var idx := FindFrom(text, stop, if prevLen + 1 <= |stop| then 0 else prevLen + 1 - |stop|);
      if idx.Some? && (found.None? || idx.value < found.value) {
        found := idx;
      }
      i := i + 1;
    }
  }

  /** str.find */
  method FindFrom(text: string, stop: string, start: nat) returns (idx: Option<nat>)
    ensures idx == Find(text, stop, start)
  {
    var i := start;
    while i <= |text|
      invariant Find(text, stop, i) == Find(text, stop, start)
    {
      if MatchesAt(text, stop, i) {
        return Some(i);
      }
      i := i + 1;
    }
    return None;
  }

  method LongestOf(stops: seq<string>) returns (longest: int)
    ensures longest == LongestStop(stops)
  {
    longest := 0;
    var i := |stops|;
    while i > 0
      invariant 0 <= i <= |stops| && longest == LongestStop(stops[i..])
    {
      i := i - 1;
      assert stops[i..][1..] == stops[i + 1..];
      if |stops[i]| > longest {
        longest := |stops[i]|;
      }
    }
  }

  /** Take one sampled token: the text grows by what it completes, and the request may end. */
  method ExtendWith(s: Sequence, t: Token, srv: Serving) returns (stopAt: Option<nat>, finish: Option<Reason>)
    requires s.Valid() && (s.detokenizer != null ==> s.detokenizer.decode == srv.decode)
    modifies s`tokenIds, s`outputTokenIds, s`outputText, s.detokenizer
    ensures s.Valid() && s.detokenizer == old(s.detokenizer)
    ensures (s.Generated(), stopAt, finish) == Extend(srv, s.params, old(s.Generated()), t)
  {
    hide FindStop, DetokAdd, DetokFlush, Slice, Extend;
    ghost var g := s.Generated();
    s.AppendToken(t);
    var prevLen := |s.outputText|;
    if s.detokenizer != null {
      var piece := s.detokenizer.Add(t);
      s.outputText := s.outputText + piece;
    }
    ghost var whole := g.text + Piece(srv, g, t);
    assert s.outputText == whole;
    finish, stopAt := None, None;
    if s.params.stop != [] {
      stopAt := FindStopIn(s.outputText, prevLen, s.params.stop);
    }
    NoStopsNoMatch(s.outputText, prevLen, s.params.stop);
    assert stopAt == FindStop(whole, |g.text|, s.params.stop);
    if stopAt.Some? {
      s.outputText := Slice(s.outputText, 0, stopAt.value);
      finish := Some(Stop);
    } else if t in srv.eos && !s.params.ignoreEos {
      finish := Some(Stop);
    } else if s.NumOutputTokens() >= s.params.maxTokens || s.NumTokens() >= srv.maxModelLen {
      finish := Some(Length);
    }
    ExtendedBy(srv, s.params, g, t, s.Generated(), stopAt, finish);
  }

  /** Release all of the text except a tail that a later token could complete to a stop string. */
  method EmitSafe(s: Sequence, t: Token, finish: Option<Reason>) returns (text: string)
    modifies s`numEmittedChars, s`said
    ensures var g, g' := old(s.Generated()), s.Generated();
      var end := |g.text| - Holdback(s.params, finish);
      && g' == g.(emitted := if end < g.emitted then g.emitted else end, said := g.said + [(t, text)])
      && text == Slice(g.text, g.emitted, g'.emitted)
  {
    var longest := LongestOf(s.params.stop);
    var holdback: int := 0;
    if finish.None? && s.params.stop != [] {
      holdback := longest - 1;
    }
    var end := |s.outputText| - holdback;
    if end < s.numEmittedChars {
      end := s.numEmittedChars;
    }
    text := Slice(s.outputText, s.numEmittedChars, end);
    s.numEmittedChars := end;
    s.said := s.said + [(t, text)];
  }

  /** One sampled token's whole effect; `text` is what the client gets for it. */
  method AppendSampled(s: Sequence, t: Token, srv: Serving) returns (text: string, finish: Option<Reason>)
    requires s.Valid() && (s.detokenizer != null ==> s.detokenizer.decode == srv.decode)
    modifies s`tokenIds, s`outputTokenIds, s`outputText, s`numEmittedChars, s`said, s.detokenizer
    ensures s.Valid() && s.detokenizer == old(s.detokenizer)
    ensures var r := AppendToken(srv, s.params, old(s.Generated()), t);
      s.Generated() == r.0 && text == r.1 && finish == r.2
  {
    hide FindStop, DetokAdd, DetokFlush, Slice, LongestStop, Extend;
    var stopAt: Option<nat>;
    stopAt, finish := ExtendWith(s, t, srv);
    ghost var g := s.Generated();
    if finish.Some? && stopAt.None? && s.detokenizer != null {
      var rest := s.detokenizer.Flush();
      s.outputText := s.outputText + rest;
    }
    assert s.Generated() == if finish.Some? && stopAt.None? then Flushed(srv, g) else g;
    text := EmitSafe(s, t, finish);
  }

  /** The first half of append_token, read off the updated fields. */
  lemma {:induction false} ExtendedBy(srv: Serving, params: Params, g: Gen, t: Token, g': Gen, stopAt: Option<nat>,
                                      finish: Option<Reason>)
    requires stopAt == FindStop(g.text + Piece(srv, g, t), |g.text|, params.stop)
    requires g' == g.(tokens := g.tokens + [t], detok := NextDetok(srv, g, t), text := g'.text)
    requires g'.text == if stopAt.Some? then Slice(g.text + Piece(srv, g, t), 0, stopAt.value) else g.text + Piece(srv, g, t)
    requires finish ==
      if stopAt.Some? then Some(Stop)
      else if t in srv.eos && !params.ignoreEos then Some(Stop)
      else if NumOutput(g') >= params.maxTokens || |g'.tokens| >= srv.maxModelLen then Some(Length)
      else None
    ensures Extend(srv, params, g, t) == (g', stopAt, finish)
  {
    hide FindStop, DetokAdd, Slice;
  }
}
