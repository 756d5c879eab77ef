// Streaming stop strings: the texts returned token by token add up to the whole text cut at the
// earliest stop string, although each search looks at a bounded window and text is held back.
module Text {
  import opened Basics
  import opened Transformer
  import opened Streaming

  // --- the whole-text reference ----------------------------------------------------------------------------------

  /** Some stop string matches at place i. */
  predicate StopsAt(text: string, stops: seq<string>, i: nat) {
    exists k :: 0 <= k < |stops| && MatchesAt(text, stops[k], i)
  }

  /** No stop string occurs anywhere. */
  ghost predicate NoStop(text: string, stops: seq<string>) {
    forall i: nat :: !StopsAt(text, stops, i)
  }

  /** i is the first place where a stop string occurs. */
  ghost predicate Earliest(text: string, stops: seq<string>, i: nat) {
    StopsAt(text, stops, i) && forall j: nat :: j < i ==> !StopsAt(text, stops, j)
  }

  /** r is the whole text up to the earliest stop string. */
  ghost predicate IsCut(text: string, stops: seq<string>, r: string) {
    (NoStop(text, stops) && r == text) || (exists i: nat :: i <= |text| && Earliest(text, stops, i) && r == text[..i])
  }

  /** A text has one cut. */
  lemma {:induction false} OneCut(text: string, stops: seq<string>, r: string, r': string)
    requires IsCut(text, stops, r) && IsCut(text, stops, r')
    ensures r == r'
  {
    if r != text {
      var i: nat :| i <= |text| && Earliest(text, stops, i) && r == text[..i];
      assert StopsAt(text, stops, i);
    }
    if r' != text {
      var j: nat :| j <= |text| && Earliest(text, stops, j) && r' == text[..j];
      assert StopsAt(text, stops, j);
    }
    if !NoStop(text, stops) {
      var i: nat :| i <= |text| && Earliest(text, stops, i) && r == text[..i];
      var j: nat :| j <= |text| && Earliest(text, stops, j) && r' == text[..j];
      assert i == j;
    }
  }

  // --- the window search finds what a whole-text search finds ------------------------------------------------------

  lemma {:induction false} FindFirst(text: string, stop: string, start: nat)
    ensures match Find(text, stop, start)
      case Some(i) => start <= i && MatchesAt(text, stop, i) && forall j: nat :: start <= j < i ==> !MatchesAt(text, stop, j)
      case None => forall j: nat :: start <= j ==> !MatchesAt(text, stop, j)
    decreases |text| - start
  {
    if start <= |text| && !MatchesAt(text, stop, start) {
      FindFirst(text, stop, start + 1);
    }
  }

  /** Where the window for one stop string begins. */
  function WindowStart(prevLen: nat, stop: string): nat {
    if prevLen + 1 <= |stop| then 0 else prevLen + 1 - |stop|
  }

  ghost predicate ValidStops(stops: seq<string>) {
    forall k :: 0 <= k < |stops| ==> stops[k] != ""
  }

  /** What has been found after looking for some of the stop strings. */
  ghost predicate BestOf(text: string, prevLen: nat, stops: seq<string>, found: Option<nat>) {
    match found
    case Some(i) =>
      && (exists k :: 0 <= k < |stops| && WindowStart(prevLen, stops[k]) <= i && MatchesAt(text, stops[k], i))
      && (forall k, j: nat :: 0 <= k < |stops| && WindowStart(prevLen, stops[k]) <= j < i ==> !MatchesAt(text, stops[k], j))
    case None =>
      forall k, j: nat :: 0 <= k < |stops| && WindowStart(prevLen, stops[k]) <= j ==> !MatchesAt(text, stops[k], j)
  }

  lemma {:induction false} BetterOf(text: string, prevLen: nat, seen: seq<string>, stop: string, found: Option<nat>)
    requires BestOf(text, prevLen, seen, found)
    ensures var idx := Find(text, stop, WindowStart(prevLen, stop));
      var better := idx.Some? && (found.None? || idx.value < found.value);
      BestOf(text, prevLen, seen + [stop], if better then idx else found)
  {
    FindFirst(text, stop, WindowStart(prevLen, stop));
    hide Find, MatchesAt, WindowStart;
    var stops := seen + [stop];
    assert stops[|seen|] == stop && forall k :: 0 <= k < |seen| ==> stops[k] == seen[k];
  }

  lemma {:induction false} FindStopFromBest(text: string, prevLen: nat, seen: seq<string>, stops: seq<string>, found: Option<nat>)
    requires BestOf(text, prevLen, seen, found)
    ensures BestOf(text, prevLen, seen + stops, FindStopFrom(text, prevLen, stops, found))
    decreases |stops|
  {
    hide BestOf, Find;
    if stops == [] {
      assert seen + stops == seen;
    } else {
      BetterOf(text, prevLen, seen, stops[0], found);
      var idx := Find(text, stops[0], WindowStart(prevLen, stops[0]));
      var better := idx.Some? && (found.None? || idx.value < found.value);
      FindStopFromBest(text, prevLen, seen + [stops[0]], stops[1..], if better then idx else found);
      assert seen + [stops[0]] + stops[1..] == seen + stops;
    }
  }

  lemma {:induction false} NothingSought(text: string, prevLen: nat)
    ensures BestOf(text, prevLen, [], None)
  {
  }

  /** A stop string that starts before its window lies in the text searched before. */
  lemma {:induction false} OutsideWindow(text: string, prevLen: nat, stop: string, j: nat)
    requires prevLen <= |text| && stop != "" && MatchesAt(text, stop, j)
    ensures j < WindowStart(prevLen, stop) ==> MatchesAt(text[..prevLen], stop, j)
  {
    if j < WindowStart(prevLen, stop) {
      assert text[..prevLen][j..j + |stop|] == text[j..j + |stop|];
    }
  }

  /** When no stop string occurs in the text before the new piece, the window search finds exactly the
      earliest stop string of the whole text. */
  lemma {:induction false} FindStopIsEarliest(text: string, prevLen: nat, stops: seq<string>)
    requires prevLen <= |text| && ValidStops(stops) && NoStop(text[..prevLen], stops)
    ensures match FindStop(text, prevLen, stops)
      case Some(i) => Earliest(text, stops, i) && i <= |text| && prevLen < i + LongestStop(stops)
      case None => NoStop(text, stops)
  {
    NothingSought(text, prevLen);
    FindStopFromBest(text, prevLen, [], stops, None);
    assert [] + stops == stops;
    hide FindStopFrom, LongestStop;
    forall k, j: nat | 0 <= k < |stops| && MatchesAt(text, stops[k], j) ensures WindowStart(prevLen, stops[k]) <= j {
      assert !StopsAt(text[..prevLen], stops, j);
      OutsideWindow(text, prevLen, stops[k], j);
    }
    hide WindowStart, MatchesAt;
    match FindStop(text, prevLen, stops)
    case Some(i) =>
      var k :| 0 <= k < |stops| && WindowStart(prevLen, stops[k]) <= i && MatchesAt(text, stops[k], i);
      InWindow(text, prevLen, stops, k, i);
    case None =>
  }

  lemma {:induction false} InWindow(text: string, prevLen: nat, stops: seq<string>, k: nat, i: nat)
    requires k < |stops| && WindowStart(prevLen, stops[k]) <= i && MatchesAt(text, stops[k], i)
    ensures i <= |text| && prevLen < i + LongestStop(stops)
  {
    LongestIsLongest(stops, k);
  }

  lemma {:induction false} LongestIsLongest(stops: seq<string>, k: nat)
    requires k < |stops|
    ensures |stops[k]| <= LongestStop(stops)
    decreases |stops|
  {
    if k > 0 {
      LongestIsLongest(stops[1..], k - 1);
    }
  }

  // --- what has been returned ---------------------------------------------------------------------------------------

  function Joined(said: seq<(Token, string)>): string {
    if said == [] then "" else Joined(said[..|said| - 1]) + said[|said| - 1].1
  }

  lemma {:induction false} JoinedMore(said: seq<(Token, string)>, t: Token, text: string)
    ensures Joined(said + [(t, text)]) == Joined(said) + text
  {
    assert (said + [(t, text)])[..|said|] == said;
  }

  /** What a request that is not finished keeps: no stop string in its text, exactly the text before
      `emitted` returned, and of that all that is safe to send: everything when there are no stop strings, else all
      but the last characters, one fewer than the longest stop string has. */
  ghost predicate Clean(params: Params, g: Gen) {
    && NoStop(g.text, params.stop)
    && g.emitted <= |g.text| && Joined(g.said) == g.text[..g.emitted]
    && (params.stop == [] ==> g.emitted == |g.text|)
    && (params.stop != [] ==> var kept := LongestStop(params.stop) - 1; g.emitted == if |g.text| < kept then 0 else |g.text| - kept)
  }

  lemma {:induction false} NoText(stops: seq<string>)
    requires ValidStops(stops)
    ensures NoStop("", stops)
  {
  }

  lemma {:induction false} NewClean(params: Params, prompt: seq<Token>, detok: bool)
    requires ValidStops(params.stop)
    ensures Clean(params, NewGen(prompt, detok))
  {
    NoText(params.stop);
  }

  /** The piece of text a token adds. */
  function Piece(srv: Serving, g: Gen, t: Token): string {
    match g.detok case Some(d) => DetokAdd(srv.decode, d, t).1 case None => ""
  }

  /** The text flushed when generation ends. */
  function Rest(srv: Serving, d: Option<Detok>): string {
    match d case Some(d) => DetokFlush(srv.decode, d).1 case None => ""
  }

  function NextDetok(srv: Serving, g: Gen, t: Token): Option<Detok> {
    match g.detok case Some(d) => Some(DetokAdd(srv.decode, d, t).0) case None => None
  }

  /** append_token in terms of the text it extends. */
  lemma {:induction false} AppendTokenText(srv: Serving, params: Params, g: Gen, t: Token)
    ensures var (g', out, finish) := AppendToken(srv, params, g, t);
      var text := g.text + Piece(srv, g, t);
      var stopAt := FindStop(text, |g.text|, params.stop);
      && g'.said == g.said + [(t, out)]
      && (stopAt.Some? ==> finish == Some(Stop) && g'.text == Slice(text, 0, stopAt.value) && g'.detok == NextDetok(srv, g, t))
      && (stopAt.None? && finish.Some? ==> g'.text == text + Rest(srv, NextDetok(srv, g, t)))
      && (finish.None? ==> stopAt.None? && g'.text == text && g'.detok == NextDetok(srv, g, t))
      && (var end := |g'.text| - Holdback(params, finish);
          && g'.emitted == (if end < g.emitted then g.emitted else end)
          && out == Slice(g'.text, g.emitted, g'.emitted))
  {
    hide DetokAdd, DetokFlush, FindStop, Slice, LongestStop;
  }

  /** A token that does not finish the request keeps it clean. */
  lemma {:induction false} StaysClean(srv: Serving, params: Params, g: Gen, t: Token)
    requires ValidStops(params.stop) && Clean(params, g) && AppendToken(srv, params, g, t).2.None?
    ensures Clean(params, AppendToken(srv, params, g, t).0)
    ensures AppendToken(srv, params, g, t).0.text == g.text + Piece(srv, g, t)
  {
    AppendTokenText(srv, params, g, t);
    var (g', out, finish) := AppendToken(srv, params, g, t);
    hide AppendToken, Piece, Rest, NextDetok, Earliest, NoStop;
    var text := g.text + Piece(srv, g, t);
    assert text[..|g.text|] == g.text;
    FindStopIsEarliest(text, |g.text|, params.stop);
    JoinedMore(g.said, t, out);
    hide FindStop, Joined;
    SomeLongest(params.stop);
    assert text[..g'.emitted] == text[..g.emitted] + text[g.emitted..g'.emitted];
    assert text[..g.emitted] == g.text[..g.emitted];
  }

  lemma {:induction false} SomeLongest(stops: seq<string>)
    requires ValidStops(stops)
    ensures stops != [] ==> LongestStop(stops) >= 1
  {
    if stops != [] {
      LongestIsLongest(stops, 0);
    }
  }

  /** A stop string: everything returned is the whole text before the earliest stop string, and none of
      it had been sent too early. */
  lemma {:induction false} StopsCut(srv: Serving, params: Params, g: Gen, t: Token)
    requires ValidStops(params.stop) && Clean(params, g)
    requires FindStop(g.text + Piece(srv, g, t), |g.text|, params.stop).Some?
    ensures var (g', _, finish) := AppendToken(srv, params, g, t);
      var text, at := g.text + Piece(srv, g, t), FindStop(g.text + Piece(srv, g, t), |g.text|, params.stop).value;
      && finish == Some(Stop) && at <= |text| && Earliest(text, params.stop, at)
      && g'.text == text[..at] && Joined(g'.said) == text[..at]
  {
    AppendTokenText(srv, params, g, t);
    var (g', out, finish) := AppendToken(srv, params, g, t);
    hide AppendToken, Piece, Rest, NextDetok, Earliest, NoStop;
    var text := g.text + Piece(srv, g, t);
    assert text[..|g.text|] == g.text;
    FindStopIsEarliest(text, |g.text|, params.stop);
    JoinedMore(g.said, t, out);
    NoStopsNoMatch(text, |g.text|, params.stop);
    hide FindStopFrom, Joined, LongestStop;
    var at := FindStop(text, |g.text|, params.stop).value;
    assert g.emitted <= at;
    assert text[..at] == text[..g.emitted] + text[g.emitted..at];
    assert text[..g.emitted] == g.text[..g.emitted];
  }

  lemma {:induction false} NoStopsNoMatch(text: string, prevLen: nat, stops: seq<string>)
    ensures stops == [] ==> FindStop(text, prevLen, stops).None?
  {
  }

  /** Any other finish returns the whole text and what the detokenizer still held. */
  lemma {:induction false} FinishReturnsAll(srv: Serving, params: Params, g: Gen, t: Token)
    requires ValidStops(params.stop) && Clean(params, g)
    requires FindStop(g.text + Piece(srv, g, t), |g.text|, params.stop).None? && AppendToken(srv, params, g, t).2.Some?
    ensures var g' := AppendToken(srv, params, g, t).0;
      var text := g.text + Piece(srv, g, t);
      && NoStop(text, params.stop)
      && g'.text == text + Rest(srv, NextDetok(srv, g, t)) && Joined(g'.said) == g'.text
  {
    AppendTokenText(srv, params, g, t);
    var (g', out, finish) := AppendToken(srv, params, g, t);
    hide AppendToken, Piece, Rest, NextDetok, Earliest, NoStop;
    var text := g.text + Piece(srv, g, t);
    assert text[..|g.text|] == g.text;
    FindStopIsEarliest(text, |g.text|, params.stop);
    JoinedMore(g.said, t, out);
    hide FindStop, Joined, LongestStop;
    assert g'.emitted == |g'.text|;
    assert g'.text[..g.emitted] == g.text[..g.emitted];
    assert g'.text == g'.text[..g.emitted] + g'.text[g.emitted..];
  }

  // --- whole generations ---------------------------------------------------------------------------------------------

  /** The whole decoded text of the tokens after g, with no stop string looked for. */
  function WholeText(srv: Serving, g: Gen, tokens: seq<Token>): string
    decreases |tokens|
  {
    if tokens == [] then g.text
    else WholeText(srv, g.(text := g.text + Piece(srv, g, tokens[0]), detok := NextDetok(srv, g, tokens[0])), tokens[1..])
  }

  /** The detokenizer after the tokens. */
  function WholeDetok(srv: Serving, g: Gen, tokens: seq<Token>): Option<Detok>
    decreases |tokens|
  {
    if tokens == [] then g.detok
    else WholeDetok(srv, g.(text := g.text + Piece(srv, g, tokens[0]), detok := NextDetok(srv, g, tokens[0])), tokens[1..])
  }

  lemma {:induction false} WholeSame(srv: Serving, g: Gen, h: Gen, tokens: seq<Token>)
    requires g.text == h.text && g.detok == h.detok
    ensures WholeText(srv, g, tokens) == WholeText(srv, h, tokens) && WholeDetok(srv, g, tokens) == WholeDetok(srv, h, tokens)
    decreases |tokens|
  {
    if tokens != [] {
      var g1 := g.(text := g.text + Piece(srv, g, tokens[0]), detok := NextDetok(srv, g, tokens[0]));
      var h1 := h.(text := h.text + Piece(srv, h, tokens[0]), detok := NextDetok(srv, h, tokens[0]));
      WholeSame(srv, g1, h1, tokens[1..]);
    }
  }

  /** The texts returned over a lone run, from a clean request to its end. With `text` the whole decoded
      text and `rest` what the detokenizer still held: when a stop string occurs in the text, what was
      returned is the text cut at the earliest one; otherwise it is the text and the rest. */
  lemma {:induction false} RunReturns(m: Model, srv: Serving, params: Params, g: Gen)
    requires g.tokens != [] && ValidStops(params.stop) && Clean(params, g)
    ensures var (r, reason) := SoloRun(m, srv, params, g);
      && g.tokens < r.tokens
      && var more := r.tokens[|g.tokens|..];
         var text, rest := WholeText(srv, g, more), Rest(srv, WholeDetok(srv, g, more));
         if NoStop(text, params.stop) then Joined(r.said) == text + rest
         else reason == Stop && IsCut(text, params.stop, Joined(r.said))
    decreases params.maxTokens - NumOutput(g)
  {
    hide AppendToken, SoloRun, NextToken, NoStop, IsCut, Joined, Piece, NextDetok, Rest, WholeText, WholeDetok, Clean, ValidStops;
    var t := NextToken(m, g.tokens);
    var (g', out, finish) := AppendToken(srv, params, g, t);
    var r := SoloRun(m, srv, params, g).0;
    SoloRunStep(m, srv, params, g);
    SoloRunExtends(m, srv, params, g);
    if finish.None? {
      StaysClean(srv, params, g, t);
      RunReturns(m, srv, params, g');
      var more := r.tokens[|g'.tokens|..];
      assert r.tokens[|g.tokens|..] == [t] + more;
      WholeStep(srv, params, g, t, more);
    } else {
      LastReturns(srv, params, g, t);
      assert r.tokens[|g.tokens|..] == [t];
    }
  }

  lemma {:induction false} SoloRunStep(m: Model, srv: Serving, params: Params, g: Gen)
    requires g.tokens != []
    ensures var (g', _, finish) := AppendToken(srv, params, g, NextToken(m, g.tokens));
      SoloRun(m, srv, params, g) == if finish.Some? then (g', finish.value) else SoloRun(m, srv, params, g')
  {
    hide AppendToken, NextToken;
  }

  /** A token that does not finish the request is the first of the whole text to come. */
  lemma {:induction false} WholeStep(srv: Serving, params: Params, g: Gen, t: Token, more: seq<Token>)
    requires AppendToken(srv, params, g, t).2.None?
    ensures var g' := AppendToken(srv, params, g, t).0;
      WholeText(srv, g, [t] + more) == WholeText(srv, g', more) && WholeDetok(srv, g, [t] + more) == WholeDetok(srv, g', more)
  {
    AppendTokenText(srv, params, g, t);
    hide AppendToken, Piece, NextDetok;
    assert ([t] + more)[1..] == more;
    WholeSame(srv, AppendToken(srv, params, g, t).0, g.(text := g.text + Piece(srv, g, t), detok := NextDetok(srv, g, t)), more);
  }

  lemma {:induction false} LastReturns(srv: Serving, params: Params, g: Gen, t: Token)
    requires ValidStops(params.stop) && Clean(params, g) && AppendToken(srv, params, g, t).2.Some?
    ensures var (r, _, finish) := AppendToken(srv, params, g, t);
      var text, rest := WholeText(srv, g, [t]), Rest(srv, WholeDetok(srv, g, [t]));
      if NoStop(text, params.stop) then Joined(r.said) == text + rest
      else finish == Some(Stop) && IsCut(text, params.stop, Joined(r.said))
  {
    var text := g.text + Piece(srv, g, t);
    assert WholeText(srv, g, [t]) == text && WholeDetok(srv, g, [t]) == NextDetok(srv, g, t) by {
      assert [t][1..] == [];
    }
    hide AppendToken, Piece, NextDetok, WholeText, WholeDetok, Rest, Joined;
    if FindStop(text, |g.text|, params.stop).Some? {
      StopsCut(srv, params, g, t);
    } else {
      FinishReturnsAll(srv, params, g, t);
    }
  }

  // --- the law and its exact limit -----------------------------------------------------------------------------------

  lemma {:induction false} StopFits(text: string, stops: seq<string>, i: nat)
    requires ValidStops(stops)
    ensures StopsAt(text, stops, i) ==> i < |text|
  {
  }

  /** A text is its own cut exactly when no stop string occurs in it. */
  lemma {:induction false} CutIsWhole(text: string, stops: seq<string>)
    requires ValidStops(stops)
    ensures IsCut(text, stops, text) <==> NoStop(text, stops)
  {
    forall i: nat ensures StopsAt(text, stops, i) ==> i < |text| {
      StopFits(text, stops, i);
    }
    hide StopsAt;
  }

  lemma {:induction false} EarliestExists(text: string, stops: seq<string>, i: nat)
    requires StopsAt(text, stops, i)
    ensures exists j: nat :: j <= i && Earliest(text, stops, j)
  {
    hide StopsAt;
    if Earliest(text, stops, i) {
    } else {
      var j: nat :| j < i && StopsAt(text, stops, j);
      EarliestExists(text, stops, j);
    }
  }

  /** What is a stop string in a text is one in every longer text. */
  lemma {:induction false} StopStays(text: string, full: string, stops: seq<string>, i: nat)
    requires text <= full && StopsAt(text, stops, i)
    ensures StopsAt(full, stops, i)
  {
    var k :| 0 <= k < |stops| && MatchesAt(text, stops[k], i);
    assert full[i..i + |stops[k]|] == text[i..i + |stops[k]|];
    assert MatchesAt(full, stops[k], i);
  }

  /** When a stop string ends the run, what is returned is the searched text cut, else everything. It is the
      full text's cut exactly when the full text's earliest stop string lies in the searched text. */
  lemma {:induction false} CutOfFull(text: string, full: string, stops: seq<string>, r: string)
    requires text <= full && ValidStops(stops)
    requires if NoStop(text, stops) then r == full else IsCut(text, stops, r)
    ensures IsCut(full, stops, r) <==> forall i: nat :: Earliest(full, stops, i) ==> StopsAt(text, stops, i)
  {
    forall i: nat | StopsAt(text, stops, i) ensures StopsAt(full, stops, i) && i <= |text| {
      StopStays(text, full, stops, i);
      StopFits(text, stops, i);
    }
    CutIsWhole(full, stops);
    hide StopsAt;
    if NoStop(text, stops) {
      if !NoStop(full, stops) {
        var i: nat :| StopsAt(full, stops, i);
        EarliestExists(full, stops, i);
      }
    } else {
      var i0: nat :| i0 <= |text| && Earliest(text, stops, i0) && r == text[..i0];
      EarliestExists(full, stops, i0);
      var i: nat :| i <= i0 && Earliest(full, stops, i);
      assert full[..i0] == text[..i0];
      if StopsAt(text, stops, i) {
        assert i == i0;
      }
      if IsCut(full, stops, r) {
        assert |r| == i;
      }
    }
  }

  /** Everything a lone run returns, from its prompt, is its full text cut at the earliest stop string,
      the full text being all decoded text and, unless a stop string ended the run, what the
      detokenizer still held; exactly when no stop string was completed by that held text, which is
      never searched. */
  lemma {:induction false} StreamedIsCut(m: Model, srv: Serving, params: Params, prompt: seq<Token>, detok: bool)
    requires prompt != [] && ValidStops(params.stop)
    ensures var g := NewGen(prompt, detok);
      var r := SoloRun(m, srv, params, g).0;
      && prompt < r.tokens
      && var output := r.tokens[|prompt|..];
         var text, rest := WholeText(srv, g, output), Rest(srv, WholeDetok(srv, g, output));
         && (!NoStop(text, params.stop) ==> IsCut(text, params.stop, Joined(r.said)))
         && (NoStop(text, params.stop) ==>
               (IsCut(text + rest, params.stop, Joined(r.said)) <==> NoStop(text + rest, params.stop)))
  {
    hide SoloRun, NoStop, IsCut, Joined, WholeText, WholeDetok, Rest, Clean, ValidStops;
    var g := NewGen(prompt, detok);
    NewClean(params, prompt, detok);
    RunReturns(m, srv, params, g);
    var r := SoloRun(m, srv, params, g).0;
    var output := r.tokens[|prompt|..];
    CutIsWhole(WholeText(srv, g, output) + Rest(srv, WholeDetok(srv, g, output)), params.stop);
  }

  /** A decoder that holds a token back and renders it as U+FFFD when flushed. */
  function Held(ids: seq<Token>): string {
    if ids == [] then "" else [REPLACEMENT]
  }

  /** The law does fail when flushed text completes a stop string: one token, limit one, stop string
      U+FFFD. The token comes out although the full text cut at the stop string is empty. */
  lemma {:induction false} FlushedStopIsReturned(m: Model, prompt: seq<Token>)
    requires prompt != []
    ensures var srv, params := Serving(Held, {}, |prompt| + 1), Params(1, [[REPLACEMENT]], false);
      var r := SoloRun(m, srv, params, NewGen(prompt, true)).0;
      Joined(r.said) == [REPLACEMENT] && IsCut([REPLACEMENT], params.stop, "")
  {
    var srv, params := Serving(Held, {}, |prompt| + 1), Params(1, [[REPLACEMENT]], false);
    var g := NewGen(prompt, true);
    var t := NextToken(m, prompt);
    hide NextToken;
    var d := Detok([], 0, 0);
    var (d1, piece) := DetokAdd(Held, d, t);
    assert Slice([t], 0, 0) == [] && Slice([t], 0, 1) == [t];
    assert [] + [t] == [t];
    assert piece == "" && d1 == Detok([t], 0, 0);
    assert DetokFlush(Held, d1).1 == [REPLACEMENT];
    assert Find("", [REPLACEMENT], 0) == None;
    assert params.stop[1..] == [];
    assert FindStopFrom("", 0, params.stop, None) == FindStopFrom("", 0, [], None);
    assert FindStop("", 0, params.stop) == None;
    var (g', out, finish) := AppendToken(srv, params, g, t);
    assert finish == Some(Length) && out == [REPLACEMENT];
    JoinedMore([], t, out);
    assert MatchesAt([REPLACEMENT], params.stop[0], 0);
    assert StopsAt([REPLACEMENT], params.stop, 0);
    assert [REPLACEMENT][..0] == "";
  }
}
