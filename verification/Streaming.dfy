// What one sampled token does to a request: the decoded text, the stop conditions and the text that
// may be sent. Also the reference run, which generates for one request alone.
module Streaming {
  import opened Basics
  import opened Transformer

  datatype Params = Params(maxTokens: nat, stop: seq<string>, ignoreEos: bool)

  datatype Reason = Stop | Length | Error

  /** What every request shares: the tokenizer's decoder, the end tokens and the length limit. */
  datatype Serving = Serving(decode: seq<Token> -> string, eos: set<Token>, maxModelLen: nat)

  datatype Detok = Detok(ids: seq<Token>, prefix: nat, read: nat)

  const REPLACEMENT: char := '\U{FFFD}'

  /** str.endswith(U+FFFD) */
  predicate EndsBroken(text: string) {
    text != [] && text[|text| - 1] == REPLACEMENT
  }

  /** s[lo:hi] with slice clamping. */
  function Slice<T>(s: seq<T>, lo: nat, hi: nat): seq<T> {
    if lo <= hi then s[Min(lo, |s|)..Min(hi, |s|)] else []
  }

  function DetokAdd(decode: seq<Token> -> string, d: Detok, t: Token): (Detok, string) {
    var ids := d.ids + [t];
    var prefixText := decode(Slice(ids, d.prefix, d.read));
    var newText := decode(Slice(ids, d.prefix, |ids|));
    if |newText| > |prefixText| && !EndsBroken(newText)
    then (Detok(ids, d.read, |ids|), newText[|prefixText|..])
    else (Detok(ids, d.prefix, d.read), "")
  }

  function DetokFlush(decode: seq<Token> -> string, d: Detok): (Detok, string) {
    var prefixText := decode(Slice(d.ids, d.prefix, d.read));
    var newText := decode(Slice(d.ids, d.prefix, |d.ids|));
    (Detok(d.ids, |d.ids|, |d.ids|), Slice(newText, |prefixText|, |newText|))
  }

  predicate MatchesAt(text: string, stop: string, i: nat) {
    i + |stop| <= |text| && text[i..i + |stop|] == stop
  }

  /** str.find(stop, start): the first match at or after start. */
  function Find(text: string, stop: string, start: nat): Option<nat>
    decreases |text| - start
  {
    if |text| < start then None
    else if MatchesAt(text, stop, start) then Some(start)
    else Find(text, stop, start + 1)
  }

  /** The window search: each stop string is looked for only where it could end in new text. */
  function FindStopFrom(text: string, prevLen: nat, stops: seq<string>, found: Option<nat>): Option<nat> {
    if stops == [] then found
    else
      var start := if prevLen + 1 <= |stops[0]| then 0 else prevLen + 1 - |stops[0]|;
      var idx := Find(text, stops[0], start);
      var better := idx.Some? && (found.None? || idx.value < found.value);
      FindStopFrom(text, prevLen, stops[1..], if better then idx else found)
  }

  function FindStop(text: string, prevLen: nat, stops: seq<string>): Option<nat> {
    FindStopFrom(text, prevLen, stops, None)
  }

  function LongestStop(stops: seq<string>): nat {
    if stops == [] then 0
    else
      var rest := LongestStop(stops[1..]);
      if |stops[0]| > rest then |stops[0]| else rest
  }

  /** The generation state of a request. `said` is a history of what was returned for each token. */
  datatype Gen = Gen(
    promptLen: nat,
    tokens: seq<Token>,
    detok: Option<Detok>,
    text: string,
    emitted: nat,
    said: seq<(Token, string)>)

  function NewGen(prompt: seq<Token>, detok: bool): Gen {
    Gen(|prompt|, prompt, if detok then Some(Detok([], 0, 0)) else None, "", 0, [])
  }

  function NumOutput(g: Gen): int {
    |g.tokens| - g.promptLen
  }

  /** append_token up to the stop conditions: the new text and why generation ends, if it does. */
  function Extend(srv: Serving, params: Params, g: Gen, t: Token): (Gen, Option<nat>, Option<Reason>) {
    var tokens := g.tokens + [t];
    var (detok, piece) := match g.detok
      case Some(d) => (var (d', piece) := DetokAdd(srv.decode, d, t); (Some(d'), piece))
      case None => (None, "");
    var text := g.text + piece;
    var stopAt := FindStop(text, |g.text|, params.stop);
    var g' := g.(tokens := tokens, detok := detok, text := if stopAt.Some? then Slice(text, 0, stopAt.value) else text);
    var finish :=
      if stopAt.Some? then Some(Stop)
      else if t in srv.eos && !params.ignoreEos then Some(Stop)
      else if NumOutput(g') >= params.maxTokens || |tokens| >= srv.maxModelLen then Some(Length)
      else None;
    (g', stopAt, finish)
  }

  /** Text still held by the detokenizer joins when generation ends without a stop string. */
  function Flushed(srv: Serving, g: Gen): Gen {
    match g.detok
    case Some(d) => var (d', rest) := DetokFlush(srv.decode, d); g.(detok := Some(d'), text := g.text + rest)
    case None => g
  }

  function Holdback(params: Params, finish: Option<Reason>): int {
    if finish.Some? || params.stop == [] then 0 else LongestStop(params.stop) - 1
  }

  function AppendToken(srv: Serving, params: Params, g: Gen, t: Token): (r: (Gen, string, Option<Reason>))
    ensures r.0.tokens == g.tokens + [t] && r.0.promptLen == g.promptLen
    ensures r.2.None? ==> NumOutput(r.0) < params.maxTokens && |r.0.tokens| < srv.maxModelLen
    ensures r.2 != Some(Error)
    ensures r.0.said == g.said + [(t, r.1)]
  {
    var (g1, stopAt, finish) := Extend(srv, params, g, t);
    var g2 := if finish.Some? && stopAt.None? then Flushed(srv, g1) else g1;
    var end := |g2.text| - Holdback(params, finish);
    var emitted: nat := if end < g.emitted then g.emitted else end;
    var text := Slice(g2.text, g.emitted, emitted);
    (g2.(emitted := emitted, said := g.said + [(t, text)]), text, finish)
  }

  /** The reference: generate for this request alone until a stop condition holds. */
  function SoloRun(m: Model, srv: Serving, params: Params, g: Gen): (Gen, Reason)
    requires g.tokens != []
    decreases params.maxTokens - NumOutput(g)
  {
    var (g', _, finish) := AppendToken(srv, params, g, NextToken(m, g.tokens));
    if finish.Some? then (g', finish.value) else SoloRun(m, srv, params, g')
  }

  /** A solo run only appends, and says one thing for each token. */
  lemma {:induction false} SoloRunExtends(m: Model, srv: Serving, params: Params, g: Gen)
    requires g.tokens != []
    ensures g.tokens < SoloRun(m, srv, params, g).0.tokens
    ensures g.said < SoloRun(m, srv, params, g).0.said
    ensures var r := SoloRun(m, srv, params, g).0; |r.said| - |g.said| == |r.tokens| - |g.tokens| && r.promptLen == g.promptLen
    decreases params.maxTokens - NumOutput(g)
  {
    var (g', _, finish) := AppendToken(srv, params, g, NextToken(m, g.tokens));
    if finish.None? {
      SoloRunExtends(m, srv, params, g');
    }
  }

  /** What a solo run says for a place is for the token in that place. */
  lemma {:induction false} SoloRunNames(m: Model, srv: Serving, params: Params, g: Gen, k: nat)
    requires g.tokens != []
    ensures var r := SoloRun(m, srv, params, g).0;
      && |r.said| - |g.said| == |r.tokens| - |g.tokens| > 0
      && (k < |r.tokens| - |g.tokens| ==> r.said[|g.said| + k].0 == r.tokens[|g.tokens| + k])
    decreases params.maxTokens - NumOutput(g)
  {
    hide NextToken;
    var t := NextToken(m, g.tokens);
    var (g', text, finish) := AppendToken(srv, params, g, t);
    SoloRunExtends(m, srv, params, g);
    hide AppendToken;
    if finish.None? {
      SoloRunExtends(m, srv, params, g');
      SoloRunNames(m, srv, params, g', if k == 0 then 0 else k - 1);
    }
  }
}
