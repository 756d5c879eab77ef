// When generation ends and why, said of the tokens alone: a lone run is the model's own continuation of its prompt up
// to the first token that completes a stop string, is an end token, or uses up what it may generate.
module Endings {
  import opened Basics
  import opened Transformer
  import opened Streaming
  import opened Text

  /** The whole decoded text of the tokens generated after g has a stop string in it. */
  ghost predicate Cut(srv: Serving, params: Params, g: Gen, more: seq<Token>) {
    !NoStop(WholeText(srv, g, more), params.stop)
  }

  /** The last token is an end token that counts. */
  ghost predicate EndToken(srv: Serving, params: Params, more: seq<Token>)
    requires more != []
  {
    more[|more| - 1] in srv.eos && !params.ignoreEos
  }

  /** No further token may be generated. */
  predicate UsedUp(srv: Serving, params: Params, g: Gen, more: seq<Token>) {
    |g.tokens| - g.promptLen + |more| >= params.maxTokens || |g.tokens| + |more| >= srv.maxModelLen
  }

  ghost predicate Ends(srv: Serving, params: Params, g: Gen, more: seq<Token>)
    requires more != []
  {
    Cut(srv, params, g, more) || EndToken(srv, params, more) || UsedUp(srv, params, g, more)
  }

  /** None of the tokens after g is one to end with. */
  ghost predicate GoesOn(srv: Serving, params: Params, g: Gen, more: seq<Token>) {
    forall k :: 0 < k <= |more| ==> !Ends(srv, params, g, more[..k])
  }

  /** Every token is the one the model picks after all before it. */
  ghost predicate IsContinuation(m: Model, tokens: seq<Token>, more: seq<Token>)
    requires tokens != []
  {
    forall k :: 0 <= k < |more| ==> more[k] == NextToken(m, tokens + more[..k])
  }

  /** `more` is what is generated after g, ending at the first token to end with, for its reason. */
  ghost predicate Completes(m: Model, srv: Serving, params: Params, g: Gen, more: seq<Token>, reason: Reason)
    requires g.tokens != []
  {
    && more != [] && IsContinuation(m, g.tokens, more)
    && Ends(srv, params, g, more) && GoesOn(srv, params, g, more[..|more| - 1])
    && reason == if Cut(srv, params, g, more) || EndToken(srv, params, more) then Stop else Length
  }

  // --- one token -------------------------------------------------------------------------------------------------------

  /** A token ends a clean request if and only if it is one to end with, and for that reason. */
  lemma {:induction false} TokenEnds(srv: Serving, params: Params, g: Gen, t: Token)
    requires ValidStops(params.stop) && Clean(params, g)
    ensures var finish := AppendToken(srv, params, g, t).2;
      && (finish.Some? <==> Ends(srv, params, g, [t]))
      && (finish.Some? ==> finish.value == if Cut(srv, params, g, [t]) || EndToken(srv, params, [t]) then Stop else Length)
  {
    var text := g.text + Piece(srv, g, t);
    assert [t][1..] == [];
    assert WholeText(srv, g, [t]) == text;
    assert text[..|g.text|] == g.text;
    hide WholeText, NoStop, Flushed, DetokAdd, FindStop, Earliest, Holdback;
    FindStopIsEarliest(text, |g.text|, params.stop);
    EarliestStops(text, params.stop);
  }

  lemma {:induction false} EarliestStops(text: string, stops: seq<string>)
    ensures forall i: nat :: Earliest(text, stops, i) ==> !NoStop(text, stops)
  {
    hide StopsAt;
  }

  // --- whole generations -----------------------------------------------------------------------------------------------

  lemma {:induction false} ContinuesOn(m: Model, tokens: seq<Token>, t: Token, more: seq<Token>)
    requires tokens != [] && t == NextToken(m, tokens) && IsContinuation(m, tokens + [t], more)
    ensures IsContinuation(m, tokens, [t] + more)
  {
    hide NextToken;
    forall k | 0 <= k < |[t] + more| ensures ([t] + more)[k] == NextToken(m, tokens + ([t] + more)[..k]) {
      if k == 0 {
        assert tokens + ([t] + more)[..0] == tokens;
      } else {
        assert tokens + [t] + more[..k - 1] == tokens + ([t] + more)[..k];
      }
    }
  }

  /** After a token that ends nothing, whether more tokens end does not depend on where one starts looking. */
  lemma {:induction false} EndsOn(srv: Serving, params: Params, g: Gen, t: Token, more: seq<Token>)
    requires more != [] && AppendToken(srv, params, g, t).2.None?
    ensures var g' := AppendToken(srv, params, g, t).0;
      && Ends(srv, params, g', more) == Ends(srv, params, g, [t] + more)
      && Cut(srv, params, g', more) == Cut(srv, params, g, [t] + more)
      && EndToken(srv, params, more) == EndToken(srv, params, [t] + more)
  {
    WholeStep(srv, params, g, t, more);
    hide WholeText, NoStop, Extend, Flushed, Holdback;
  }

  /** A lone run completes its request. */
  lemma {:induction false} SoloCompletes(m: Model, srv: Serving, params: Params, g: Gen)
    requires g.tokens != [] && ValidStops(params.stop) && Clean(params, g)
    ensures var (r, reason) := SoloRun(m, srv, params, g);
      g.tokens < r.tokens && r.promptLen == g.promptLen && Completes(m, srv, params, g, r.tokens[|g.tokens|..], reason)
    decreases params.maxTokens - NumOutput(g)
  {
    hide AppendToken, SoloRun, NextToken, Clean, ValidStops, Ends, Cut, EndToken, IsContinuation;
    var t := NextToken(m, g.tokens);
    var (g', out, finish) := AppendToken(srv, params, g, t);
    SoloRunStep(m, srv, params, g);
    SoloRunExtends(m, srv, params, g);
    TokenEnds(srv, params, g, t);
    NothingContinues(m, g.tokens + [t]);
    ContinuesOn(m, g.tokens, t, []);
    assert [t] + [] == [t];
    var (r, reason) := SoloRun(m, srv, params, g);
    if finish.None? {
      StaysClean(srv, params, g, t);
      SoloCompletes(m, srv, params, g');
      var more := r.tokens[|g'.tokens|..];
      assert r.tokens[|g.tokens|..] == [t] + more;
      ContinuesOn(m, g.tokens, t, more);
      EndsOn(srv, params, g, t, more);
      GoesOnLonger(srv, params, g, t, more);
    } else {
      assert r.tokens[|g.tokens|..] == [t];
      assert [t][..0] == [];
    }
  }

  lemma {:induction false} NothingContinues(m: Model, tokens: seq<Token>)
    requires tokens != []
    ensures IsContinuation(m, tokens, [])
  {
  }

  lemma {:induction false} GoesOnLonger(srv: Serving, params: Params, g: Gen, t: Token, more: seq<Token>)
    requires more != [] && AppendToken(srv, params, g, t).2.None? && !Ends(srv, params, g, [t])
    requires GoesOn(srv, params, AppendToken(srv, params, g, t).0, more[..|more| - 1])
    ensures GoesOn(srv, params, g, ([t] + more)[..|more|])
  {
    hide AppendToken, Ends;
    var g' := AppendToken(srv, params, g, t).0;
    var all := ([t] + more)[..|more|];
    forall k | 0 < k <= |all| ensures !Ends(srv, params, g, all[..k]) {
      if k == 1 {
        assert all[..1] == [t];
      } else {
        var part := more[..|more| - 1][..k - 1];
        assert all[..k] == [t] + part;
        EndsOn(srv, params, g, t, part);
      }
    }
  }

  // --- what has been sent on the way -----------------------------------------------------------------------------------

  /** All that is safe to send of a text while more may come: everything when there are no stop strings, else all but
      the last characters, one fewer than a longest stop string has. */
  ghost predicate AllSafe(stops: seq<string>, text: string, sent: string) {
    && sent <= text
    && if stops == [] then sent == text
       else exists k :: 0 <= k < |stops| && (forall j :: 0 <= j < |stops| ==> |stops[j]| <= |stops[k]|)
                        && |sent| == if |text| < |stops[k]| then 0 else |text| - |stops[k]| + 1
  }

  lemma {:induction false} SomeLongestStop(stops: seq<string>) returns (k: nat)
    requires stops != []
    ensures k < |stops| && |stops[k]| == LongestStop(stops) && forall j :: 0 <= j < |stops| ==> |stops[j]| <= LongestStop(stops)
  {
    k := 0;
    if |stops| > 1 {
      var i := SomeLongestStop(stops[1..]);
      if |stops[0]| <= LongestStop(stops[1..]) {
        k := i + 1;
      }
      forall j | 0 <= j < |stops| ensures |stops[j]| <= LongestStop(stops) {
        LongestIsLongest(stops, j);
      }
    }
  }

  lemma {:induction false} CleanSaysSafe(params: Params, g: Gen)
    requires ValidStops(params.stop) && Clean(params, g)
    ensures AllSafe(params.stop, g.text, Joined(g.said))
  {
    hide NoStop, Joined, LongestStop;
    SomeLongest(params.stop);
    if params.stop != [] {
      var k := SomeLongestStop(params.stop);
    }
  }

  lemma {:induction false} NoMoreText(srv: Serving, g: Gen)
    ensures WholeText(srv, g, []) == g.text
  {
  }

  /** One entry for every token, saying which; and before the last, all that is safe of the text so far has been sent,
      and no more. */
  lemma {:induction false} SoloSays(m: Model, srv: Serving, params: Params, g: Gen, k: nat)
    requires g.tokens != [] && ValidStops(params.stop) && Clean(params, g)
    ensures var r := SoloRun(m, srv, params, g).0;
      && g.tokens < r.tokens && g.said < r.said && |r.said| - |g.said| == |r.tokens| - |g.tokens|
      && (k < |r.tokens| - |g.tokens| ==>
            && r.said[|g.said| + k].0 == r.tokens[|g.tokens| + k]
            && AllSafe(params.stop, WholeText(srv, g, r.tokens[|g.tokens|..|g.tokens| + k]), Joined(r.said[..|g.said| + k])))
    decreases params.maxTokens - NumOutput(g)
  {
    hide AppendToken, SoloRun, NextToken, Clean, ValidStops, Joined, AllSafe, WholeText;
    var t := NextToken(m, g.tokens);
    var (g', out, finish) := AppendToken(srv, params, g, t);
    SoloRunStep(m, srv, params, g);
    SoloRunExtends(m, srv, params, g);
    var r := SoloRun(m, srv, params, g).0;
    if k == 0 {
      CleanSaysSafe(params, g);
      NoMoreText(srv, g);
      assert r.said[..|g.said|] == g.said && r.tokens[|g.tokens|..|g.tokens|] == [];
    }
    if finish.None? {
      StaysClean(srv, params, g, t);
      SoloSays(m, srv, params, g', if k == 0 then 0 else k - 1);
      assert g'.said == g.said + [(t, out)] && g'.said < r.said;
      if k == 0 {
        assert r.said[|g.said|] == (t, out);
      } else if k < |r.tokens| - |g.tokens| {
        var part := r.tokens[|g'.tokens|..|g'.tokens| + (k - 1)];
        assert r.tokens[|g.tokens|..|g.tokens| + k] == [t] + part;
        WholeStep(srv, params, g, t, part);
      }
    }
  }

  // --- in words ----------------------------------------------------------------------------------------------------------

  /** The fewest tokens that use up what a prompt of this length may generate. */
  function Allowance(srv: Serving, params: Params, promptLen: nat): nat {
    var room := if srv.maxModelLen <= promptLen then 1 else srv.maxModelLen - promptLen;
    var most := if params.maxTokens == 0 then 1 else params.maxTokens;
    Min(room, most)
  }

  /** Of a completed request: no token before the last is an end token that counts, and the text before it holds no stop
      string; it says "stop" if and only if the text does hold one or the last token is an end token that counts; else
      it says "length" and has generated exactly its allowance, which it never exceeds. */
  lemma {:induction false} CompletedMeans(m: Model, srv: Serving, params: Params, prompt: seq<Token>, detok: bool, more: seq<Token>, reason: Reason)
    requires prompt != [] && Completes(m, srv, params, NewGen(prompt, detok), more, reason)
    ensures forall k :: 0 <= k < |more| - 1 ==> more[k] in srv.eos ==> params.ignoreEos
    ensures |more| > 1 ==> NoStop(WholeText(srv, NewGen(prompt, detok), more[..|more| - 1]), params.stop)
    ensures reason == Stop <==>
      !NoStop(WholeText(srv, NewGen(prompt, detok), more), params.stop) || (more[|more| - 1] in srv.eos && !params.ignoreEos)
    ensures reason != Stop ==> reason == Length && |more| == Allowance(srv, params, |prompt|)
    ensures |more| <= Allowance(srv, params, |prompt|)
  {
    hide NoStop, WholeText, NextToken;
    var g := NewGen(prompt, detok);
    var before := more[..|more| - 1];
    if |more| > 1 {
      assert before[..|more| - 1] == before;
      assert !Ends(srv, params, g, before[..|more| - 1]);
    }
    forall k | 0 <= k < |more| - 1 ensures more[k] in srv.eos ==> params.ignoreEos {
      assert !Ends(srv, params, g, before[..k + 1]);
      assert before[..k + 1][k] == more[k];
    }
  }

  /** A request that was accepted is never cut short by the model's length: what it may generate is what it asked for. */
  lemma {:induction false} AcceptedAllowance(srv: Serving, params: Params, promptLen: nat)
    requires params.maxTokens >= 1 && promptLen + params.maxTokens <= srv.maxModelLen
    ensures Allowance(srv, params, promptLen) == params.maxTokens
  {
  }
}
