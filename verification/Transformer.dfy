// A causal transformer as uninterpreted functions, and the reference computation over a contiguous
// cache: what the hidden state and the cached K/V of every position must be.
module Transformer {
  import opened Basics


  /** One layer's key and value of one position, and one position's activations. */
  type KV(==, 0, !new)
  type Hidden(==, 0, !new)

  /** `embed` sees a token and its position, `project` makes a layer's K/V from the activations that
      enter it, `attend` is the rest of the layer and sees the visible K/V in position order, and
      `next` picks the next token from the last position's activations. */
  datatype Model = Model(
    layers: nat,
    embed: (Token, nat) -> Hidden,
    project: (nat, Hidden) -> KV,
    attend: (nat, Hidden, seq<KV>) -> Hidden,
    next: Hidden -> Token)

  /** What one cache slot holds for a position: its K/V in every layer. */
  type Entry = seq<KV>

  function HiddenAt(m: Model, tokens: seq<Token>, p: nat, layer: nat): Hidden
    requires p < |tokens|
    decreases layer, 1
  {
    if layer == 0 then m.embed(tokens[p], p)
    else m.attend(layer - 1, HiddenAt(m, tokens, p, layer - 1), VisibleKV(m, tokens, p, layer - 1))
  }

  function KVAt(m: Model, tokens: seq<Token>, p: nat, layer: nat): KV
    requires p < |tokens|
    decreases layer, 2
  {
    m.project(layer, HiddenAt(m, tokens, p, layer))
  }

  /** The K/V a query at position p may see in a layer: those of positions 0..p, in order. */
  function VisibleKV(m: Model, tokens: seq<Token>, p: nat, layer: nat): (s: seq<KV>)
    requires p < |tokens|
    ensures |s| == p + 1
    ensures forall q :: 0 <= q <= p ==> s[q] == KVAt(m, tokens, q, layer)
    decreases layer, 3
  {
    seq(p + 1, q requires 0 <= q <= p => KVAt(m, tokens, q, layer))
  }

  function EntryAt(m: Model, tokens: seq<Token>, p: nat): (e: Entry)
    requires p < |tokens|
    ensures |e| == m.layers
    ensures forall l :: 0 <= l < m.layers ==> e[l] == KVAt(m, tokens, p, l)
  {
    seq(m.layers, l requires 0 <= l => KVAt(m, tokens, p, l))
  }

  /** The token a lone, unpaged run samples after `tokens`. */
  function NextToken(m: Model, tokens: seq<Token>): Token
    requires tokens != []
  {
    m.next(HiddenAt(m, tokens, |tokens| - 1, m.layers))
  }

  /** A position's activations depend on the tokens up to it and on nothing else. */
  lemma {:induction false} HiddenPrefix(m: Model, s: seq<Token>, t: seq<Token>, p: nat, layer: nat)
    requires p < |s| && p < |t| && s[..p + 1] == t[..p + 1]
    ensures HiddenAt(m, s, p, layer) == HiddenAt(m, t, p, layer)
    decreases layer
  {
    assert s[p] == s[..p + 1][p] == t[..p + 1][p] == t[p];
    if layer > 0 {
      var below := layer - 1;
      forall q | 0 <= q <= p ensures KVAt(m, s, q, below) == KVAt(m, t, q, below) {
        assert s[..q + 1] == s[..p + 1][..q + 1] == t[..p + 1][..q + 1] == t[..q + 1];
        HiddenPrefix(m, s, t, q, below);
      }
      assert VisibleKV(m, s, p, below) == VisibleKV(m, t, p, below);
      HiddenPrefix(m, s, t, p, below);
    }
  }

  lemma {:induction false} EntryPrefix(m: Model, s: seq<Token>, t: seq<Token>, p: nat)
    requires p < |s| && p < |t| && s[..p + 1] == t[..p + 1]
    ensures EntryAt(m, s, p) == EntryAt(m, t, p)
  {
    forall l | 0 <= l < m.layers ensures EntryAt(m, s, p)[l] == EntryAt(m, t, p)[l] {
      HiddenPrefix(m, s, t, p, l);
    }
  }
}
