// The hash-chained prefix cache: what a block hash stands for, which blocks a lookup returns, and
// what publishing a sequence's full blocks keeps.
module PrefixCache {
  import opened Basics
  import opened Paging
  import opened BlockPool

  lemma {:induction false} ChunkJoins(bs: nat, tokens: seq<Token>, i: nat)
    requires (i + 1) * bs <= |tokens|
    ensures 0 <= i * bs <= (i + 1) * bs && tokens[..i * bs] + Chunk(bs, tokens, i) == tokens[..(i + 1) * bs]
    ensures |Chunk(bs, tokens, i)| == bs
  {
    assert (i + 1) * bs == i * bs + bs;
  }

  /** The chained hash of block n - 1 stands for the first n * bs tokens, so the same block under
      another prefix has another hash. */
  lemma {:induction false} PrefixHashTokens(bs: nat, tokens: seq<Token>, n: nat)
    requires n * bs <= |tokens|
    ensures 0 <= n * bs && HashTokens(PrefixHash(bs, tokens, n)) == tokens[..n * bs]
  {
    if n > 0 {
      ChunkJoins(bs, tokens, n - 1);
      PrefixHashTokens(bs, tokens, n - 1);
    }
  }

  /** Two sequences have the same hash for block n - 1 exactly when they agree on all n blocks, not
      just on that block's own tokens. */
  lemma {:induction false} PrefixHashInjective(bs: nat, s: seq<Token>, t: seq<Token>, n: nat)
    requires n * bs <= |s| && n * bs <= |t|
    ensures 0 <= n * bs
    ensures PrefixHash(bs, s, n) == PrefixHash(bs, t, n) <==> s[..n * bs] == t[..n * bs]
  {
    PrefixHashTokens(bs, s, n);
    PrefixHashTokens(bs, t, n);
    if s[..n * bs] == t[..n * bs] {
      SamePrefixHash(bs, s, t, n);
    }
  }

  lemma {:induction false} SamePrefixHash(bs: nat, s: seq<Token>, t: seq<Token>, n: nat)
    requires 0 <= n * bs <= |s| && n * bs <= |t| && s[..n * bs] == t[..n * bs]
    ensures PrefixHash(bs, s, n) == PrefixHash(bs, t, n)
  {
    if n > 0 {
      ChunkJoins(bs, s, n - 1);
      ChunkJoins(bs, t, n - 1);
      var lo, hi := (n - 1) * bs, n * bs;
      assert s[..lo] == s[..hi][..lo] == t[..hi][..lo] == t[..lo];
      assert Chunk(bs, s, n - 1) == s[..hi][lo..] == t[..hi][lo..] == Chunk(bs, t, n - 1);
      SamePrefixHash(bs, s, t, n - 1);
    }
  }

  /** Memoised hashes stay correct when tokens are appended. */
  lemma {:induction false} HashesOkAppend(bs: nat, tokens: seq<Token>, more: seq<Token>, hashes: seq<Hash>)
    requires HashesOk(bs, tokens, hashes)
    ensures HashesOk(bs, tokens + more, hashes)
  {
    forall i | 0 <= i < |hashes|
      ensures hashes[i] == PrefixHash(bs, tokens + more, i + 1)
    {
      MulMono(i + 1, |hashes|, bs);
      var n := (i + 1) * bs;
      assert 0 <= n <= |tokens|;
      assert (tokens + more)[..n] == tokens[..n];
      SamePrefixHash(bs, tokens, tokens + more, i + 1);
    }
  }

  lemma {:induction false} ExtendHashesOk(bs: nat, tokens: seq<Token>, hashes: seq<Hash>, k: nat)
    requires HashesOk(bs, tokens, hashes) && k * bs <= |tokens|
    ensures var more := ExtendHashes(bs, tokens, hashes, k);
      && HashesOk(bs, tokens, more) && hashes <= more
      && |more| == (if |hashes| < k then k else |hashes|)
    decreases k - |hashes|
  {
    if |hashes| < k {
      var parent := if hashes == [] then Root else hashes[|hashes| - 1];
      assert parent == PrefixHash(bs, tokens, |hashes|);
      MulMono(|hashes| + 1, k, bs);
      hide Chunk;
      var next := hashes + [Chain(parent, Chunk(bs, tokens, |hashes|))];
      assert next[|hashes|] == PrefixHash(bs, tokens, |hashes| + 1);
      ExtendHashesOk(bs, tokens, next, k);
    }
  }

  function Depth(h: Hash): nat {
    match h
    case Root => 0
    case Chain(parent, _) => 1 + Depth(parent)
  }

  lemma {:induction false} PrefixHashDepth(bs: nat, tokens: seq<Token>, n: nat)
    ensures Depth(PrefixHash(bs, tokens, n)) == n
  {
    if n > 0 {
      PrefixHashDepth(bs, tokens, n - 1);
    }
  }

  // --- lookup -----------------------------------------------------------------------------------------

  /** A lookup returns the longest run of published hashes from the front, and the block of each. */
  lemma {:induction false} HitsLongest(p: Pool, hashes: seq<Hash>)
    ensures var hits := Hits(p, hashes);
      && |hits| <= |hashes|
      && (forall i :: 0 <= i < |hits| ==> hashes[i] in p.cached && hits[i] == p.cached[hashes[i]])
      && (|hits| < |hashes| ==> hashes[|hits|] !in p.cached)
  {
    if hashes != [] && hashes[0] in p.cached {
      HitsLongest(p, hashes[1..]);
      var hits := Hits(p, hashes);
      forall i | 0 <= i < |hits|
        ensures hashes[i] in p.cached && hits[i] == p.cached[hashes[i]]
      {
        if i > 0 {
          assert hits[i] == hits[1..][i - 1];
          assert hashes[i] == hashes[1..][i - 1];
        }
      }
    }
  }

  /** The hits of a sequence are distinct published blocks, each standing for the sequence's own
      tokens from the very first one. */
  lemma {:induction false} HitsAreOwnPrefix(n: nat, p: Pool, held: multiset<Block>, bs: nat, tokens: seq<Token>,
                                            hashes: seq<Hash>)
    requires Valid(n, p, held) && HashesOk(bs, tokens, hashes)
    ensures var hits := Hits(p, hashes);
      && |hits| <= |hashes| && Distinct(hits)
      && (forall i :: 0 <= i < |hits| ==> 0 <= hits[i] < n && HashOf(p, hits[i]) == Some(PrefixHash(bs, tokens, i + 1)))
      && (|hits| < |hashes| ==> forall b :: 0 <= b < n ==> HashOf(p, b) != Some(PrefixHash(bs, tokens, |hits| + 1)))
  {
    var hits := Hits(p, hashes);
    HitsLongest(p, hashes);
    hide Hits, Listed, Counted, PrefixHash;
    forall i, j | 0 <= i < j < |hits| ensures hits[i] != hits[j] {
      PrefixHashDepth(bs, tokens, i + 1);
      PrefixHashDepth(bs, tokens, j + 1);
    }
  }

  // --- publishing -------------------------------------------------------------------------------------

  lemma {:induction false} PublishOneValid(n: nat, p: Pool, held: multiset<Block>, b: Block, h: Hash)
    requires Valid(n, p, held) && b in held && HashOf(p, b) == None && h !in p.cached
    ensures Valid(n, PublishOne(p, b, h), held)
  {
    var q := PublishOne(p, b, h);
    assert forall c: Block :: HashOf(q, c) == if c == b then Some(h) else HashOf(p, c);
    assert Listed(n, q) by {
      hide Indexed;
    }
    assert Indexed(n, q) by {
      hide Listed;
    }
  }

  /** A hash that q has and p lacks belongs hi some table block i, lo <= i < hi, and is hashes[i]. */
  ghost predicate GainsOwn(p: Pool, q: Pool, table: seq<Block>, hashes: seq<Hash>, lo: nat, hi: nat)
    requires hi <= |table| && hi <= |hashes|
  {
    forall b: Block :: HashOf(q, b) == HashOf(p, b) || Gained(p, q, table, hashes, lo, hi, b)
  }

  ghost predicate Gained(p: Pool, q: Pool, table: seq<Block>, hashes: seq<Hash>, lo: nat, hi: nat, b: Block)
    requires hi <= |table| && hi <= |hashes|
  {
    HashOf(p, b) == None && exists i :: lo <= i < hi && b == table[i] && HashOf(q, b) == Some(hashes[i])
  }

  /** Table block i is unpublished, or published under hashes[i]. */
  ghost predicate OwnHash(p: Pool, table: seq<Block>, hashes: seq<Hash>, i: nat)
    requires i < |table| && i < |hashes|
  {
    HashOf(p, table[i]) == None || HashOf(p, table[i]) == Some(hashes[i])
  }

  /** Publishing gives hashes only hi blocks of the table, each its own, and leaves every requested
      hash findable. */
  lemma {:induction false} PublishValid(n: nat, p: Pool, held: multiset<Block>, table: seq<Block>, hashes: seq<Hash>,
                                        lo: nat, hi: nat)
    requires Valid(n, p, held) && hi <= |table| && hi <= |hashes|
    requires Distinct(table) && (forall b: Block :: b in table ==> b in held)
    requires forall i :: lo <= i < hi ==> OwnHash(p, table, hashes, i)
    ensures Valid(n, Publish(p, table, hashes, lo, hi), held)
    ensures GainsOwn(p, Publish(p, table, hashes, lo, hi), table, hashes, lo, hi)
    ensures p.cached.Keys <= Publish(p, table, hashes, lo, hi).cached.Keys
    ensures forall i :: lo <= i < hi ==> hashes[i] in Publish(p, table, hashes, lo, hi).cached
    decreases hi - lo
  {
    hide Valid, HashOf, PublishOne, GainsOwn, Gained;
    if lo < hi {
      var p1 := PublishOne(p, table[lo], hashes[lo]);
      assert table[lo] in table && OwnHash(p, table, hashes, lo);
      PublishStep(n, p, held, table[lo], hashes[lo]);
      forall i | lo + 1 <= i < hi ensures OwnHash(p1, table, hashes, i) {
        assert OwnHash(p, table, hashes, i);
      }
      PublishValid(n, p1, held, table, hashes, lo + 1, hi);
      GainsOwnStep(p, p1, Publish(p1, table, hashes, lo + 1, hi), table, hashes, lo, hi);
    } else {
      GainsNothing(p, table, hashes, lo, hi);
    }
  }

  lemma {:induction false} GainsNothing(p: Pool, table: seq<Block>, hashes: seq<Hash>, lo: nat, hi: nat)
    requires hi <= |table| && hi <= |hashes|
    ensures GainsOwn(p, p, table, hashes, lo, hi)
  {
  }

  lemma {:induction false} GainsOwnStep(p: Pool, p1: Pool, q: Pool, table: seq<Block>, hashes: seq<Hash>, lo: nat, hi: nat)
    requires lo < hi <= |table| && hi <= |hashes|
    requires forall c: Block ::
               HashOf(p1, c) == HashOf(p, c) || (c == table[lo] && HashOf(p, c) == None && HashOf(p1, c) == Some(hashes[lo]))
    requires GainsOwn(p1, q, table, hashes, lo + 1, hi)
    ensures GainsOwn(p, q, table, hashes, lo, hi)
  {
    hide HashOf;
    forall c: Block | HashOf(q, c) != HashOf(p, c) ensures Gained(p, q, table, hashes, lo, hi, c) {
      if HashOf(p1, c) == HashOf(p, c) {
        assert Gained(p1, q, table, hashes, lo + 1, hi, c);
      } else {
        assert c == table[lo];
        assert !Gained(p1, q, table, hashes, lo + 1, hi, c);
      }
    }
  }

  /** Publishing touches no count, list or host block. */
  lemma {:induction false} PublishKeeps(p: Pool, table: seq<Block>, hashes: seq<Hash>, lo: nat, hi: nat)
    ensures var q := Publish(p, table, hashes, lo, hi);
      q.refs == p.refs && q.free == p.free && q.evictable == p.evictable && q.cpuFree == p.cpuFree
    decreases hi - lo
  {
    if lo < hi && lo < |table| && lo < |hashes| {
      PublishKeeps(PublishOne(p, table[lo], hashes[lo]), table, hashes, lo + 1, hi);
    }
  }

  lemma {:induction false} PublishStep(n: nat, p: Pool, held: multiset<Block>, b: Block, h: Hash)
    requires Valid(n, p, held) && b in held && (HashOf(p, b) == None || HashOf(p, b) == Some(h))
    ensures var p1 := PublishOne(p, b, h);
            && Valid(n, p1, held)
            && h in p1.cached && p.cached.Keys <= p1.cached.Keys
            && (forall c: Block :: HashOf(p1, c) == HashOf(p, c) || (c == b && HashOf(p, c) == None && HashOf(p1, c) == Some(h)))
  {
    if HashOf(p, b).None? && h !in p.cached {
      PublishOneValid(n, p, held, b, h);
    }
    hide Listed;
  }
}
