/**
 * The k-hop neighbourhood sampler of GdsReadJob.handleKHopJob, run sequentially: supernode
 * adjacency caching, cached-or-live hops, k-hop expansion, re-orientation, and per-origin
 * deduplication on the packed edge key. Records and their numbering are in the KHopJob module.
 */
module KHop {
  import opened GraphModel
  import opened EdgeIndex
  import opened Degrees
  import opened Seqs

  /** `supernodeCache`: a supernode's id to the list of its edge triples. */
  type Cache = map<NodeId, seq<Edge>>

  /** Every cached list is exactly what a live hop from that node streams. */
  ghost predicate CacheFaithful(g: Graph, cache: Cache)
  {
    forall n :: n in cache ==> cache[n] == Live(g, n)
  }

  /** The cache the job builds: each supernode mapped to its live adjacency. */
  function CacheOf(g: Graph, superNodes: seq<NodeId>): Cache
  {
    map n | n in superNodes :: Live(g, n)
  }

  /** The built cache holds exactly the supernodes, each with the list a live hop would stream. */
  lemma CacheOfIsFaithful(g: Graph, superNodes: seq<NodeId>)
    ensures CacheOf(g, superNodes).Keys == set s | s in superNodes
    ensures CacheFaithful(g, CacheOf(g, superNodes))
  {
  }

  /** Materialises the adjacency of every supernode once, before any origin is expanded. */
  method BuildCache(g: Graph, superNodes: seq<NodeId>) returns (cache: Cache)
    ensures cache == CacheOf(g, superNodes)
  {
    cache := map[];
    for i := 0 to |superNodes|
      invariant cache == CacheOf(g, superNodes[..i])
    {
      var superNodeId := superNodes[i];
      assert superNodes[..i + 1] == superNodes[..i] + [superNodeId];
      cache := cache[superNodeId := Live(g, superNodeId)];
    }
    assert superNodes[..|superNodes|] == superNodes;
  }

  /** The choice `hop` makes: the cached list when there is one, the live stream otherwise. */
  function HopFrom(g: Graph, cache: Cache, n: NodeId): seq<Edge>
  {
    if n in cache then cache[n] else Live(g, n)
  }

  /** A hop served from a faithful cache yields the very sequence a live hop yields. */
  lemma CachedHopIsLive(g: Graph, cache: Cache, n: NodeId)
    requires CacheFaithful(g, cache)
    ensures HopFrom(g, cache, n) == Live(g, n)
    ensures HopFrom(g, cache, n) == HopFrom(g, map[], n)
  {
  }

  /** `hop`: the edges out of `n`, counting one cache hit when they come from the cache. */
  method Hop(g: Graph, cache: Cache, n: NodeId, cacheHits: nat) returns (edges: seq<Edge>, hits: nat)
    ensures n in cache ==> edges == cache[n] && hits == cacheHits + 1
    ensures n !in cache ==> edges == Live(g, n) && hits == cacheHits
  {
    if n in cache {
      hits := cacheHits + 1;
      edges := cache[n];
    } else {
      hits := cacheHits;
      edges := Live(g, n);
    }
  }

  /** One k-hop round: every edge, in order, followed by the hop from its target. */
  function Round(g: Graph, cache: Cache, s: seq<Edge>): seq<Edge>
    decreases |s|
  {
    if s == [] then []
    else
      var e := s[|s| - 1];
      Round(g, cache, s[..|s| - 1]) + [e] + HopFrom(g, cache, e.target)
  }

  /** The stream after `k` hops from `origin`: the first hop, then `k - 1` rounds. */
  function Expansion(g: Graph, cache: Cache, origin: NodeId, k: nat): seq<Edge>
    requires k >= 1
  {
    if k == 1 then HopFrom(g, cache, origin)
    else Round(g, cache, Expansion(g, cache, origin, k - 1))
  }

  /** How many edges of `s` lead to a cached node, i.e. cache hits when `s` is expanded. */
  function HitsIn(cache: Cache, s: seq<Edge>): nat
    decreases |s|
  {
    if s == [] then 0
    else HitsIn(cache, s[..|s| - 1]) + if s[|s| - 1].target in cache then 1 else 0
  }

  /** The cache hits that expanding `origin` to `k` hops produces. */
  function ExpansionHits(g: Graph, cache: Cache, origin: NodeId, k: nat): nat
    requires k >= 1
  {
    if k == 1 then (if origin in cache then 1 else 0)
    else ExpansionHits(g, cache, origin, k - 1) + HitsIn(cache, Expansion(g, cache, origin, k - 1))
  }

  /** The `flatMap` of one round, hopping from each edge's target in stream order. */
  method ExpandRound(g: Graph, cache: Cache, stream: seq<Edge>, cacheHits: nat)
    returns (next: seq<Edge>, hits: nat)
    ensures next == Round(g, cache, stream)
    ensures hits == cacheHits + HitsIn(cache, stream)
  {
    next, hits := [], cacheHits;
    for i := 0 to |stream|
      invariant next == Round(g, cache, stream[..i])
      invariant hits == cacheHits + HitsIn(cache, stream[..i])
    {
      var edge := stream[i];
      assert stream[..i + 1][..i] == stream[..i];
      var more;
      more, hits := Hop(g, cache, edge.target, hits);
      next := next + [edge] + more;
    }
    assert stream[..|stream|] == stream;
  }

  lemma ExpansionStep(g: Graph, cache: Cache, origin: NodeId, i: nat)
    requires i >= 1
    ensures Expansion(g, cache, origin, i + 1) == Round(g, cache, Expansion(g, cache, origin, i))
    ensures ExpansionHits(g, cache, origin, i + 1)
         == ExpansionHits(g, cache, origin, i) + HitsIn(cache, Expansion(g, cache, origin, i))
  {
  }

  /** The first hop from the origin, then `k - 1` rounds rebinding the stream. */
  method Expand(g: Graph, cache: Cache, origin: NodeId, k: nat, cacheHits: nat)
    returns (stream: seq<Edge>, hits: nat)
    requires k >= 1
    ensures stream == Expansion(g, cache, origin, k)
    ensures hits == cacheHits + ExpansionHits(g, cache, origin, k)
  {
    stream, hits := Hop(g, cache, origin, cacheHits);
    var i := 1;
    while i < k
      invariant 1 <= i <= k
      invariant stream == Expansion(g, cache, origin, i)
      invariant hits == cacheHits + ExpansionHits(g, cache, origin, i)
    {
      ExpansionStep(g, cache, origin, i);
      stream, hits := ExpandRound(g, cache, stream, hits);
      i := i + 1;
    }
  }

  /** A round keeps every edge of its input, in order, so it never shrinks the stream. */
  lemma {:induction false} RoundKeepsEdges(g: Graph, cache: Cache, s: seq<Edge>)
    ensures IsSubsequence(s, Round(g, cache, s))
    ensures |Round(g, cache, s)| >= |s|
    decreases |s|
  {
    if s == [] {
      var idx: seq<nat> := [];
      assert IsEmbedding(idx, s, Round(g, cache, s));
    } else {
      var init := s[..|s| - 1];
      var e := s[|s| - 1];
      RoundKeepsEdges(g, cache, init);
      SubsequenceSnoc(init, Round(g, cache, init), e, HopFrom(g, cache, e.target));
      assert init + [e] == s;
    }
  }

  /** Every edge of round i is still present, in order, in round i + 1. */
  lemma ExpansionGrows(g: Graph, cache: Cache, origin: NodeId, k: nat)
    requires k >= 1
    ensures IsSubsequence(Expansion(g, cache, origin, k), Expansion(g, cache, origin, k + 1))
    ensures |Expansion(g, cache, origin, k)| <= |Expansion(g, cache, origin, k + 1)|
  {
    RoundKeepsEdges(g, cache, Expansion(g, cache, origin, k));
  }

  /** A faithful cache does not alter a round. */
  lemma {:induction false} RoundIgnoresCache(g: Graph, cache: Cache, s: seq<Edge>)
    requires CacheFaithful(g, cache)
    ensures Round(g, cache, s) == Round(g, map[], s)
    decreases |s|
  {
    if s != [] {
      RoundIgnoresCache(g, cache, s[..|s| - 1]);
      CachedHopIsLive(g, cache, s[|s| - 1].target);
    }
  }

  /** A faithful cache does not alter the k-hop stream of any origin. */
  lemma {:induction false} ExpansionIgnoresCache(g: Graph, cache: Cache, origin: NodeId, k: nat)
    requires k >= 1
    requires CacheFaithful(g, cache)
    ensures Expansion(g, cache, origin, k) == Expansion(g, map[], origin, k)
  {
    if k == 1 {
      CachedHopIsLive(g, cache, origin);
    } else {
      ExpansionIgnoresCache(g, cache, origin, k - 1);
      RoundIgnoresCache(g, cache, Expansion(g, cache, origin, k - 1));
    }
  }

  /** Re-orientation: a natural triple keeps its direction, any other is turned around. */
  function Reorient(e: Edge): Pair
  {
    if e.natural then Pair(LongOf(e.source), LongOf(e.target))
    else Pair(LongOf(e.target), LongOf(e.source))
  }

  /**
   * The canonical pair does not depend on the direction a relationship was stored in: the same
   * relationship seen from the other end, with the opposite flag, gives the same pair; and the
   * pair's endpoints are the triple's.
   */
  lemma ReorientIsCanonical(e: Edge)
    ensures Reorient(Edge(e.target, e.source, !e.natural)) == Reorient(e)
    ensures {Reorient(e).left, Reorient(e).right} == {LongOf(e.source), LongOf(e.target)}
    ensures Reorient(e).left == LongOf(if e.natural then e.source else e.target)
  {
  }

  /** The re-orienting `map` over a stream. */
  function ReorientAll(s: seq<Edge>): seq<Pair>
  {
    seq(|s|, i requires 0 <= i < |s| => Reorient(s[i]))
  }

  /** The `map` is element-wise, so it distributes over concatenation of stream segments. */
  lemma ReorientAllAppend(a: seq<Edge>, b: seq<Edge>)
    ensures ReorientAll(a + b) == ReorientAll(a) + ReorientAll(b)
  {
    var l, r := ReorientAll(a + b), ReorientAll(a) + ReorientAll(b);
    forall i | 0 <= i < |a| + |b|
      ensures l[i] == r[i]
    {
      if i < |a| {
        assert (a + b)[i] == a[i];
      } else {
        assert (a + b)[i] == b[i - |a|];
      }
    }
  }

  /** Ids below 2^31 give pairs whose keys cannot collide. */
  lemma SmallIdsFit(e: Edge)
    requires e.source < TWO_31 && e.target < TWO_31
    ensures KeyFits(Reorient(e))
  {
    LongOfBelow(e.source);
    LongOfBelow(e.target);
  }

  /** The keys of a sequence of pairs. */
  function KeySet(s: seq<Pair>): set<bv64>
    decreases |s|
  {
    if s == [] then {} else KeySet(s[..|s| - 1]) + {Key(s[|s| - 1])}
  }

  /** The filter `relHistory.add(index(edge))` from an empty history: first occurrences by key. */
  function Kept(s: seq<Pair>): seq<Pair>
    decreases |s|
  {
    if s == [] then []
    else
      var init := s[..|s| - 1];
      Kept(init) + if Key(s[|s| - 1]) in KeySet(init) then [] else [s[|s| - 1]]
  }

  lemma {:induction false} KeySetMembers(s: seq<Pair>)
    ensures forall key :: key in KeySet(s) <==> exists i :: 0 <= i < |s| && Key(s[i]) == key
    decreases |s|
  {
    if s != [] {
      var init := s[..|s| - 1];
      KeySetMembers(init);
      assert forall i :: 0 <= i < |init| ==> init[i] == s[i];
    }
  }

  /** The retained pairs are a subsequence of the re-oriented stream. */
  lemma {:induction false} KeptIsSubsequence(s: seq<Pair>)
    ensures IsSubsequence(Kept(s), s)
    decreases |s|
  {
    if s == [] {
      var idx: seq<nat> := [];
      assert IsEmbedding(idx, Kept(s), s);
    } else {
      var init := s[..|s| - 1];
      var last := s[|s| - 1];
      KeptIsSubsequence(init);
      assert init + [last] == s;
      if Key(last) in KeySet(init) {
        assert Kept(s) == Kept(init);
        SubsequenceOfPrefix(Kept(init), init, [last]);
      } else {
        assert Kept(s) == Kept(init) + [last];
        assert init + [last] + [] == s;
        SubsequenceSnoc(Kept(init), init, last, []);
      }
    }
  }

  /** Every key of the stream is retained, and nothing else: the retained keys are the seen keys. */
  lemma {:induction false} KeptKeys(s: seq<Pair>)
    ensures KeySet(Kept(s)) == KeySet(s)
    decreases |s|
  {
    if s != [] {
      var init := s[..|s| - 1];
      var last := s[|s| - 1];
      KeptKeys(init);
      assert KeySet(s) == KeySet(init) + {Key(last)};
      if Key(last) !in KeySet(init) {
        var k := Kept(init) + [last];
        assert Kept(s) == k;
        assert k[..|k| - 1] == Kept(init);
        assert KeySet(k) == KeySet(Kept(init)) + {Key(last)};
      } else {
        assert Kept(s) == Kept(init);
      }
    }
  }

  /** No two retained pairs share a key. */
  lemma {:induction false} KeptKeysDistinct(s: seq<Pair>)
    ensures forall i, j :: 0 <= i < j < |Kept(s)| ==> Key(Kept(s)[i]) != Key(Kept(s)[j])
    decreases |s|
  {
    if s != [] {
      var init := s[..|s| - 1];
      var last := s[|s| - 1];
      KeptKeysDistinct(init);
      if Key(last) !in KeySet(init) {
        KeptKeys(init);
        KeySetMembers(Kept(init));
      }
    }
  }

  /** The first occurrence of every key is retained. */
  lemma {:induction false} KeptFirstOccurrences(s: seq<Pair>, i: nat)
    requires i < |s|
    requires Key(s[i]) !in KeySet(s[..i])
    ensures s[i] in Kept(s)
    decreases |s|
  {
    var init := s[..|s| - 1];
    if i < |s| - 1 {
      assert init[..i] == s[..i];
      KeptFirstOccurrences(init, i);
    } else {
      assert init == s[..i];
    }
  }

  /**
   * When every pair fits the key's bit ranges, deduplication by key is deduplication by pair:
   * the retained pairs are the distinct pairs of the stream, each exactly once.
   */
  lemma KeptPairsDistinct(s: seq<Pair>)
    requires forall p :: p in s ==> KeyFits(p)
    ensures NoDuplicates(Kept(s))
    ensures forall p :: p in Kept(s) <==> p in s
  {
    KeptKeysDistinct(s);
    KeptKeys(s);
    KeptIsSubsequence(s);
    var kept := Kept(s);
    var idx: seq<nat> :| IsEmbedding(idx, kept, s);
    forall i, j | 0 <= i < j < |kept|
      ensures kept[i] != kept[j]
    {
      assert kept[i] == s[idx[i]];
    }
    forall p | p in s
      ensures p in kept
    {
      var i :| 0 <= i < |s| && s[i] == p;
      KeySetMembers(s);
      KeySetMembers(kept);
      assert Key(s[i]) == Key(p);
      assert Key(p) in KeySet(kept);
      var j :| 0 <= j < |kept| && Key(kept[j]) == Key(p);
      assert kept[j] == s[idx[j]];
      KeyInjective(kept[j], p);
    }
    forall p | p in kept
      ensures p in s
    {
      var j :| 0 <= j < |kept| && kept[j] == p;
      assert p == s[idx[j]];
    }
  }

  /**
   * The per-origin filter: a fresh `relHistory`, and each pair kept when adding its key to
   * the history adds something new.
   */
  method Deduplicate(pairs: seq<Pair>) returns (kept: seq<Pair>, relHistory: set<bv64>)
    ensures kept == Kept(pairs)
    ensures relHistory == KeySet(pairs)
  {
    kept, relHistory := [], {};
    for i := 0 to |pairs|
      invariant kept == Kept(pairs[..i])
      invariant relHistory == KeySet(pairs[..i])
    {
      var edge := pairs[i];
      assert pairs[..i + 1][..i] == pairs[..i];
      var key := Key(edge);
      var added := key !in relHistory;
      relHistory := relHistory + {key};
      if added {
        kept := kept + [edge];
      }
    }
    assert pairs[..|pairs|] == pairs;
  }
}
