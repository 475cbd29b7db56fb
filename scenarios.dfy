/**
 * A worked example: a star of five nodes where node 0 is linked to nodes 1 .. 4. Node 0 stores
 * each relationship in its natural direction; each leaf stores the same relationship turned
 * around, with a property value, so it is re-oriented back to (0, leaf).
 */
module Scenarios {
  import opened GraphModel
  import opened EdgeIndex
  import opened Degrees
  import opened KHop
  import opened KHopJob

  function StarRelationships(n: NodeId): seq<Cursor>
  {
    if n == 0 then [Cursor(0, 1, NaN), Cursor(0, 2, NaN), Cursor(0, 3, NaN), Cursor(0, 4, NaN)]
    else if n < 5 then [Cursor(n, 0, Value(1.0))]
    else []
  }

  function Star(): Graph
  {
    Graph(5, (n: NodeId) => |StarRelationships(n)|, StarRelationships, (n: nat) => {})
  }

  /** No node of the star reaches degree 100, so there are no supernodes. */
  lemma StarHasNoSupernodes()
    ensures SupernodesOf(Star(), 5) == []
  {
    var g := Star();
    assert Magnitude(g.degree(0)) == 1;
    assert forall n: NodeId :: n < 5 ==> g.degree(n) <= 4;
    forall n: NodeId | n < 5
      ensures !IsSupernodeDegree(g.degree(n))
    {
      SupernodeIffDegreeAtLeast100(g.degree(n));
    }
  }

  /** The spokes of the star as the k-hop stream carries them, before and after re-orientation. */
  lemma StarCentreHop()
    ensures ReorientAll(Expansion(Star(), map[], 0, 1)) == [Pair(0, 1), Pair(0, 2), Pair(0, 3), Pair(0, 4)]
  {
    var e := [Edge(0, 1, true), Edge(0, 2, true), Edge(0, 3, true), Edge(0, 4, true)];
    assert Live(Star(), 0) == e;
    assert LongOf(0) == 0 && LongOf(1) == 1 && LongOf(2) == 2 && LongOf(3) == 3 && LongOf(4) == 4;
  }

  /** The key of a spoke (0, leaf) is the leaf's id. */
  lemma SpokeKey(leaf: bv64)
    ensures Key(Pair(0, leaf)) == leaf
  {
    MaskClearsNoBits(0, leaf);
  }

  /** Filtering one more pair against the keys seen so far. */
  lemma KeptSnoc(s: seq<Pair>, p: Pair)
    ensures Kept(s + [p]) == Kept(s) + if Key(p) in KeySet(s) then [] else [p]
    ensures KeySet(s + [p]) == KeySet(s) + {Key(p)}
  {
    assert (s + [p])[..|s|] == s;
  }

  /** One hop from the centre yields the four spokes as distinct canonical pairs. */
  lemma StarOneHop()
    ensures OriginPairs(Star(), map[], 0, 1) == [Pair(0, 1), Pair(0, 2), Pair(0, 3), Pair(0, 4)]
  {
    StarCentreHop();
    var s0: seq<Pair> := [];
    var s1 := s0 + [Pair(0, 1)];
    var s2 := s1 + [Pair(0, 2)];
    var s3 := s2 + [Pair(0, 3)];
    var s4 := s3 + [Pair(0, 4)];
    SpokeKey(1);
    KeptSnoc(s0, Pair(0, 1));
    assert Kept(s1) == s1 && KeySet(s1) == {1};
    SpokeKey(2);
    KeptSnoc(s1, Pair(0, 2));
    assert Kept(s2) == s2 && KeySet(s2) == {1, 2};
    SpokeKey(3);
    KeptSnoc(s2, Pair(0, 3));
    assert Kept(s3) == s3 && KeySet(s3) == {1, 2, 3};
    SpokeKey(4);
    KeptSnoc(s3, Pair(0, 4));
    assert Kept(s4) == s4;
    assert s4 == [Pair(0, 1), Pair(0, 2), Pair(0, 3), Pair(0, 4)];
  }

  /** A leaf's only relationship, stored towards the centre and not natural. */
  lemma StarLeafHop(leaf: NodeId)
    requires 1 <= leaf < 5
    ensures Live(Star(), leaf) == [Edge(leaf, 0, false)]
  {
  }

  /** Expanding one more edge of a round. */
  lemma RoundSnoc(g: Graph, cache: Cache, s: seq<Edge>, e: Edge)
    ensures Round(g, cache, s + [e]) == Round(g, cache, s) + [e] + HopFrom(g, cache, e.target)
  {
    assert (s + [e])[..|s|] == s;
  }

  /** Two hops from the centre: out along each spoke, then back from the leaf. */
  lemma StarTwoHopStream()
    ensures Expansion(Star(), map[], 0, 2)
         == [Edge(0, 1, true), Edge(1, 0, false), Edge(0, 2, true), Edge(2, 0, false),
             Edge(0, 3, true), Edge(3, 0, false), Edge(0, 4, true), Edge(4, 0, false)]
  {
    var g := Star();
    var out := [Edge(0, 1, true), Edge(0, 2, true), Edge(0, 3, true), Edge(0, 4, true)];
    assert Live(g, 0) == out;
    assert Expansion(g, map[], 0, 1) == out;
    var r0: seq<Edge> := [];
    var r1 := r0 + [out[0]] + [Edge(1, 0, false)];
    var r2 := r1 + [out[1]] + [Edge(2, 0, false)];
    var r3 := r2 + [out[2]] + [Edge(3, 0, false)];
    var r4 := r3 + [out[3]] + [Edge(4, 0, false)];
    StarLeafHop(1);
    RoundSnoc(g, map[], [], out[0]);
    assert [] + [out[0]] == out[..1];
    assert Round(g, map[], out[..1]) == r1;
    StarLeafHop(2);
    RoundSnoc(g, map[], out[..1], out[1]);
    assert out[..1] + [out[1]] == out[..2];
    assert Round(g, map[], out[..2]) == r2;
    StarLeafHop(3);
    RoundSnoc(g, map[], out[..2], out[2]);
    assert out[..2] + [out[2]] == out[..3];
    assert Round(g, map[], out[..3]) == r3;
    StarLeafHop(4);
    RoundSnoc(g, map[], out[..3], out[3]);
    assert out[..3] + [out[3]] == out;
    assert Expansion(g, map[], 0, 2) == r4;
  }

  /** Re-oriented, the two-hop stream of the centre is every spoke twice. */
  lemma StarTwoHopPairs()
    ensures ReorientAll(Expansion(Star(), map[], 0, 2)) == [Pair(0, 1), Pair(0, 1), Pair(0, 2), Pair(0, 2),
                                                           Pair(0, 3), Pair(0, 3), Pair(0, 4), Pair(0, 4)]
  {
    StarTwoHopStream();
    assert LongOf(0) == 0 && LongOf(1) == 1 && LongOf(2) == 2 && LongOf(3) == 3 && LongOf(4) == 4;
  }

  /** The filter keeps the first of each repeated spoke. */
  lemma StarTwoHopsDeduplicated()
    ensures Kept([Pair(0, 1), Pair(0, 1), Pair(0, 2), Pair(0, 2), Pair(0, 3), Pair(0, 3), Pair(0, 4), Pair(0, 4)])
         == [Pair(0, 1), Pair(0, 2), Pair(0, 3), Pair(0, 4)]
  {
    var s0: seq<Pair> := [];
    var s1 := s0 + [Pair(0, 1)];
    var s2 := s1 + [Pair(0, 1)];
    var s3 := s2 + [Pair(0, 2)];
    var s4 := s3 + [Pair(0, 2)];
    var s5 := s4 + [Pair(0, 3)];
    var s6 := s5 + [Pair(0, 3)];
    var s7 := s6 + [Pair(0, 4)];
    var s8 := s7 + [Pair(0, 4)];
    assert s8 == [Pair(0, 1), Pair(0, 1), Pair(0, 2), Pair(0, 2), Pair(0, 3), Pair(0, 3), Pair(0, 4), Pair(0, 4)];
    SpokeKey(1);
    SpokeKey(2);
    SpokeKey(3);
    SpokeKey(4);
    KeptSnoc(s0, Pair(0, 1));
    assert Kept(s1) == [Pair(0, 1)] && KeySet(s1) == {1};
    KeptSnoc(s1, Pair(0, 1));
    assert Kept(s2) == [Pair(0, 1)] && KeySet(s2) == {1};
    KeptSnoc(s2, Pair(0, 2));
    assert Kept(s3) == [Pair(0, 1), Pair(0, 2)] && KeySet(s3) == {1, 2};
    KeptSnoc(s3, Pair(0, 2));
    assert Kept(s4) == [Pair(0, 1), Pair(0, 2)] && KeySet(s4) == {1, 2};
    KeptSnoc(s4, Pair(0, 3));
    assert Kept(s5) == [Pair(0, 1), Pair(0, 2), Pair(0, 3)] && KeySet(s5) == {1, 2, 3};
    KeptSnoc(s5, Pair(0, 3));
    assert Kept(s6) == [Pair(0, 1), Pair(0, 2), Pair(0, 3)] && KeySet(s6) == {1, 2, 3};
    KeptSnoc(s6, Pair(0, 4));
    assert Kept(s7) == [Pair(0, 1), Pair(0, 2), Pair(0, 3), Pair(0, 4)] && KeySet(s7) == {1, 2, 3, 4};
    KeptSnoc(s7, Pair(0, 4));
  }

  /**
   * Two hops from the centre walk every spoke out and back, so each spoke is seen twice, once
   * from each end; the filter keeps each once, and the same four pairs come out as for one hop.
   */
  lemma StarTwoHops()
    ensures |Expansion(Star(), map[], 0, 2)| == 8
    ensures OriginPairs(Star(), map[], 0, 2) == [Pair(0, 1), Pair(0, 2), Pair(0, 3), Pair(0, 4)]
  {
    StarTwoHopStream();
    StarTwoHopPairs();
    StarTwoHopsDeduplicated();
  }
}
