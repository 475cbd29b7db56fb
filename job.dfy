/**
 * The output stage and the driver of the k-hop job: every retained pair of every origin becomes
 * one subgraph record, handed to the consumer with a running row index; origins are visited in
 * node order, or in some permutation of the nodes when supernodes were found.
 */
module KHopJob {
  import opened GraphModel
  import opened EdgeIndex
  import opened Degrees
  import opened Seqs
  import opened KHop

  const TWO_32: int := 0x1_0000_0000

  /** The record emitted for one retained pair: internal ids, labels, and the literal type "REL". */
  datatype SubGraphRecord = SubGraphRecord(
    origin: NodeId,
    source: bv64, sourceLabels: set<string>,
    relType: string,
    target: bv64, targetLabels: set<string>)

  /** A record as the consumer receives it, with its row index. */
  datatype Row = Row(record: SubGraphRecord, index: int)

  /** The value of a Java `AtomicInteger` started at 0 after `n` increments: 32-bit wrap-around. */
  function Int32(n: nat): (v: int)
    ensures -TWO_31 <= v < TWO_31
    ensures (v - n) % TWO_32 == 0
  {
    var m := n % TWO_32;
    if m < TWO_31 then m else m - TWO_32
  }

  /** Java's `Math.abs` on an `int`: the minimum value is its own absolute value. */
  function AbsInt32(v: int): (r: int)
    requires -TWO_31 <= v < TWO_31
    ensures r == -TWO_31 <==> v == -TWO_31
    ensures r != -TWO_31 ==> 0 <= r && (r == v || r == -v)
  {
    if v == -TWO_31 then v else if v < 0 then -v else v
  }

  /** The index handed out with the `n`-th delivered row: `Math.abs(x.getAndIncrement())`. */
  function RowIndex(n: nat): int
  {
    AbsInt32(Int32(n))
  }

  /** Below 2^31 rows the index is the row's position: 0, 1, 2, ... */
  lemma RowIndexIsPosition(n: nat)
    requires n < TWO_31
    ensures RowIndex(n) == n
  {
  }

  /** The index is negative exactly at the rows where the counter holds the minimum `int`. */
  lemma RowIndexNegative(n: nat)
    ensures RowIndex(n) < 0 <==> n % TWO_32 == TWO_31
  {
  }

  /** Past 2^31 rows the counter wraps: the next index is -2^31, and then indices repeat. */
  lemma RowIndexWraps()
    ensures RowIndex(TWO_31) == -TWO_31
    ensures RowIndex(TWO_31 + 1) == TWO_31 - 1 == RowIndex(TWO_31 - 1)
    ensures RowIndex(TWO_32) == 0 == RowIndex(0)
  {
  }

  /** The record of one retained pair of `origin`, with the labels of both endpoints. */
  function RecordOf(g: Graph, origin: NodeId, p: Pair): SubGraphRecord
  {
    SubGraphRecord(origin,
      p.left, g.nodeLabels(p.left as int),
      "REL",
      p.right, g.nodeLabels(p.right as int))
  }

  /** The records of an origin's retained pairs, one per pair, in order. */
  /**
   * One record per pair, in order; each carries the origin, the pair's left and right ids in
   * that order, the labels of those two nodes, and the type "REL".
   */
  function Records(g: Graph, origin: NodeId, ps: seq<Pair>): (r: seq<SubGraphRecord>)
    ensures |r| == |ps|
    ensures forall i :: 0 <= i < |ps| ==>
      && r[i].origin == origin
      && r[i].relType == "REL"
      && Pair(r[i].source, r[i].target) == ps[i]
      && r[i].sourceLabels == g.nodeLabels(ps[i].left as int)
      && r[i].targetLabels == g.nodeLabels(ps[i].right as int)
  {
    seq(|ps|, i requires 0 <= i < |ps| => RecordOf(g, origin, ps[i]))
  }

  /** Records delivered from counter value `start` on, each with its row index. */
  function Numbered(recs: seq<SubGraphRecord>, start: nat): seq<Row>
  {
    seq(|recs|, i requires 0 <= i < |recs| => Row(recs[i], RowIndex(start + i)))
  }

  /** Delivering two batches in turn numbers the second after the first. */
  lemma NumberedAppend(a: seq<SubGraphRecord>, b: seq<SubGraphRecord>, start: nat)
    ensures Numbered(a + b, start) == Numbered(a, start) + Numbered(b, start + |a|)
  {
    assert forall i :: 0 <= i < |a| + |b| ==>
      Numbered(a + b, start)[i] == (Numbered(a, start) + Numbered(b, start + |a|))[i];
  }

  /** From a fresh counter, a batch delivered after `done` is numbered from `|done|`. */
  lemma NumberedFromZero(all: seq<SubGraphRecord>, done: seq<SubGraphRecord>, recs: seq<SubGraphRecord>)
    requires all == done + recs
    ensures Numbered(all, 0) == Numbered(done, 0) + Numbered(recs, |done|)
  {
    NumberedAppend(done, recs, 0);
  }

  /** From a fresh counter, row i is numbered i for every row below 2^31. */
  lemma RowsNumberedByPosition(recs: seq<SubGraphRecord>, i: nat)
    requires i < |recs| && i < TWO_31
    ensures Numbered(recs, 0)[i].index == i
    ensures Numbered(recs, 0)[i].record == recs[i]
  {
    RowIndexIsPosition(i);
  }

  /**
   * The delivery loop of the `peek`: each record is handed to the consumer with the counter's
   * current value, and the counter moves on by one.
   */
  method Emit(g: Graph, origin: NodeId, kept: seq<Pair>, x: nat) returns (rows: seq<Row>, x': nat)
    ensures rows == Numbered(Records(g, origin, kept), x)
    ensures x' == x + |kept|
  {
    rows, x' := [], x;
    for i := 0 to |kept|
      invariant x' == x + i
      invariant rows == Numbered(Records(g, origin, kept[..i]), x)
    {
      var edge := kept[i];
      assert kept[..i + 1] == kept[..i] + [edge];
      NumberedAppend(Records(g, origin, kept[..i]), [RecordOf(g, origin, edge)], x);
      assert Records(g, origin, kept[..i + 1]) == Records(g, origin, kept[..i]) + [RecordOf(g, origin, edge)];
      rows := rows + [Row(RecordOf(g, origin, edge), RowIndex(x'))];
      x' := x' + 1;
    }
    assert kept[..|kept|] == kept;
  }

  /** The pairs retained for `origin`: expand, re-orient, and filter against a fresh history. */
  function OriginPairs(g: Graph, cache: Cache, origin: NodeId, k: nat): seq<Pair>
    requires k >= 1
  {
    Kept(ReorientAll(Expansion(g, cache, origin, k)))
  }

  /**
   * With every id below 2^31, an origin's retained pairs are the distinct re-oriented edges of its
   * k-hop stream, each exactly once.
   */
  lemma OriginPairsDistinct(g: Graph, cache: Cache, origin: NodeId, k: nat)
    requires k >= 1
    requires forall e :: e in Expansion(g, cache, origin, k) ==> e.source < TWO_31 && e.target < TWO_31
    ensures NoDuplicates(OriginPairs(g, cache, origin, k))
    ensures forall e :: e in Expansion(g, cache, origin, k) ==> Reorient(e) in OriginPairs(g, cache, origin, k)
    ensures forall p :: p in OriginPairs(g, cache, origin, k) ==>
              exists e :: e in Expansion(g, cache, origin, k) && Reorient(e) == p
  {
    var s := Expansion(g, cache, origin, k);
    var ps := ReorientAll(s);
    forall p | p in ps
      ensures KeyFits(p)
    {
      var i :| 0 <= i < |ps| && ps[i] == p;
      SmallIdsFit(s[i]);
    }
    KeptPairsDistinct(ps);
    forall e | e in s
      ensures Reorient(e) in ps
    {
      var i :| 0 <= i < |s| && s[i] == e;
      assert ps[i] == Reorient(e);
    }
    forall p | p in Kept(ps)
      ensures exists e :: e in s && Reorient(e) == p
    {
      var i :| 0 <= i < |ps| && ps[i] == p;
      assert s[i] in s;
    }
  }

  /** One origin of the `flatMap`: its k-hop stream, re-orientation, filter and delivery. */
  method SampleOrigin(g: Graph, cache: Cache, origin: NodeId, k: nat, cacheHits: nat, x: nat)
    returns (rows: seq<Row>, hits: nat, x': nat)
    requires k >= 1
    ensures rows == Numbered(Records(g, origin, OriginPairs(g, cache, origin, k)), x)
    ensures hits == cacheHits + ExpansionHits(g, cache, origin, k)
    ensures x' == x + |OriginPairs(g, cache, origin, k)|
  {
    var stream;
    stream, hits := Expand(g, cache, origin, k, cacheHits);
    var relHistory;
    var kept;
    kept, relHistory := Deduplicate(ReorientAll(stream));
    rows, x' := Emit(g, origin, kept, x);
  }

  /** The origins `0 .. n-1` in node order. */
  function Origins(n: nat): seq<NodeId>
    requires n <= TWO_63
    decreases n
  {
    if n == 0 then [] else Origins(n - 1) + [n - 1]
  }

  lemma {:induction false} OriginsInOrder(n: nat)
    requires n <= TWO_63
    ensures |Origins(n)| == n
    ensures forall i :: 0 <= i < n ==> Origins(n)[i] == i
    decreases n
  {
    if n > 0 {
      OriginsInOrder(n - 1);
    }
  }

  /** Every node below `n` occurs in `Origins(n)` exactly once, and no other value occurs. */
  lemma {:induction false} OriginsOnce(n: nat)
    requires n <= TWO_63
    ensures forall v: NodeId :: multiset(Origins(n))[v] == if v < n then 1 else 0
    decreases n
  {
    if n > 0 {
      OriginsOnce(n - 1);
      assert multiset(Origins(n)) == multiset(Origins(n - 1)) + multiset{(n - 1) as NodeId};
    }
  }

  /** The order origins are visited in: random when supernodes were found, node order otherwise. */
  function VisitOrder(superNodes: seq<NodeId>, nodeCount: NodeId, randomOrder: seq<NodeId>): seq<NodeId>
  {
    if |superNodes| > 0 then randomOrder else Origins(nodeCount)
  }

  /**
   * Given a random order that is a permutation of the nodes, every node is visited exactly once,
   * and without supernodes the visit is in node order.
   */
  lemma VisitOrderIsPermutation(superNodes: seq<NodeId>, nodeCount: NodeId, randomOrder: seq<NodeId>)
    requires multiset(randomOrder) == multiset(Origins(nodeCount))
    ensures forall v: NodeId :: multiset(VisitOrder(superNodes, nodeCount, randomOrder))[v] == if v < nodeCount then 1 else 0
    ensures |superNodes| == 0 ==> VisitOrder(superNodes, nodeCount, randomOrder) == Origins(nodeCount)
  {
    OriginsOnce(nodeCount);
  }

  /** All records of the job, origin after origin in visit order. */
  function JobRecords(g: Graph, cache: Cache, k: nat, order: seq<NodeId>): seq<SubGraphRecord>
    requires k >= 1
    decreases |order|
  {
    if order == [] then []
    else
      var origin := order[|order| - 1];
      JobRecords(g, cache, k, order[..|order| - 1]) + Records(g, origin, OriginPairs(g, cache, origin, k))
  }

  /** The cache hits of the whole job. */
  function JobHits(g: Graph, cache: Cache, k: nat, order: seq<NodeId>): nat
    requires k >= 1
    decreases |order|
  {
    if order == [] then 0
    else JobHits(g, cache, k, order[..|order| - 1]) + ExpansionHits(g, cache, order[|order| - 1], k)
  }

  /** The sum over the visited origins of how many pairs each retains. */
  function KeptTotal(g: Graph, cache: Cache, k: nat, order: seq<NodeId>): nat
    requires k >= 1
    decreases |order|
  {
    if order == [] then 0
    else KeptTotal(g, cache, k, order[..|order| - 1]) + |OriginPairs(g, cache, order[|order| - 1], k)|
  }

  /** The job's row count is the sum of the retained pairs of its origins. */
  lemma {:induction false} RowsAreKeptTotal(g: Graph, cache: Cache, k: nat, order: seq<NodeId>)
    requires k >= 1
    ensures |JobRecords(g, cache, k, order)| == KeptTotal(g, cache, k, order)
    decreases |order|
  {
    if order != [] {
      RowsAreKeptTotal(g, cache, k, order[..|order| - 1]);
    }
  }

  /** A faithful cache changes no record of the job: the cache only saves work. */
  lemma {:induction false} JobRecordsIgnoreCache(g: Graph, cache: Cache, k: nat, order: seq<NodeId>)
    requires k >= 1
    requires CacheFaithful(g, cache)
    ensures JobRecords(g, cache, k, order) == JobRecords(g, map[], k, order)
    decreases |order|
  {
    if order != [] {
      JobRecordsIgnoreCache(g, cache, k, order[..|order| - 1]);
      ExpansionIgnoresCache(g, cache, order[|order| - 1], k);
    }
  }

  /** Visiting one more origin appends its records and adds its cache hits. */
  lemma JobStep(g: Graph, cache: Cache, k: nat, order: seq<NodeId>, i: nat)
    requires k >= 1
    requires i < |order|
    ensures JobRecords(g, cache, k, order[..i + 1])
         == JobRecords(g, cache, k, order[..i]) + Records(g, order[i], OriginPairs(g, cache, order[i], k))
    ensures JobHits(g, cache, k, order[..i + 1])
         == JobHits(g, cache, k, order[..i]) + ExpansionHits(g, cache, order[i], k)
  {
    assert order[..i + 1][..i] == order[..i];
  }

  /** The records of one more origin are numbered after those delivered before it. */
  lemma JobStepNumbered(g: Graph, cache: Cache, k: nat, order: seq<NodeId>, i: nat)
    requires k >= 1
    requires i < |order|
    ensures Numbered(JobRecords(g, cache, k, order[..i + 1]), 0)
         == Numbered(JobRecords(g, cache, k, order[..i]), 0)
          + Numbered(Records(g, order[i], OriginPairs(g, cache, order[i], k)), |JobRecords(g, cache, k, order[..i])|)
  {
    JobStep(g, cache, k, order, i);
    NumberedFromZero(JobRecords(g, cache, k, order[..i + 1]), JobRecords(g, cache, k, order[..i]),
      Records(g, order[i], OriginPairs(g, cache, order[i], k)));
  }

  /** The `flatMap` over all origins followed by `peek` and `count`. */
  method SampleAll(g: Graph, cache: Cache, k: nat, order: seq<NodeId>)
    returns (delivered: seq<Row>, rows: nat, cacheHits: nat)
    requires k >= 1
    ensures delivered == Numbered(JobRecords(g, cache, k, order), 0)
    ensures rows == |delivered|
    ensures cacheHits == JobHits(g, cache, k, order)
  {
    var x: nat := 0;
    delivered, rows, cacheHits := [], 0, 0;
    for i := 0 to |order|
      invariant delivered == Numbered(JobRecords(g, cache, k, order[..i]), 0)
      invariant x == |delivered| == rows
      invariant cacheHits == JobHits(g, cache, k, order[..i])
    {
      var origin := order[i];
      JobStep(g, cache, k, order, i);
      JobStepNumbered(g, cache, k, order, i);
      var more;
      more, cacheHits, x := SampleOrigin(g, cache, origin, k, cacheHits, x);
      delivered := delivered + more;
      rows := rows + |more|;
    }
    assert order[..|order|] == order;
  }

  /**
   * `handleKHopJob`, run sequentially: scan degrees, cache the supernodes, visit every origin,
   * and deliver its rows. The rows delivered are those of the cache-free definition, numbered
   * from 0, and `rows` counts them.
   */
  method RunKHopJob(g: Graph, k: nat, randomOrder: seq<NodeId>)
    returns (delivered: seq<Row>, rows: nat, cacheHits: nat)
    requires k >= 1
    requires multiset(randomOrder) == multiset(Origins(g.nodeCount))
    ensures delivered == Numbered(JobRecords(g, map[], k, VisitOrder(SupernodesOf(g, g.nodeCount), g.nodeCount, randomOrder)), 0)
    ensures rows == |delivered|
    ensures cacheHits == JobHits(g, CacheOf(g, SupernodesOf(g, g.nodeCount)), k, VisitOrder(SupernodesOf(g, g.nodeCount), g.nodeCount, randomOrder))
  {
    var histogram, superNodes := ScanDegrees(g);
    var cache := BuildCache(g, superNodes);
    var order := VisitOrder(superNodes, g.nodeCount, randomOrder);
    delivered, rows, cacheHits := SampleAll(g, cache, k, order);
    CacheOfIsFaithful(g, superNodes);
    JobRecordsIgnoreCache(g, cache, k, order);
  }
}
