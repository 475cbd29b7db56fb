/**
 * The degree scan of the k-hop job: every node's degree is mapped to an order-of-magnitude
 * bucket, the bucket sizes are tallied in a histogram, and nodes whose magnitude exceeds the
 * cutoff are collected as supernodes.
 */
module Degrees {
  import opened GraphModel
  import opened Seqs

  function Pow10(m: nat): nat
  {
    if m == 0 then 1 else 10 * Pow10(m - 1)
  }

  /** The number of decimal digits of a positive number. */
  function Digits(d: nat): nat
    requires d >= 1
    decreases d
  {
    if d < 10 then 1 else 1 + Digits(d / 10)
  }

  /**
   * The bucket of a degree: 0 for a node without relationships, otherwise `floor(log10 d) + 1`,
   * here computed on integers as the digit count rather than through floating point.
   */
  function Magnitude(d: nat): nat
  {
    if d == 0 then 0 else Digits(d)
  }

  /** A node is a supernode when its magnitude is strictly above this constant. */
  const SupernodeCutoff: nat := 2

  predicate IsSupernodeDegree(d: nat)
  {
    Magnitude(d) > SupernodeCutoff
  }

  lemma {:induction false} Pow10Monotone(i: nat, j: nat)
    requires i <= j
    ensures Pow10(i) <= Pow10(j)
    decreases j
  {
    if i < j {
      Pow10Monotone(i, j - 1);
    }
  }

  /** The digit count `m` of `d` is the `m` with 10^(m-1) <= d < 10^m. */
  lemma {:induction false} DigitsBounds(d: nat)
    requires d >= 1
    ensures Digits(d) >= 1
    ensures Pow10(Digits(d) - 1) <= d < Pow10(Digits(d))
    decreases d
  {
    if d >= 10 {
      var q := d / 10;
      DigitsBounds(q);
      var m := Digits(q);
      assert Digits(d) == m + 1;
      assert Pow10(m) == 10 * Pow10(m - 1);
      assert Pow10(m + 1) == 10 * Pow10(m);
      assert 10 * q <= d < 10 * q + 10;
    }
  }

  /** Magnitude agrees with `floor(log10 d) + 1` for every positive degree, in both directions. */
  lemma MagnitudeIsLog10(d: nat, m: nat)
    requires d >= 1 && m >= 1
    ensures Magnitude(d) == m <==> Pow10(m - 1) <= d < Pow10(m)
  {
    DigitsBounds(d);
    var k := Digits(d);
    if Pow10(m - 1) <= d < Pow10(m) && k != m {
      if k < m {
        Pow10Monotone(k, m - 1);
      } else {
        Pow10Monotone(m, k - 1);
      }
    }
  }

  /** With the code's cutoff, a node is a supernode exactly when its degree is at least 100. */
  lemma SupernodeIffDegreeAtLeast100(d: nat)
    ensures IsSupernodeDegree(d) <==> d >= 100
  {
    if d >= 1 {
      DigitsBounds(d);
      var k := Digits(d);
      if d >= 100 && k <= 2 {
        Pow10Monotone(k, 2);
      }
      if d < 100 && k >= 3 {
        Pow10Monotone(2, k - 1);
      }
    }
  }

  /** A Java `int` degree has at most ten digits, so buckets range over 0..10. */
  lemma MagnitudeAtMost10(d: Degree)
    ensures Magnitude(d) <= 10
  {
    if d >= 1 {
      DigitsBounds(d);
      var k := Digits(d);
      if k > 10 {
        Pow10Monotone(10, k - 1);
      }
      assert Pow10(10) == 10_000_000_000;
    }
  }

  /** `histogram.compute(m, (k, v) -> v == null ? 1 : v + 1)`. */
  function Bump(h: map<nat, nat>, m: nat): map<nat, nat>
  {
    h[m := if m in h then h[m] + 1 else 1]
  }

  /** The tally of bucket `m`, zero when the bucket was never seen. */
  function Count(h: map<nat, nat>, m: nat): nat
  {
    if m in h then h[m] else 0
  }

  /** The histogram after scanning nodes 0 .. n-1. */
  function HistogramOf(g: Graph, n: nat): map<nat, nat>
    requires n <= g.nodeCount
    decreases n
  {
    if n == 0 then map[] else Bump(HistogramOf(g, n - 1), Magnitude(g.degree(n - 1)))
  }

  /** The supernodes among nodes 0 .. n-1, in scan order. */
  function SupernodesOf(g: Graph, n: nat): seq<NodeId>
    requires n <= g.nodeCount
    decreases n
  {
    if n == 0 then []
    else SupernodesOf(g, n - 1) + if IsSupernodeDegree(g.degree(n - 1)) then [n - 1] else []
  }

  /** The nodes among 0 .. n-1 whose degree falls into bucket `m`. */
  function Bucket(g: Graph, n: nat, m: nat): set<NodeId>
    requires n <= g.nodeCount
  {
    set i: NodeId | 0 <= i < n && Magnitude(g.degree(i)) == m
  }

  /** Each histogram entry counts exactly the nodes of its bucket. */
  lemma {:induction false} HistogramCountsBuckets(g: Graph, n: nat, m: nat)
    requires n <= g.nodeCount
    ensures Count(HistogramOf(g, n), m) == |Bucket(g, n, m)|
    decreases n
  {
    if n > 0 {
      HistogramCountsBuckets(g, n - 1, m);
      var last: NodeId := n - 1;
      if Magnitude(g.degree(last)) == m {
        assert Bucket(g, n, m) == Bucket(g, n - 1, m) + {last};
      } else {
        assert Bucket(g, n, m) == Bucket(g, n - 1, m);
      }
    }
  }

  /** The largest bucket a Java `int` degree can reach. */
  const MaxMagnitude: nat := 10

  /** Tallies of buckets 0 .. m-1. */
  function BucketSum(h: map<nat, nat>, m: nat): nat
    decreases m
  {
    if m == 0 then 0 else BucketSum(h, m - 1) + Count(h, m - 1)
  }

  lemma {:induction false} BumpAddsOne(h: map<nat, nat>, b: nat, m: nat)
    ensures BucketSum(Bump(h, b), m) == BucketSum(h, m) + if b < m then 1 else 0
    decreases m
  {
    if m > 0 {
      BumpAddsOne(h, b, m - 1);
    }
  }

  /** Every bucket that appears in the histogram is one of 0 .. 10. */
  lemma {:induction false} HistogramKeys(g: Graph, n: nat)
    requires n <= g.nodeCount
    ensures forall m :: m in HistogramOf(g, n) ==> m <= 10
    decreases n
  {
    if n > 0 {
      HistogramKeys(g, n - 1);
      MagnitudeAtMost10(g.degree(n - 1));
    }
  }

  /** The buckets partition the nodes: their tallies add up to the number of nodes scanned. */
  lemma {:induction false} HistogramTotal(g: Graph, n: nat)
    requires n <= g.nodeCount
    ensures BucketSum(HistogramOf(g, n), MaxMagnitude + 1) == n
    decreases n
  {
    if n > 0 {
      HistogramTotal(g, n - 1);
      var b := Magnitude(g.degree(n - 1));
      MagnitudeAtMost10(g.degree(n - 1));
      BumpAddsOne(HistogramOf(g, n - 1), b, MaxMagnitude + 1);
    }
  }

  /** The supernodes are exactly the scanned nodes above the cutoff, ascending, none twice. */
  lemma {:induction false} SupernodesExactly(g: Graph, n: nat)
    requires n <= g.nodeCount
    ensures forall v: NodeId :: v in SupernodesOf(g, n) <==> v < n && IsSupernodeDegree(g.degree(v))
    ensures forall i, j :: 0 <= i < j < |SupernodesOf(g, n)| ==> SupernodesOf(g, n)[i] < SupernodesOf(g, n)[j]
    ensures NoDuplicates(SupernodesOf(g, n))
    decreases n
  {
    if n > 0 {
      SupernodesExactly(g, n - 1);
      var prev := SupernodesOf(g, n - 1);
      forall i | 0 <= i < |prev|
        ensures prev[i] < n - 1
      {
        assert prev[i] in prev;
      }
    }
  }

  /**
   * The parallel degree scan, run sequentially: one pass over [0, nodeCount) that bumps the
   * node's bucket and, above the cutoff, appends the node to the supernode queue.
   */
  method ScanDegrees(g: Graph) returns (histogram: map<nat, nat>, superNodes: seq<NodeId>)
    ensures histogram == HistogramOf(g, g.nodeCount)
    ensures superNodes == SupernodesOf(g, g.nodeCount)
  {
    histogram, superNodes := map[], [];
    var id: NodeId := 0;
    while id < g.nodeCount
      invariant id <= g.nodeCount
      invariant histogram == HistogramOf(g, id)
      invariant superNodes == SupernodesOf(g, id)
    {
      var magnitude := Magnitude(g.degree(id));
      histogram := Bump(histogram, magnitude);
      if magnitude > SupernodeCutoff {
        superNodes := superNodes + [id];
      }
      id := id + 1;
    }
  }
}
