/**
 * The read-only view of the resident graph that the sampler consumes: a node count, a degree
 * per node, each node's relationship cursors with their (possibly NaN) property value, and the
 * label set of each node. Storage, copies per worker and id translation are not modelled.
 */
module GraphModel {

  const TWO_31: int := 0x8000_0000
  const TWO_63: int := 0x8000_0000_0000_0000

  /** An internal node id: a non-negative Java `long`. */
  type NodeId = n: int | 0 <= n < TWO_63

  /** What `Graph.degree` returns: a non-negative Java `int`. */
  type Degree = d: int | 0 <= d < TWO_31

  /** A relationship property as a `double`; only whether it is NaN matters to the sampler. */
  datatype Property = NaN | Value(v: real)

  /** One relationship cursor produced by `streamRelationships(node, NaN)`. */
  datatype Cursor = Cursor(sourceId: NodeId, targetId: NodeId, property: Property)

  datatype Graph = Graph(
    nodeCount: NodeId,
    degree: NodeId -> Degree,
    relationships: NodeId -> seq<Cursor>,
    nodeLabels: nat -> set<string>)

  /** The edge triple (source, target, isNatural) that flows through the k-hop pipeline. */
  datatype Edge = Edge(source: NodeId, target: NodeId, natural: bool)

  /**
   * A re-oriented (left, right) node pair, the unit of deduplication and output. Its ids are
   * held as the 64-bit patterns of the `long` values, which is what the dedup key packs.
   */
  datatype Pair = Pair(left: bv64, right: bv64)

  /** The bit pattern of a node id as a Java `long`. */
  function LongOf(n: NodeId): bv64
  {
    n as bv64
  }

  /** The mapping applied to every cursor: ids kept, `natural` set when the property is NaN. */
  function AsEdge(c: Cursor): Edge
  {
    Edge(c.sourceId, c.targetId, c.property.NaN?)
  }

  /** A live hop: the node's relationships streamed from the graph, one edge per cursor, in order. */
  function Live(g: Graph, n: NodeId): seq<Edge>
  {
    var cs := g.relationships(n);
    seq(|cs|, i requires 0 <= i < |cs| => AsEdge(cs[i]))
  }
}
