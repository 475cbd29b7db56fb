# neo4j-arrow k-hop sampler, modelled in Dafny

This project models the k-hop neighbourhood sampler that `GdsReadJob.handleKHopJob` runs over a
GDS in-memory graph. It also models the request preparation of
`GdsReadJob.handleRelationshipsJob`.

The sampler works in these stages:

1. It scans every node's degree. Each degree goes into an order-of-magnitude bucket; the bucket
   sizes are tallied in a histogram, and high-degree nodes are collected as supernodes.
2. It materialises the adjacency list of every supernode once.
3. It expands every origin `k` hops, once per origin. Each hop reads a supernode's edges from the
   cache and any other node's edges live.
4. It re-orients every edge triple into a canonical `(left, right)` pair.
5. It drops pairs whose packed 64-bit `index` key was already seen for that origin.
6. It hands every retained pair to the consumer as a subgraph record with a running row index.

Origins are visited in node order. When supernodes exist they are visited in some permutation of
the nodes instead.

The model is sequential. The code's parallel streams become loops and sequence functions; its
concurrent maps, queues and sets become Dafny `map`, `seq` and `set` values; its atomic counters
become `nat` in/out parameters. The job keeps all of its state in locals of one Java method that
its lambdas update, so the state-changing steps are methods over those values rather than a class.

Files:

- `graph.dfy`: the graph as the sampler sees it. This is a node count, a `degree` per node, each
  node's relationship cursors with a property that is NaN or a value, and node labels. It also
  holds the edge triple and the pair.
- `edge_index.dfy`: `index` over `bv64`, exactly as written.
- `degrees.dfy`: magnitude, histogram and supernode scan.
- `khop.dfy`: the cache, `hop`, the k-hop rounds, re-orientation and the per-origin filter.
- `job.dfy`: records, row numbering, visit order and the whole job.
- `relationships.dfy`: type selection, the key check and triple assembly of the relationships job.
- `scenarios.dfy`: a five-node star worked through one and two hops.
- `seqs.dfy`: subsequence and no-duplicates notions.

Where the code does something other than its names or comments suggest, the model follows the code:

- **Supernode cutoff.** The code's test is `magnitude > 2` (line 178), so a supernode is a node of
  degree at least 100.
- **Key packing.** The code shifts the left id by 33, not 32. Its mask `0x00000000FFFFFFFF` is an
  `int` literal of value -1; widened to `long` it clears no bits, so the right id is OR-ed in
  whole. The key is injective only for left ids below 2^31 and right ids below 2^33. For example,
  the left id 2^31, which fits in 32 bits, is shifted out entirely and collides with 0
  (`EdgeIndex.IndexCollisions`). The code enforces no id bound and raises no error for a large id.
- **Ids in records.** The records emitted at lines 261-264 carry internal node ids and the type
  `"REL"`. The `convert` lambda that translates ids to original ids and uses `"UNKNOWN"` (lines
  142-155) is never called.
- **Row index.** The index is `Math.abs(x.getAndIncrement())` on a 32-bit `AtomicInteger`. It is
  the row's position for the first 2^31 rows. Row 2^31 gets -2^31, and after that indices repeat
  (`KHopJob.RowIndexWraps`).

Ids in a `Pair` are held as the 64-bit patterns of the Java `long` values, and the key is computed
on those patterns. Node ids elsewhere are mathematical integers in `[0, 2^63)`.

## Model

All source paths are under `plugin/src/main/java/org/neo4j/arrow/job/`; the table gives them in full.

| member | source | states |
|---|---|---|
| EdgeIndex.WidenToLong | plugin/src/main/java/org/neo4j/arrow/job/GdsReadJob.java:115 | int-to-long widening: the upper 32 bits copy the sign bit and the lower 32 bits are the int's bits |
| EdgeIndex.MaskClearsNoBits | plugin/src/main/java/org/neo4j/arrow/job/GdsReadJob.java:112-117 | the widened mask literal has all 64 bits set, so `index(l, r)` is `(l << 33)` OR-ed with `r` |
| EdgeIndex.IndexRoundTrip | plugin/src/main/java/org/neo4j/arrow/job/GdsReadJob.java:112-117 | for l < 2^31 and r < 2^33, both ids are recovered from the key (high part after shifting right by 33, low 33 bits) |
| EdgeIndex.IndexInjective | plugin/src/main/java/org/neo4j/arrow/job/GdsReadJob.java:112-117 | in that range, two keys are equal iff both id pairs are equal |
| EdgeIndex.IndexCollisions | plugin/src/main/java/org/neo4j/arrow/job/GdsReadJob.java:113-116 | outside that range keys collide: index(2^31, 0) == index(0, 0) and index(0, 2^33) == index(1, 0) |
| EdgeIndex.KeyInjective | plugin/src/main/java/org/neo4j/arrow/job/GdsReadJob.java:112-117 | two in-range pairs have equal keys iff they are the same pair |
| Degrees.DigitsBounds | plugin/src/main/java/org/neo4j/arrow/job/GdsReadJob.java:171-174 | the digit count m of a positive degree d satisfies 10^(m-1) <= d < 10^m |
| Degrees.MagnitudeIsLog10 | plugin/src/main/java/org/neo4j/arrow/job/GdsReadJob.java:171-174 | for d >= 1, magnitude(d) == m iff 10^(m-1) <= d < 10^m, i.e. magnitude is floor(log10 d) + 1 |
| Degrees.SupernodeIffDegreeAtLeast100 | plugin/src/main/java/org/neo4j/arrow/job/GdsReadJob.java:178-179 | magnitude > 2 holds exactly when the degree is at least 100 |
| Degrees.MagnitudeAtMost10 | plugin/src/main/java/org/neo4j/arrow/job/GdsReadJob.java:170-174 | an `int` degree has magnitude at most 10 |
| Degrees.BumpAddsOne | plugin/src/main/java/org/neo4j/arrow/job/GdsReadJob.java:177 | the `compute` update adds exactly one to the tally of buckets below m when the bumped bucket is below m, and nothing otherwise |
| Degrees.HistogramCountsBuckets | plugin/src/main/java/org/neo4j/arrow/job/GdsReadJob.java:167-177 | each histogram entry equals the number of scanned nodes in that bucket |
| Degrees.HistogramTotal | plugin/src/main/java/org/neo4j/arrow/job/GdsReadJob.java:167-177 | the tallies of buckets 0..10 sum to the number of nodes scanned |
| Degrees.SupernodesExactly | plugin/src/main/java/org/neo4j/arrow/job/GdsReadJob.java:167-180 | a node is a supernode iff it was scanned and its magnitude exceeds 2; the queue is strictly ascending and has no duplicates |
| Degrees.ScanDegrees | plugin/src/main/java/org/neo4j/arrow/job/GdsReadJob.java:163-180 | the scan loop builds exactly the histogram and supernode sequence of all nodes |
| KHop.CacheOfIsFaithful | plugin/src/main/java/org/neo4j/arrow/job/GdsReadJob.java:207-217 | the cache's keys are exactly the supernodes, and each cached list is that node's live adjacency |
| KHop.BuildCache | plugin/src/main/java/org/neo4j/arrow/job/GdsReadJob.java:207-217 | the `put` loop builds the map from each supernode to its live adjacency |
| KHop.CachedHopIsLive | plugin/src/main/java/org/neo4j/arrow/job/GdsReadJob.java:119-130 | with a faithful cache, a hop gives the same sequence as a live hop, i.e. as a hop with an empty cache |
| KHop.Hop | plugin/src/main/java/org/neo4j/arrow/job/GdsReadJob.java:119-130 | on a cache key: the cached list, with cacheHits raised by exactly 1; otherwise: the live mapped adjacency, with cacheHits unchanged |
| KHop.ExpandRound | plugin/src/main/java/org/neo4j/arrow/job/GdsReadJob.java:245-248 | the `flatMap` loop yields one round (each edge followed by the hop from its target) and adds one hit per edge whose target is cached |
| KHop.ExpansionStep | plugin/src/main/java/org/neo4j/arrow/job/GdsReadJob.java:244-249 | helper for `Expand`: hop i+1's stream is one round over hop i's stream, and its hits add that round's hits |
| KHop.Expand | plugin/src/main/java/org/neo4j/arrow/job/GdsReadJob.java:241-249 | the first hop followed by k-1 rounds gives the k-hop stream and its cache hits |
| KHop.RoundKeepsEdges | plugin/src/main/java/org/neo4j/arrow/job/GdsReadJob.java:245-248 | a round's input is a subsequence of its output, so a round never shrinks the stream |
| KHop.ExpansionGrows | plugin/src/main/java/org/neo4j/arrow/job/GdsReadJob.java:244-249 | every edge of hop k appears, in order, in hop k+1, and the length does not decrease |
| KHop.RoundIgnoresCache | plugin/src/main/java/org/neo4j/arrow/job/GdsReadJob.java:245-248 | a faithful cache does not change a round |
| KHop.ExpansionIgnoresCache | plugin/src/main/java/org/neo4j/arrow/job/GdsReadJob.java:241-249 | a faithful cache does not change any origin's k-hop stream |
| KHop.ReorientIsCanonical | plugin/src/main/java/org/neo4j/arrow/job/GdsReadJob.java:253-254 | a natural (s, t) gives (s, t) and a non-natural one gives (t, s); the flipped triple gives the same pair; the pair's endpoints are the triple's |
| KHop.ReorientAllAppend | plugin/src/main/java/org/neo4j/arrow/job/GdsReadJob.java:253-254 | the re-orienting `map` is element-wise, so re-orienting a concatenation of stream segments is the concatenation of their re-orientations |
| KHop.SmallIdsFit | plugin/src/main/java/org/neo4j/arrow/job/GdsReadJob.java:113 | a triple whose ids are below 2^31 gives a pair in the key's injective range |
| KHop.KeySetMembers | plugin/src/main/java/org/neo4j/arrow/job/GdsReadJob.java:255 | a key is in the seen set iff some pair of the stream has it |
| KHop.KeptIsSubsequence | plugin/src/main/java/org/neo4j/arrow/job/GdsReadJob.java:255 | the retained pairs are a subsequence of the re-oriented stream |
| KHop.KeptKeys | plugin/src/main/java/org/neo4j/arrow/job/GdsReadJob.java:255 | the keys of the retained pairs are exactly the keys of the stream |
| KHop.KeptKeysDistinct | plugin/src/main/java/org/neo4j/arrow/job/GdsReadJob.java:255 | no two retained pairs have the same key |
| KHop.KeptFirstOccurrences | plugin/src/main/java/org/neo4j/arrow/job/GdsReadJob.java:255 | a pair whose key has not occurred earlier in the stream is retained |
| KHop.KeptPairsDistinct | plugin/src/main/java/org/neo4j/arrow/job/GdsReadJob.java:255 | if every pair is in range, the retained pairs have no duplicates and are exactly the distinct pairs of the stream |
| KHop.Deduplicate | plugin/src/main/java/org/neo4j/arrow/job/GdsReadJob.java:239-240 | from a fresh empty history, the `add` loop keeps the first occurrences and leaves the history equal to the set of keys seen |
| KHopJob.Int32 | plugin/src/main/java/org/neo4j/arrow/job/GdsReadJob.java:157 | the int counter after n increments lies in [-2^31, 2^31) and is congruent to n modulo 2^32 |
| KHopJob.AbsInt32 | plugin/src/main/java/org/neo4j/arrow/job/GdsReadJob.java:160 | `Math.abs` on an int gives -2^31 exactly for -2^31, and otherwise a non-negative value of equal magnitude |
| KHopJob.RowIndexIsPosition | plugin/src/main/java/org/neo4j/arrow/job/GdsReadJob.java:157-160 | the n-th row's index is n for n < 2^31 |
| KHopJob.RowIndexNegative | plugin/src/main/java/org/neo4j/arrow/job/GdsReadJob.java:157-160 | a row index is negative iff n mod 2^32 == 2^31 |
| KHopJob.RowIndexWraps | plugin/src/main/java/org/neo4j/arrow/job/GdsReadJob.java:157-160 | row 2^31 gets -2^31, row 2^31+1 repeats row 2^31-1's index, and row 2^32 repeats index 0 |
| KHopJob.Records | plugin/src/main/java/org/neo4j/arrow/job/GdsReadJob.java:256-264 | one record per retained pair, in order; record i carries the origin, the literal type "REL", pair i's left and right ids in that order, and the labels of those two nodes |
| KHopJob.NumberedAppend | plugin/src/main/java/org/neo4j/arrow/job/GdsReadJob.java:157-160 | delivering two batches in turn numbers the second from where the first ended |
| KHopJob.RowsNumberedByPosition | plugin/src/main/java/org/neo4j/arrow/job/GdsReadJob.java:157-160 | from a fresh counter, row i is record i with index i, for every i < 2^31 |
| KHopJob.Emit | plugin/src/main/java/org/neo4j/arrow/job/GdsReadJob.java:258-265 | the delivery loop hands out the records numbered from the counter's value, and advances the counter by their number |
| KHopJob.OriginPairsDistinct | plugin/src/main/java/org/neo4j/arrow/job/GdsReadJob.java:238-256 | with ids below 2^31, an origin's retained pairs have no duplicates, include every re-oriented edge of its stream, and contain nothing else |
| KHopJob.SampleOrigin | plugin/src/main/java/org/neo4j/arrow/job/GdsReadJob.java:238-265 | one origin yields its numbered records and its cache hits, and advances the counter by its number of retained pairs |
| KHopJob.OriginsInOrder | plugin/src/main/java/org/neo4j/arrow/job/GdsReadJob.java:232 | the sequential order is 0, 1, ..., nodeCount-1 |
| KHopJob.OriginsOnce | plugin/src/main/java/org/neo4j/arrow/job/GdsReadJob.java:232 | the sequential order contains every node below nodeCount exactly once, and nothing else |
| KHopJob.VisitOrderIsPermutation | plugin/src/main/java/org/neo4j/arrow/job/GdsReadJob.java:225-233 | every node is visited exactly once; without supernodes the visit order is node order |
| KHopJob.RowsAreKeptTotal | plugin/src/main/java/org/neo4j/arrow/job/GdsReadJob.java:235-266 | the total row count is the sum over origins of their retained pairs |
| KHopJob.JobRecordsIgnoreCache | plugin/src/main/java/org/neo4j/arrow/job/GdsReadJob.java:235-257 | a faithful cache changes no record of the job |
| KHopJob.JobStep | plugin/src/main/java/org/neo4j/arrow/job/GdsReadJob.java:235-257 | visiting one more origin appends its records after the earlier ones and adds its cache hits |
| KHopJob.JobStepNumbered | plugin/src/main/java/org/neo4j/arrow/job/GdsReadJob.java:157-160 | the rows of one more origin are numbered on from the count of the earlier origins' rows |
| KHopJob.SampleAll | plugin/src/main/java/org/neo4j/arrow/job/GdsReadJob.java:235-266 | the `flatMap`/`peek`/`count` over the visit order delivers all records numbered from 0; `rows` counts them and the hits are the job's cache hits |
| KHopJob.RunKHopJob | plugin/src/main/java/org/neo4j/arrow/job/GdsReadJob.java:132-270 | the delivered rows are those of the cache-free definition over the chosen visit order, numbered from 0; `rows` is their number; cacheHits counts hops served by the supernode cache |
| Relationships.Filter | plugin/src/main/java/org/neo4j/arrow/job/GdsReadJob.java:285-288 | the filtered sequence holds exactly the elements that satisfy the predicate |
| Relationships.SelectTypesMembers | plugin/src/main/java/org/neo4j/arrow/job/GdsReadJob.java:284-289 | with filters, a type is selected iff it is a filter and the store has it; without filters, the selected types are the store's types |
| Relationships.CheckKeys | plugin/src/main/java/org/neo4j/arrow/job/GdsReadJob.java:294-314 | ANY_PROPERTIES passes; with keys the check passes iff every key is on some selected type, and on failure it names the first key on none |
| Relationships.TypeTriplesMembers | plugin/src/main/java/org/neo4j/arrow/job/GdsReadJob.java:327-341 | one type's triples: its requested keys that it has; with ANY_PROPERTIES, all its keys and the key-less entry |
| Relationships.TriplesMembers | plugin/src/main/java/org/neo4j/arrow/job/GdsReadJob.java:326-344 | with keys, the triples are exactly the (selected type, requested key) pairs where the type has the key; with ANY_PROPERTIES, every key of every selected type plus key-less entries |
| Relationships.KeylessPerType | plugin/src/main/java/org/neo4j/arrow/job/GdsReadJob.java:334-340 | ANY_PROPERTIES yields exactly one key-less triple per selected type; explicit keys yield none |
| Relationships.PrepareRelationships | plugin/src/main/java/org/neo4j/arrow/job/GdsReadJob.java:282-348 | the request is ready iff every requested key is on a selected type and the graph has nodes; if ready, it carries the selected types and their triples; when some requested key is on no selected type, the outcome is NOT_FOUND naming the first such key, whatever the node count; when every key is present but the graph has no nodes, the outcome is NOT_FOUND with "no matching node ids for GDS job" |
| Scenarios.StarHasNoSupernodes | plugin/src/main/java/org/neo4j/arrow/job/GdsReadJob.java:167-180 | in the five-node star no node is a supernode |
| Scenarios.StarCentreHop | plugin/src/main/java/org/neo4j/arrow/job/GdsReadJob.java:241-254 | one hop from the star's centre re-orients to the four spokes (0, 1) .. (0, 4) |
| Scenarios.StarOneHop | plugin/src/main/java/org/neo4j/arrow/job/GdsReadJob.java:238-256 | with k = 1 the centre retains exactly the four spokes |
| Scenarios.StarTwoHopStream | plugin/src/main/java/org/neo4j/arrow/job/GdsReadJob.java:244-249 | with k = 2 the centre's stream goes out along each spoke and back from the leaf: eight triples |
| Scenarios.StarTwoHopPairs | plugin/src/main/java/org/neo4j/arrow/job/GdsReadJob.java:253-254 | re-oriented, that stream is every spoke twice |
| Scenarios.StarTwoHopsDeduplicated | plugin/src/main/java/org/neo4j/arrow/job/GdsReadJob.java:255 | the filter keeps the first of each repeated spoke |
| Scenarios.StarTwoHops | plugin/src/main/java/org/neo4j/arrow/job/GdsReadJob.java:238-256 | with k = 2 the centre's stream has 8 triples, and the same four spokes are retained as with k = 1 |

## Left out

- `plugin/src/main/java/org/neo4j/arrow/GdsJob.java`: it only looks up a catalog graph and streams it to a consumer.
- Job lifecycle: `CompletableFuture`, `supplyAsync`, `handleAsync`, completion messages, failure handling and `futureConsumer.join()`. These are asynchronous plumbing.
- Concurrency: parallel streams, concurrent maps, queues and sets, and atomic counters. Each is modelled as a sequential value and an ordinary counter. Interleaving of origins in delivery order is therefore not modelled; rows are delivered origin by origin.
- `RandomLongIterator`: randomness cannot be modelled. The random order is a parameter, required to be a permutation of the node ids.
- `Math.floor(Math.log10(d))`: floating point is replaced by the decimal digit count, with `Degrees.MagnitudeIsLog10` stating that it is the same quantity.
- Logging of the histogram and its later `clear()`: the histogram is computed (`Degrees.ScanDegrees`), but only logged.
- GDS calls as fields: `streamRelationships` is the `relationships` field of `Graph`; `nodeLabels` and the node count are also `Graph` fields; `hasRelationshipType`, `hasRelationshipProperty`, `relationshipPropertyKeys` and the node counts of graph views are fields of `Relationships.Store`. No properties of them are assumed.
- `relationshipCount` (line 136): it is only logged (lines 193-194), so it has no counterpart.
- `getGraph`: the `Graph` value stands for the view it returns.
- `concurrentCopy` (line 123): a copy of a graph answers the same queries, so it is the identity here.
- The graph view that each relationship triple carries (`store.getGraph(relType, key)`): a `Relationships.Triple` records only the type and the optional key.
- The placeholder schema records (lines 190 and 354-356) and the fixed `k = 2` of the caller (line 73). `k >= 1` is a parameter.
- `handleNodeJob`, `spliterate` and the relationship streaming after line 350: iterator and consumer plumbing.
- `convert` (lines 142-155): never called.
- Arrow `CallStatus`: a NOT_FOUND failure is the value `Relationships.Prepared.NotFound` with the code's description.
