/**
 * Request preparation of GdsReadJob.handleRelationshipsJob: choosing the relationship types,
 * checking that every requested property key exists on one of them, and assembling the
 * (type, key) triples whose property graphs will be streamed. The graph store is seen only
 * through the queries the job makes of it.
 */
module Relationships {

  datatype Option<T> = None | Some(value: T)

  /** The queries of the graph store the job depends on. */
  datatype Store = Store(
    relationshipTypes: seq<string>,
    hasRelationshipType: string -> bool,
    hasRelationshipProperty: (string, string) -> bool,
    relationshipPropertyKeys: string -> seq<string>,
    /** The node count of the store's graph restricted to the given relationship types. */
    nodeCount: seq<string> -> nat)

  /** The requested properties: the `ANY_PROPERTIES` sentinel, or an explicit list of keys. */
  datatype PropertyRequest = AnyProperties | Keys(keys: seq<string>)

  /** A (type, key) triple to stream; the key is absent for the type's property-less graph. */
  datatype Triple = Triple(relType: string, key: Option<string>)

  /** How preparation ends: ready to stream, or a NOT_FOUND status with its description. */
  datatype Prepared = Ready(relTypes: seq<string>, triples: seq<Triple>) | NotFound(description: string)

  /** The elements of `s` that satisfy `p`, in order. */
  function Filter(s: seq<string>, p: string -> bool): (r: seq<string>)
    ensures forall x :: x in r <==> x in s && p(x)
    ensures |r| <= |s|
    decreases |s|
  {
    if s == [] then []
    else Filter(s[..|s| - 1], p) + if p(s[|s| - 1]) then [s[|s| - 1]] else []
  }

  /** The requested filters that name an existing type, or every type when no filter is given. */
  function SelectTypes(store: Store, filters: seq<string>): seq<string>
  {
    if |filters| > 0 then Filter(filters, store.hasRelationshipType) else store.relationshipTypes
  }

  lemma SelectTypesMembers(store: Store, filters: seq<string>, t: string)
    ensures |filters| > 0 ==> (t in SelectTypes(store, filters) <==> t in filters && store.hasRelationshipType(t))
    ensures |filters| == 0 ==> (t in SelectTypes(store, filters) <==> t in store.relationshipTypes)
  {
  }

  /** Some selected type carries `key`. */
  predicate KeyOnSomeType(store: Store, relTypes: seq<string>, key: string)
  {
    exists t :: t in relTypes && store.hasRelationshipProperty(t, key)
  }

  /** `keys[i]` is on no selected type, and every key before it is on some. */
  predicate FirstMissing(store: Store, relTypes: seq<string>, keys: seq<string>, i: int)
  {
    && 0 <= i < |keys|
    && !KeyOnSomeType(store, relTypes, keys[i])
    && forall j :: 0 <= j < i ==> KeyOnSomeType(store, relTypes, keys[j])
  }

  /** Every requested key is on some selected type; `ANY_PROPERTIES` requests none. */
  predicate KeysPresent(store: Store, relTypes: seq<string>, request: PropertyRequest)
  {
    request.Keys? ==> forall key :: key in request.keys ==> KeyOnSomeType(store, relTypes, key)
  }

  /** The description of the NOT_FOUND raised for a graph without nodes. */
  const NoNodesMessage: string := "no matching node ids for GDS job"

  function NotFoundMessage(key: string): string
  {
    "no relationship property found for " + key
  }

  /**
   * The nested loop over keys and types: each key is searched for on the selected types until a
   * type has it; the first key found on none of them fails the request with NOT_FOUND.
   */
  method CheckKeys(store: Store, relTypes: seq<string>, request: PropertyRequest) returns (missing: Option<string>)
    ensures request.AnyProperties? ==> missing == None
    ensures request.Keys? ==>
      (missing == None <==> forall key :: key in request.keys ==> KeyOnSomeType(store, relTypes, key))
    ensures missing.Some? ==>
      request.Keys? && exists i :: FirstMissing(store, relTypes, request.keys, i) && request.keys[i] == missing.value
  {
    if request.AnyProperties? {
      return None;
    }
    var keys := request.keys;
    for i := 0 to |keys|
      invariant forall j :: 0 <= j < i ==> KeyOnSomeType(store, relTypes, keys[j])
    {
      var key := keys[i];
      var found := false;
      for j := 0 to |relTypes|
        invariant !found
        invariant forall jj :: 0 <= jj < j ==> !store.hasRelationshipProperty(relTypes[jj], key)
      {
        if store.hasRelationshipProperty(relTypes[j], key) {
          found := true;
          break;
        }
      }
      if !found {
        forall t | t in relTypes
          ensures !store.hasRelationshipProperty(t, key)
        {
          var jj :| 0 <= jj < |relTypes| && relTypes[jj] == t;
        }
        assert FirstMissing(store, relTypes, keys, i);
        return Some(key);
      }
    }
    return None;
  }

  /** The triples of one type: its requested keys that it has, or all its keys plus a key-less entry. */
  function TypeTriples(store: Store, relType: string, request: PropertyRequest): seq<Triple>
  {
    match request
    case Keys(keys) =>
      var present := Filter(keys, (key: string) => store.hasRelationshipProperty(relType, key));
      seq(|present|, i requires 0 <= i < |present| => Triple(relType, Some(present[i])))
    case AnyProperties =>
      var all := store.relationshipPropertyKeys(relType);
      seq(|all|, i requires 0 <= i < |all| => Triple(relType, Some(all[i]))) + [Triple(relType, None)]
  }

  /** The `flatMap` over the selected types, in order. */
  function Triples(store: Store, relTypes: seq<string>, request: PropertyRequest): seq<Triple>
    decreases |relTypes|
  {
    if relTypes == [] then []
    else Triples(store, relTypes[..|relTypes| - 1], request) + TypeTriples(store, relTypes[|relTypes| - 1], request)
  }

  /** One type's triples, member by member. */
  lemma TypeTriplesMembers(store: Store, relType: string, request: PropertyRequest, tr: Triple)
    ensures request.Keys? ==> (tr in TypeTriples(store, relType, request) <==>
      tr.relType == relType && tr.key.Some? && tr.key.value in request.keys
      && store.hasRelationshipProperty(relType, tr.key.value))
    ensures request.AnyProperties? ==> (tr in TypeTriples(store, relType, request) <==>
      tr.relType == relType && (tr.key.Some? ==> tr.key.value in store.relationshipPropertyKeys(relType)))
  {
    match request
    case Keys(keys) =>
      var present := Filter(keys, (key: string) => store.hasRelationshipProperty(relType, key));
      if tr.relType == relType && tr.key.Some? && tr.key.value in keys && store.hasRelationshipProperty(relType, tr.key.value) {
        var i :| 0 <= i < |present| && present[i] == tr.key.value;
        assert TypeTriples(store, relType, request)[i] == tr;
      }
    case AnyProperties =>
      var all := store.relationshipPropertyKeys(relType);
      if tr.relType == relType && tr.key.Some? && tr.key.value in all {
        var i :| 0 <= i < |all| && all[i] == tr.key.value;
        assert TypeTriples(store, relType, request)[i] == tr;
      }
  }

  /**
   * With explicit keys the triples are exactly the (type, key) pairs of a selected type that has
   * a requested key; with `ANY_PROPERTIES` they are every key of every selected type, and the
   * key-less entry of every selected type.
   */
  lemma {:induction false} TriplesMembers(store: Store, relTypes: seq<string>, request: PropertyRequest, tr: Triple)
    ensures request.Keys? ==> (tr in Triples(store, relTypes, request) <==>
      tr.relType in relTypes && tr.key.Some? && tr.key.value in request.keys
      && store.hasRelationshipProperty(tr.relType, tr.key.value))
    ensures request.AnyProperties? ==> (tr in Triples(store, relTypes, request) <==>
      tr.relType in relTypes && (tr.key.Some? ==> tr.key.value in store.relationshipPropertyKeys(tr.relType)))
    decreases |relTypes|
  {
    if relTypes != [] {
      var init := relTypes[..|relTypes| - 1];
      var last := relTypes[|relTypes| - 1];
      TriplesMembers(store, init, request, tr);
      TypeTriplesMembers(store, last, request, tr);
      assert relTypes == init + [last];
    }
  }

  /** The number of key-less triples. */
  function KeylessCount(ts: seq<Triple>): nat
    decreases |ts|
  {
    if ts == [] then 0 else KeylessCount(ts[..|ts| - 1]) + if ts[|ts| - 1].key.None? then 1 else 0
  }

  lemma {:induction false} KeylessCountAppend(a: seq<Triple>, b: seq<Triple>)
    ensures KeylessCount(a + b) == KeylessCount(a) + KeylessCount(b)
    decreases |b|
  {
    if b == [] {
      assert a + b == a;
    } else {
      var init := b[..|b| - 1];
      KeylessCountAppend(a, init);
      assert (a + b)[..|a + b| - 1] == a + init;
      assert (a + b)[|a + b| - 1] == b[|b| - 1];
    }
  }

  lemma {:induction false} KeylessCountAllKeyed(ts: seq<Triple>)
    requires forall i :: 0 <= i < |ts| ==> ts[i].key.Some?
    ensures KeylessCount(ts) == 0
    decreases |ts|
  {
    if ts != [] {
      KeylessCountAllKeyed(ts[..|ts| - 1]);
    }
  }

  /** With `ANY_PROPERTIES` there is one key-less triple per selected type; with keys, none. */
  lemma {:induction false} KeylessPerType(store: Store, relTypes: seq<string>, request: PropertyRequest)
    ensures KeylessCount(Triples(store, relTypes, request)) == if request.AnyProperties? then |relTypes| else 0
    decreases |relTypes|
  {
    if relTypes != [] {
      var init := relTypes[..|relTypes| - 1];
      var last := relTypes[|relTypes| - 1];
      KeylessPerType(store, init, request);
      var tt := TypeTriples(store, last, request);
      KeylessCountAppend(Triples(store, init, request), tt);
      match request
      case Keys(keys) =>
        KeylessCountAllKeyed(tt);
      case AnyProperties =>
        var keyed := tt[..|tt| - 1];
        KeylessCountAllKeyed(keyed);
    }
  }

  /** The types whose graph supplies the node count: the selected ones, or all when none is selected. */
  function GraphTypes(store: Store, relTypes: seq<string>): seq<string>
  {
    if |relTypes| > 0 then relTypes else store.relationshipTypes
  }

  /**
   * Everything `handleRelationshipsJob` does before it starts streaming: select the types, check
   * the keys, assemble the triples, and refuse a graph without nodes.
   */
  method PrepareRelationships(store: Store, filters: seq<string>, request: PropertyRequest) returns (r: Prepared)
    ensures r.Ready? <==>
      KeysPresent(store, SelectTypes(store, filters), request)
      && store.nodeCount(GraphTypes(store, SelectTypes(store, filters))) > 0
    ensures r.Ready? ==> (r.relTypes == SelectTypes(store, filters)
      && r.triples == Triples(store, r.relTypes, request))
    ensures !KeysPresent(store, SelectTypes(store, filters), request) ==>
      request.Keys? &&
      exists i :: FirstMissing(store, SelectTypes(store, filters), request.keys, i) && r == NotFound(NotFoundMessage(request.keys[i]))
    ensures (KeysPresent(store, SelectTypes(store, filters), request)
      && store.nodeCount(GraphTypes(store, SelectTypes(store, filters))) == 0) ==>
      r == NotFound(NoNodesMessage)
  {
    var relTypes := SelectTypes(store, filters);
    var missing := CheckKeys(store, relTypes, request);
    if missing.Some? {
      return NotFound(NotFoundMessage(missing.value));
    }
    var triples := Triples(store, relTypes, request);
    if store.nodeCount(GraphTypes(store, relTypes)) == 0 {
      return NotFound(NoNodesMessage);
    }
    return Ready(relTypes, triples);
  }
}
