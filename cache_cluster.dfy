/**
 * Key routing of a sharded cache cluster. The consistent-hash dispatcher is
 * an arbitrary function from key to an optional owning node, and what a
 * node answers is a function argument: routing is what this module models.
 */
module CacheCluster {
  import opened Wrappers

  type Key = string

  datatype CacheError =
    | NotFound
    | KeyMissing(key: Key)              // a key the dispatcher has no node for
    | NodeError(message: string)        // an error a node reports

  datatype Cluster<N> = Cluster(dispatcher: Key -> Option<N>, errNotFound: CacheError)

  /** The keys of `keys` owned by `node`, in input order. */
  function KeysOf<N(==)>(c: Cluster<N>, keys: seq<Key>, node: N): seq<Key>
    decreases |keys|
  {
    if keys == [] then []
    else
      var last := keys[|keys| - 1];
      KeysOf(c, keys[..|keys| - 1], node) + (if c.dispatcher(last) == Some(node) then [last] else [])
  }

  /** The nodes that own at least one key of `keys`. */
  function Owners<N>(c: Cluster<N>, keys: seq<Key>): set<N>
    decreases |keys|
  {
    if keys == [] then {}
    else
      var last := keys[|keys| - 1];
      Owners(c, keys[..|keys| - 1]) + (if c.dispatcher(last).Some? then {c.dispatcher(last).value} else {})
  }

  /** One `KeyMissing` error per key without a node, in input order. */
  function MissingErrors<N>(c: Cluster<N>, keys: seq<Key>): seq<CacheError>
    decreases |keys|
  {
    if keys == [] then []
    else
      var last := keys[|keys| - 1];
      MissingErrors(c, keys[..|keys| - 1]) + (if c.dispatcher(last).None? then [KeyMissing(last)] else [])
  }

  /** The nodes contacted by a sequence of grouped calls. */
  function Targets<N>(sent: seq<(N, seq<Key>)>): set<N>
    decreases |sent|
  {
    if sent == [] then {} else Targets(sent[..|sent| - 1]) + {sent[|sent| - 1].0}
  }

  /** One error per grouped call whose node failed, in call order. */
  function NodeFailures<N>(sent: seq<(N, seq<Key>)>, nodeDel: (N, seq<Key>) -> Option<CacheError>): seq<CacheError>
    decreases |sent|
  {
    if sent == [] then []
    else
      var last := sent[|sent| - 1];
      NodeFailures(sent[..|sent| - 1], nodeDel) + (if nodeDel(last.0, last.1).Some? then [nodeDel(last.0, last.1).value] else [])
  }

  /** A key lands in a node's group exactly when the dispatcher routes it to that node. */
  lemma {:induction false} KeysOfMembership<N>(c: Cluster<N>, keys: seq<Key>, node: N, k: Key)
    ensures k in KeysOf(c, keys, node) <==> k in keys && c.dispatcher(k) == Some(node)
  {
    if keys != [] {
      var init := keys[..|keys| - 1];
      KeysOfMembership(c, init, node, k);
      assert keys == init + [keys[|keys| - 1]];
    }
  }

  /** A node owns keys exactly when some key is routed to it, and then its group is not empty. */
  lemma {:induction false} OwnersMembership<N>(c: Cluster<N>, keys: seq<Key>, node: N)
    ensures node in Owners(c, keys) <==> exists k :: k in keys && c.dispatcher(k) == Some(node)
    ensures node in Owners(c, keys) <==> KeysOf(c, keys, node) != []
  {
    if keys != [] {
      var init := keys[..|keys| - 1];
      var last := keys[|keys| - 1];
      OwnersMembership(c, init, node);
      assert keys == init + [last];
      if c.dispatcher(last) == Some(node) {
        assert last in keys;
      }
      if node in Owners(c, init) {
        var k :| k in init && c.dispatcher(k) == Some(node);
        assert k in keys;
      }
    }
  }

  /**
   * The missing-key errors are one per unroutable key occurrence: an
   * unroutable key occurring m times among the keys has exactly m errors,
   * and every error names an input key that has no node.
   */
  lemma {:induction false} MissingErrorsCount<N>(c: Cluster<N>, keys: seq<Key>)
    ensures forall k :: c.dispatcher(k).None? ==> multiset(MissingErrors(c, keys))[KeyMissing(k)] == multiset(keys)[k]
    ensures forall i :: 0 <= i < |MissingErrors(c, keys)| ==>
      MissingErrors(c, keys)[i].KeyMissing? && MissingErrors(c, keys)[i].key in keys
      && c.dispatcher(MissingErrors(c, keys)[i].key).None?
  {
    if keys != [] {
      var init := keys[..|keys| - 1];
      var last := keys[|keys| - 1];
      MissingErrorsCount(c, init);
      assert keys == init + [last];
      assert multiset(keys) == multiset(init) + multiset{last};
      var tail := if c.dispatcher(last).None? then [KeyMissing(last)] else [];
      assert MissingErrors(c, keys) == MissingErrors(c, init) + tail;
      assert multiset(MissingErrors(c, keys)) == multiset(MissingErrors(c, init)) + multiset(tail);
    }
  }

  /**
   * `Del`: no keys is a no-op; one key goes to its node or fails with
   * `errNotFound`; several keys are grouped by node, each node is called
   * once with its keys in input order (in no particular node order), and
   * every unroutable key and every failing node adds one collected error.
   * `sent` lists the node calls made, in the order made. `collect` is the
   * error collector's `Error()`, applied to the collected errors.
   */
  method Del<N(==)>(c: Cluster<N>, keys: seq<Key>, nodeDel: (N, seq<Key>) -> Option<CacheError>,
                    collect: seq<CacheError> -> Option<CacheError>)
    returns (err: Option<CacheError>, sent: seq<(N, seq<Key>)>)
    ensures |keys| == 0 ==> err == None && sent == []
    ensures |keys| == 1 && c.dispatcher(keys[0]).None? ==> err == Some(c.errNotFound) && sent == []
    ensures |keys| == 1 && c.dispatcher(keys[0]).Some? ==>
      sent == [(c.dispatcher(keys[0]).value, keys)] && err == nodeDel(c.dispatcher(keys[0]).value, keys)
    ensures |keys| >= 2 ==> Targets(sent) == Owners(c, keys)
    ensures |keys| >= 2 ==> forall i, j :: 0 <= i < j < |sent| ==> sent[i].0 != sent[j].0
    ensures |keys| >= 2 ==> forall i :: 0 <= i < |sent| ==> sent[i].1 == KeysOf(c, keys, sent[i].0)
    ensures |keys| >= 2 ==> err == collect(MissingErrors(c, keys) + NodeFailures(sent, nodeDel))
  {
    if |keys| == 0 {
      return None, [];
    }
    if |keys| == 1 {
      var key := keys[0];
      var node := c.dispatcher(key);
      if node.None? {
        return Some(c.errNotFound), [];
      }
      assert keys == [key];
      return nodeDel(node.value, [key]), [(node.value, [key])];
    }
    var nodes, missing := GroupByNode(c, keys);
    var failures;
    sent, failures := DelGroups(nodes, nodeDel);
    assert forall i :: 0 <= i < |sent| ==> sent[i].1 == KeysOf(c, keys, sent[i].0);
    err := collect(missing + failures);
  }

  /** The first loop of `Del`: groups the routable keys by node and collects one error per unroutable key. */
  method GroupByNode<N(==)>(c: Cluster<N>, keys: seq<Key>) returns (nodes: map<N, seq<Key>>, es: seq<CacheError>)
    ensures nodes.Keys == Owners(c, keys)
    ensures forall n :: n in nodes ==> nodes[n] == KeysOf(c, keys, n)
    ensures es == MissingErrors(c, keys)
  {
    es := [];
    nodes := map[];
    var i := 0;
    while i < |keys|
      invariant 0 <= i <= |keys|
      invariant nodes.Keys == Owners(c, keys[..i])
      invariant forall n :: n in nodes ==> nodes[n] == KeysOf(c, keys[..i], n)
      invariant es == MissingErrors(c, keys[..i])
    {
      var key := keys[i];
      assert keys[..i + 1][..i] == keys[..i];
      var node := c.dispatcher(key);
      if node.None? {
        es := es + [KeyMissing(key)];
      } else {
        if node.value !in nodes {
          KeysOfAbsent(c, keys[..i], node.value);
        }
        nodes := nodes[node.value := (if node.value in nodes then nodes[node.value] else []) + [key]];
      }
      i := i + 1;
    }
    assert keys[..i] == keys;
  }

  /**
   * The second loop of `Del`: calls every node once with its group, in no
   * particular order, and collects the errors of the nodes that fail.
   */
  method DelGroups<N(==)>(nodes: map<N, seq<Key>>, nodeDel: (N, seq<Key>) -> Option<CacheError>)
    returns (sent: seq<(N, seq<Key>)>, es: seq<CacheError>)
    ensures Targets(sent) == nodes.Keys
    ensures forall j, k :: 0 <= j < k < |sent| ==> sent[j].0 != sent[k].0
    ensures forall j :: 0 <= j < |sent| ==> sent[j].0 in nodes && sent[j].1 == nodes[sent[j].0]
    ensures es == NodeFailures(sent, nodeDel)
  {
    sent, es := [], [];
    var pending := nodes.Keys;
    while pending != {}
      invariant pending <= nodes.Keys
      invariant Targets(sent) == nodes.Keys - pending
      invariant forall j :: 0 <= j < |sent| ==> sent[j].0 in Targets(sent)
      invariant forall j, k :: 0 <= j < k < |sent| ==> sent[j].0 != sent[k].0
      invariant forall j :: 0 <= j < |sent| ==> sent[j].0 in nodes && sent[j].1 == nodes[sent[j].0]
      invariant es == NodeFailures(sent, nodeDel)
      decreases pending
    {
      var node :| node in pending;
      var group := nodes[node];
      var result := nodeDel(node, group);
      if result.Some? {
        es := es + [result.value];
      }
      assert (sent + [(node, group)])[..|sent|] == sent;
      sent := sent + [(node, group)];
      pending := pending - {node};
    }
  }

  /** A node that owns none of the keys so far has an empty group. */
  lemma {:induction false} KeysOfAbsent<N>(c: Cluster<N>, keys: seq<Key>, node: N)
    requires node !in Owners(c, keys)
    ensures KeysOf(c, keys, node) == []
  {
    OwnersMembership(c, keys, node);
  }

  /** The single-key operations of the cache interface. */
  datatype Op =
    | Get(key: Key)
    | Set(key: Key, value: string)
    | SetEx(key: Key, value: string, expires: int)   // a Go time.Duration
    | Take(key: Key)
    | TakeEx(key: Key)

  /**
   * `Get`, `Set`, `SetEx`, `Take` and `TakeEx`: the owning node answers the
   * unchanged operation; with no owner the answer is `errNotFound`.
   */
  function Dispatch<N>(c: Cluster<N>, op: Op, exec: (N, Op) -> Option<CacheError>): (r: Option<CacheError>)
    ensures c.dispatcher(op.key).None? ==> r == Some(c.errNotFound)
    ensures c.dispatcher(op.key).Some? ==> r == exec(c.dispatcher(op.key).value, op)
  {
    match c.dispatcher(op.key)
    case None => Some(c.errNotFound)
    case Some(node) => exec(node, op)
  }

  /**
   * Single-key operations and `Del` agree on ownership: the node a single-key
   * operation goes to is the node whose `Del` group holds that key, and a key
   * a single-key operation cannot route is one `Del` reports as missing.
   */
  lemma RoutingAgrees<N>(c: Cluster<N>, keys: seq<Key>, op: Op)
    requires op.key in keys
    ensures c.dispatcher(op.key).Some? ==>
      c.dispatcher(op.key).value in Owners(c, keys) && op.key in KeysOf(c, keys, c.dispatcher(op.key).value)
    ensures c.dispatcher(op.key).None? ==> KeyMissing(op.key) in MissingErrors(c, keys)
  {
    if c.dispatcher(op.key).Some? {
      KeysOfMembership(c, keys, c.dispatcher(op.key).value, op.key);
      OwnersMembership(c, keys, c.dispatcher(op.key).value);
    } else {
      MissingHas(c, keys, op.key);
    }
  }

  lemma {:induction false} MissingHas<N>(c: Cluster<N>, keys: seq<Key>, k: Key)
    requires k in keys && c.dispatcher(k).None?
    ensures KeyMissing(k) in MissingErrors(c, keys)
  {
    var init := keys[..|keys| - 1];
    assert keys == init + [keys[|keys| - 1]];
    if k != keys[|keys| - 1] {
      MissingHas(c, init, k);
    }
  }
}
