/**
 The writer's code: building a snapshot from a node table, and applying a batch.
 */
module NodeStore {
  import opened Basics
  import opened Nodes
  import opened Election
  import opened Names
  import opened Snapshots

  // ----- Index maintenance -------------------------------------------------------------

  function AddUser(byUser: UserLists, id: NodeID, n: Node): UserLists
  {
    if n.IsTagged() then byUser
    else byUser[n.TypedUserID() := UserList(byUser, n.TypedUserID()) + [NodeView(id, n)]]
  }

  lemma UserIndexAdd(t: NodeTable, byUser: UserLists, id: NodeID, n: Node)
    requires UserIndex(t, byUser) && id !in t
    ensures UserIndex(t[id := n], AddUser(byUser, id, n))
  {
    var t', byUser', nv := t[id := n], AddUser(byUser, id, n), NodeView(id, n);
    assert forall x :: IsCurrent(t', x) <==> IsCurrent(t, x) || x == nv;
    forall u ensures nv !in UserList(byUser, u) { }
    forall u
      ensures UserList(byUser', u) == if !n.IsTagged() && u == n.TypedUserID() then UserList(byUser, u) + [nv]
                                      else UserList(byUser, u)
    {
    }
    forall u ensures NoDuplicates(UserList(byUser', u))
    {
      NoDuplicatesAppend(UserList(byUser, u), nv);
    }
  }

  lemma NodeKeyIndexAdd(t: NodeTable, byNodeKey: NodeKeys, id: NodeID, n: Node)
    requires NodeKeyIndex(t, byNodeKey) && id !in t
    ensures NodeKeyIndex(t[id := n], byNodeKey[n.nodeKey := NodeView(id, n)])
  {
  }

  function AddMachineKey(byMachineKey: MachineKeys, id: NodeID, n: Node): MachineKeys
  {
    var users := if n.machineKey in byMachineKey then byMachineKey[n.machineKey] else map[];
    byMachineKey[n.machineKey := users[n.TypedUserID() := NodeView(id, n)]]
  }

  lemma MachineKeyIndexAdd(t: NodeTable, byMachineKey: MachineKeys, id: NodeID, n: Node)
    requires MachineKeyIndex(t, byMachineKey) && id !in t
    ensures MachineKeyIndex(t[id := n], AddMachineKey(byMachineKey, id, n))
  {
  }

  datatype Indexes = Indexes(byUser: UserLists, byNodeKey: NodeKeys, byMachineKey: MachineKeys)

  function AddNode(ix: Indexes, id: NodeID, n: Node): Indexes
  {
    Indexes(AddUser(ix.byUser, id, n),
            ix.byNodeKey[n.nodeKey := NodeView(id, n)],
            AddMachineKey(ix.byMachineKey, id, n))
  }

  /** The indexes after visiting the given nodes in order. */
  function IndexAll(nodes: NodeTable, order: seq<NodeID>): Indexes
    requires forall i :: 0 <= i < |order| ==> order[i] in nodes
  {
    if order == [] then Indexes(map[], map[], map[])
    else
      var last := order[|order| - 1];
      AddNode(IndexAll(nodes, order[..|order| - 1]), last, nodes[last])
  }

  function Visited(nodes: NodeTable, order: seq<NodeID>): NodeTable
  {
    map id | id in order && id in nodes :: nodes[id]
  }

  lemma VisitedGrows(nodes: NodeTable, order: seq<NodeID>)
    requires order != [] && NoDuplicates(order) && order[|order| - 1] in nodes
    ensures var init, last := order[..|order| - 1], order[|order| - 1];
            last !in Visited(nodes, init) && Visited(nodes, order) == Visited(nodes, init)[last := nodes[last]]
  {
    assert order == order[..|order| - 1] + [order[|order| - 1]];
  }

  lemma {:induction false} UsersFit(nodes: NodeTable, order: seq<NodeID>)
    requires NoDuplicates(order) && forall i :: 0 <= i < |order| ==> order[i] in nodes
    ensures UserIndex(Visited(nodes, order), IndexAll(nodes, order).byUser)
  {
    if order != [] {
      var init, last := order[..|order| - 1], order[|order| - 1];
      UsersFit(nodes, init);
      VisitedGrows(nodes, order);
      UserIndexAdd(Visited(nodes, init), IndexAll(nodes, init).byUser, last, nodes[last]);
    }
  }

  lemma {:induction false} NodeKeysFit(nodes: NodeTable, order: seq<NodeID>)
    requires NoDuplicates(order) && forall i :: 0 <= i < |order| ==> order[i] in nodes
    ensures NodeKeyIndex(Visited(nodes, order), IndexAll(nodes, order).byNodeKey)
  {
    if order != [] {
      var init, last := order[..|order| - 1], order[|order| - 1];
      NodeKeysFit(nodes, init);
      VisitedGrows(nodes, order);
      NodeKeyIndexAdd(Visited(nodes, init), IndexAll(nodes, init).byNodeKey, last, nodes[last]);
    }
  }

  lemma {:induction false} MachineKeysFit(nodes: NodeTable, order: seq<NodeID>)
    requires NoDuplicates(order) && forall i :: 0 <= i < |order| ==> order[i] in nodes
    ensures MachineKeyIndex(Visited(nodes, order), IndexAll(nodes, order).byMachineKey)
  {
    if order != [] {
      var init, last := order[..|order| - 1], order[|order| - 1];
      MachineKeysFit(nodes, init);
      VisitedGrows(nodes, order);
      MachineKeyIndexAdd(Visited(nodes, init), IndexAll(nodes, init).byMachineKey, last, nodes[last]);
    }
  }

  method BuildIndexes(nodes: NodeTable) returns (ix: Indexes)
    ensures UserIndex(nodes, ix.byUser)
    ensures NodeKeyIndex(nodes, ix.byNodeKey)
    ensures MachineKeyIndex(nodes, ix.byMachineKey)
  {
    ix := Indexes(map[], map[], map[]);
    var todo := nodes.Keys;
    ghost var order: seq<NodeID> := [];
    while todo != {}
      invariant todo <= nodes.Keys
      invariant NoDuplicates(order) && forall id :: id in order <==> id in nodes && id !in todo
      invariant forall i :: 0 <= i < |order| ==> order[i] in nodes
      invariant ix == IndexAll(nodes, order)
      decreases todo
    {
      var id :| id in todo;
      ix := AddNode(ix, id, nodes[id]);
      assert (order + [id])[..|order|] == order;
      order := order + [id];
      todo := todo - {id};
    }
    assert Visited(nodes, order) == nodes;
    UsersFit(nodes, order);
    NodeKeysFit(nodes, order);
    MachineKeysFit(nodes, order);
  }

  /** Builds a snapshot; a reuse flag carries the previous snapshot's data over unchanged. */
  method SnapshotFromNodes(pf: PeersFunc, policy: Policy, nodes: NodeTable, prev: Option<Snapshot>,
                           reusePeers: bool, reuseRoutes: bool)
    returns (snap: Snapshot)
    requires prev.None? ==> !reusePeers && !reuseRoutes
    ensures snap.nodes == nodes && Indexed(snap)
    ensures snap.peers == (if reusePeers then prev.value.peers else pf(policy, PolicyView(nodes)))
    ensures reuseRoutes ==> snap.routes == prev.value.routes && snap.isPrimary == prev.value.isPrimary
    ensures !reuseRoutes ==>
      && snap.routes == Elect(ElectionView(nodes), if prev.Some? then prev.value.routes else map[])
      && snap.isPrimary == Primaries(snap.routes)
  {
    var routes: ScopedRoutes, isPrimary: set<NodeID>;
    if reuseRoutes {
      routes, isPrimary := prev.value.routes, prev.value.isPrimary;
    } else {
      routes, isPrimary := ElectPrimaryRoutes(nodes, if prev.Some? then prev.value.routes else map[]);
    }
    var peers := if reusePeers then prev.value.peers else pf(policy, PolicyView(nodes));
    var ix := BuildIndexes(nodes);
    var views := map id | id in nodes :: NodeView(id, nodes[id]);
    snap := Snapshot(nodes, views, peers, ix.byNodeKey, ix.byMachineKey, ix.byUser, routes, isPrimary);
  }

  // ----- Applying a batch --------------------------------------------------------------

  method RunUpdates(nodes: NodeTable, relation: bool, election: bool, us: seq<(NodeID, Node -> Node)>)
    returns (nodes': NodeTable, relation': bool, election': bool)
    ensures Batch(nodes', relation', election') == ApplyUpdates(Batch(nodes, relation, election), us)
  {
    nodes', relation', election' := nodes, relation, election;
    for i := 0 to |us|
      invariant Batch(nodes', relation', election') == ApplyUpdates(Batch(nodes, relation, election), us[..i])
    {
      var (id, fn) := us[i];
      assert us[..i + 1][..i] == us[..i];
      if id in nodes' {
        var pre := nodes'[id];
        var n := fn(pre);
        if n.givenName != pre.givenName {
          var name := ResolveGivenName(nodes', id, n.givenName);
          n := n.(givenName := name);
        }
        nodes' := nodes'[id := n];
        var (r, e) := UpdateChanges(pre, n);
        relation' := relation' || r;
        election' := election' || e;
      }
    }
    assert us[..|us|] == us;
  }

  method CheckRename(nodes: NodeTable, id: NodeID, name: string) returns (err: Option<NameError>)
    ensures err == NameOutcome(nodes, id, name)
  {
    if id !in nodes { return Some(NodeNotFound); }
    if !ValidLabel(name) { return Some(GivenNameInvalid); }
    var todo := nodes.Keys;
    while todo != {}
      invariant forall other :: other in nodes && other !in todo && other != id ==> nodes[other].givenName != name
      invariant todo <= nodes.Keys
      decreases todo
    {
      var other :| other in todo;
      if other != id && nodes[other].givenName == name { return Some(GivenNameTaken); }
      todo := todo - {other};
    }
    return None;
  }

  method RunOp(nodes: NodeTable, relation: bool, election: bool, op: Op)
    returns (nodes': NodeTable, relation': bool, election': bool, err: Option<NameError>)
    ensures Batch(nodes', relation', election') == ApplyOp(Batch(nodes, relation, election), op)
    ensures err == if op.SetName? then NameOutcome(nodes, op.id, op.name) else None
  {
    nodes', relation', election', err := nodes, true, true, None;
    match op
    case Put(id, n) =>
      var name := ResolveGivenName(nodes, id, n.givenName);
      nodes' := nodes[id := n.(givenName := name)];
    case UpdateMulti(us) =>
      nodes', relation', election' := RunUpdates(nodes, relation, election, us);
    case Del(id) =>
      nodes' := nodes - {id};
    case SetName(id, name) =>
      err := CheckRename(nodes, id, name);
      if err.Some? { return nodes, relation, election, err; }
      nodes' := nodes[id := nodes[id].(givenName := name)];
    case RebuildPeerMaps =>
  }

  class Store {
    const peersFunc: PeersFunc
    var data: Snapshot

    constructor (pf: PeersFunc, policy: Policy, nodes: NodeTable)
      ensures peersFunc == pf && data.nodes == nodes && Loaded(pf, policy, data)
    {
      peersFunc := pf;
      var snap := SnapshotFromNodes(pf, policy, nodes, None, false, false);
      data := snap;
    }

    /** Applies the operations in order to a copy of the table, then publishes one snapshot. */
    method ApplyBatch(policy: Policy, batch: seq<Op>) returns (errs: seq<Option<NameError>>)
      modifies this
      ensures BatchStep(peersFunc, policy, old(data), batch, data)
      ensures |errs| == |batch|
      ensures forall i :: 0 <= i < |batch| ==> errs[i] == NameErrorAt(old(data.nodes), batch, i)
    {
      var nodes, relation, election := data.nodes, false, false;
      ghost var start := Batch(data.nodes, false, false);
      errs := [];
      for i := 0 to |batch|
        invariant data == old(data)
        invariant Batch(nodes, relation, election) == ApplyOps(start, batch[..i])
        invariant |errs| == i && forall j :: 0 <= j < i ==> errs[j] == NameErrorAt(data.nodes, batch, j)
      {
        assert batch[..i + 1][..i] == batch[..i];
        var err;
        nodes, relation, election, err := RunOp(nodes, relation, election, batch[i]);
        errs := errs + [err];
      }
      assert batch[..|batch|] == batch;
      var snap := SnapshotFromNodes(peersFunc, policy, nodes, Some(data), !relation, !election);
      data := snap;
    }
  }

  // ----- Reading a snapshot ------------------------------------------------------------

  /** The current views of the listed nodes that exist, in order. */
  function CurrentViews(t: NodeTable, ids: seq<NodeID>): (views: seq<NodeView>)
    ensures forall nv :: nv in views <==> nv.id in ids && IsCurrent(t, nv)
    ensures (forall i :: 0 <= i < |ids| ==> ids[i] in t) ==> |views| == |ids|
  {
    if ids == [] then []
    else
      var init, last := ids[..|ids| - 1], ids[|ids| - 1];
      assert ids == init + [last];
      if last in t then CurrentViews(t, init) + [NodeView(last, t[last])] else CurrentViews(t, init)
  }

  lemma {:induction false} CurrentViewsInOrder(t: NodeTable, ids: seq<NodeID>, i: nat)
    requires i < |ids| && forall j :: 0 <= j < |ids| ==> ids[j] in t
    ensures |CurrentViews(t, ids)| == |ids| && CurrentViews(t, ids)[i] == NodeView(ids[i], t[ids[i]])
  {
    if i < |ids| - 1 { CurrentViewsInOrder(t, ids[..|ids| - 1], i); }
  }

  /** The current views of a node's peers. */
  method ListPeers(s: Snapshot, id: NodeID) returns (peers: seq<NodeView>)
    requires s.views == map x | x in s.nodes :: NodeView(x, s.nodes[x])
    ensures peers == CurrentViews(s.nodes, if id in s.peers then s.peers[id] else [])
  {
    var ids := if id in s.peers then s.peers[id] else [];
    peers := [];
    for i := 0 to |ids|
      invariant peers == CurrentViews(s.nodes, ids[..i])
    {
      assert ids[..i + 1][..i] == ids[..i];
      if ids[i] in s.views { peers := peers + [s.views[ids[i]]]; }
    }
    assert ids[..|ids|] == ids;
  }

  predicate ServesIn(routes: ScopedRoutes, scope: UserID, p: Prefix, id: NodeID)
  {
    scope in routes && p in routes[scope] && routes[scope][p] == id
  }

  /** Appends the prefixes of one scope that id serves. */
  method AppendServed(userRoutes: Routes, id: NodeID, before: seq<Prefix>) returns (out: seq<Prefix>)
    ensures forall p :: p in out <==> p in before || (p in userRoutes && userRoutes[p] == id)
    ensures NoDuplicates(before) && (forall p :: p in before ==> !(p in userRoutes && userRoutes[p] == id))
      ==> NoDuplicates(out)
  {
    out := before;
    var todo := userRoutes.Keys;
    while todo != {}
      invariant todo <= userRoutes.Keys
      invariant forall p :: p in out <==> p in before || (p in userRoutes && p !in todo && userRoutes[p] == id)
      invariant NoDuplicates(before) && (forall p :: p in before ==> !(p in userRoutes && userRoutes[p] == id))
        ==> NoDuplicates(out)
      decreases todo
    {
      var p :| p in todo;
      if userRoutes[p] == id { out := out + [p]; }
      todo := todo - {p};
    }
  }

  /** The prefixes id is primary for, across all scopes. */
  method PrimaryRoutesForNode(s: Snapshot, id: NodeID) returns (out: seq<Prefix>)
    requires s.isPrimary == Primaries(s.routes)
    ensures forall p :: p in out <==> exists scope :: ServesIn(s.routes, scope, p, id)
    ensures (forall a, b, p :: ServesIn(s.routes, a, p, id) && ServesIn(s.routes, b, p, id) ==> a == b)
      ==> NoDuplicates(out)
  {
    out := [];
    if id !in s.isPrimary { return; }
    var todo := s.routes.Keys;
    while todo != {}
      invariant todo <= s.routes.Keys
      invariant forall p :: p in out <==> exists scope :: scope !in todo && ServesIn(s.routes, scope, p, id)
      invariant (forall a, b, p :: ServesIn(s.routes, a, p, id) && ServesIn(s.routes, b, p, id) ==> a == b)
        ==> NoDuplicates(out)
      decreases todo
    {
      var scope :| scope in todo;
      var before := out;
      out := AppendServed(s.routes[scope], id, before);
      assert forall p :: p in s.routes[scope] && s.routes[scope][p] == id <==> ServesIn(s.routes, scope, p, id);
      todo := todo - {scope};
    }
  }

  /** Prefixes with at least two entries among the online advertisers, with those advertisers in
      ascending order. Visiting the nodes in ID order yields the sorted lists directly. */
  method HANodes(s: Snapshot) returns (out: map<Prefix, seq<NodeID>>)
    ensures forall p :: p in out ==> IsCandidateList(ElectionView(s.nodes), p, out[p]) && |out[p]| >= 2
    ensures forall p, a, b ::
              a != b && Candidate(ElectionView(s.nodes), p, a) && Candidate(ElectionView(s.nodes), p, b)
              ==> p in out && a in out[p] && b in out[p]
  {
    var advertisers := ListAdvertisers(s.nodes);
    out := map p | p in advertisers && |advertisers[p]| >= 2 :: advertisers[p];
    HACovers(ElectionView(s.nodes), advertisers);
  }

  lemma HACovers(v: View, adv: Advertisers)
    requires adv.Keys == Advertised(v) && forall p :: p in adv ==> IsCandidateList(v, p, adv[p])
    ensures forall p, a, b ::
              a != b && Candidate(v, p, a) && Candidate(v, p, b)
              ==> p in adv && |adv[p]| >= 2 && a in adv[p] && b in adv[p]
  {
  }
}
