/**
 The copy-on-write node store. A single writer applies a batch of operations to a copy of the
 node table and publishes a snapshot. The snapshot's derived data (peer adjacency, primary
 routes, lookup indexes) is recomputed or, when the batch's flags say no input moved, reused.

 The peer computation is a parameter: a function of the policy in force and of the nodes'
 policy inputs. A policy is identified by a number; loading another one is a step of its own.
 */
module Snapshots {
  import opened Basics
  import opened Nodes
  import opened Election
  import opened Names

  type Policy = nat
  type Adjacency = map<NodeID, seq<NodeID>>
  type PeersFunc = (Policy, map<NodeID, PolicyInput>) -> Adjacency

  datatype NodeView = NodeView(id: NodeID, node: Node)

  /** A queued write. UpdateMulti lists its entries in the order the writer visits them. */
  datatype Op =
    | Put(id: NodeID, node: Node)
    | UpdateMulti(updates: seq<(NodeID, Node -> Node)>)
    | Del(id: NodeID)
    | SetName(id: NodeID, name: string)
    | RebuildPeerMaps

  datatype NameError = NodeNotFound | GivenNameInvalid | GivenNameTaken

  datatype Snapshot = Snapshot(
    nodes: NodeTable,
    views: map<NodeID, NodeView>,
    peers: Adjacency,
    byNodeKey: NodeKeys,
    byMachineKey: MachineKeys,
    byUser: UserLists,
    routes: ScopedRoutes,
    isPrimary: set<NodeID>)

  // ----- What a batch does -------------------------------------------------------------

  /** The table under construction and the two flags that force recomputation. */
  datatype Batch = Batch(nodes: NodeTable, relation: bool, election: bool)

  predicate IsAlnum(c: char) { 'a' <= c <= 'z' || 'A' <= c <= 'Z' || '0' <= c <= '9' }

  predicate ValidLabel(s: string)
  {
    && 0 < |s| <= 63
    && IsAlnum(s[0]) && IsAlnum(s[|s| - 1])
    && forall i :: 0 <= i < |s| ==> IsAlnum(s[i]) || s[i] == '-'
  }

  predicate Taken(nodes: NodeTable, id: NodeID, name: string)
  {
    exists other :: other in nodes && other != id && nodes[other].givenName == name
  }

  function NameOutcome(nodes: NodeTable, id: NodeID, name: string): Option<NameError>
  {
    if id !in nodes then Some(NodeNotFound)
    else if !ValidLabel(name) then Some(GivenNameInvalid)
    else if Taken(nodes, id, name) then Some(GivenNameTaken)
    else None
  }

  ghost function Renamed(nodes: NodeTable, id: NodeID, pre: Node, post: Node): Node
  {
    if post.givenName == pre.givenName then post
    else post.(givenName := Resolved(nodes, id, post.givenName))
  }

  ghost function ApplyUpdate(b: Batch, u: (NodeID, Node -> Node)): Batch
  {
    if u.0 !in b.nodes then b
    else
      var pre := b.nodes[u.0];
      var post := Renamed(b.nodes, u.0, pre, u.1(pre));
      var (relation, election) := UpdateChanges(pre, post);
      Batch(b.nodes[u.0 := post], b.relation || relation, b.election || election)
  }

  ghost function ApplyUpdates(b: Batch, us: seq<(NodeID, Node -> Node)>): Batch
  {
    if us == [] then b else ApplyUpdate(ApplyUpdates(b, us[..|us| - 1]), us[|us| - 1])
  }

  ghost function ApplyOp(b: Batch, op: Op): Batch
  {
    match op
    case Put(id, n) => Batch(b.nodes[id := n.(givenName := Resolved(b.nodes, id, n.givenName))], true, true)
    case UpdateMulti(us) => ApplyUpdates(b, us)
    case Del(id) => Batch(b.nodes - {id}, true, true)
    case SetName(id, name) =>
      if NameOutcome(b.nodes, id, name).Some? then b
      else Batch(b.nodes[id := b.nodes[id].(givenName := name)], true, true)
    case RebuildPeerMaps => Batch(b.nodes, true, true)
  }

  ghost function ApplyOps(b: Batch, ops: seq<Op>): Batch
  {
    if ops == [] then b else ApplyOp(ApplyOps(b, ops[..|ops| - 1]), ops[|ops| - 1])
  }

  /** What the rename at position i of a batch reports; None when it succeeds or is no rename. */
  ghost function NameErrorAt(start: NodeTable, ops: seq<Op>, i: nat): Option<NameError>
    requires i < |ops|
  {
    if !ops[i].SetName? then None
    else NameOutcome(ApplyOps(Batch(start, false, false), ops[..i]).nodes, ops[i].id, ops[i].name)
  }

  // ----- Snapshots ---------------------------------------------------------------------

  predicate IsCurrent(t: NodeTable, nv: NodeView)
  {
    nv.id in t && nv.node == t[nv.id]
  }

  type UserLists = map<UserID, seq<NodeView>>
  type NodeKeys = map<nat, NodeView>
  type MachineKeys = map<nat, map<UserID, NodeView>>

  function UserList(byUser: UserLists, u: UserID): seq<NodeView>
  {
    if u in byUser then byUser[u] else []
  }

  /** A user's list holds exactly the untagged nodes of that user, each once. */
  ghost predicate UserIndex(t: NodeTable, byUser: UserLists)
  {
    && (forall u :: NoDuplicates(UserList(byUser, u)))
    && (forall u, nv {:trigger nv in UserList(byUser, u)} ::
          nv in UserList(byUser, u) <==>
          IsCurrent(t, nv) && !nv.node.IsTagged() && nv.node.TypedUserID() == u)
  }

  /** A node-key lookup returns a current holder of that key, and misses only when there is none. */
  ghost predicate NodeKeyIndex(t: NodeTable, byNodeKey: NodeKeys)
  {
    && (forall k :: k in byNodeKey ==> IsCurrent(t, byNodeKey[k]) && byNodeKey[k].node.nodeKey == k)
    && (forall id :: id in t ==> t[id].nodeKey in byNodeKey)
  }

  /** Likewise for machine keys, per owning user. */
  ghost predicate MachineKeyIndex(t: NodeTable, byMachineKey: MachineKeys)
  {
    && (forall k, u :: k in byMachineKey && u in byMachineKey[k] ==>
          var nv := byMachineKey[k][u];
          IsCurrent(t, nv) && nv.node.machineKey == k && nv.node.TypedUserID() == u)
    && (forall id :: id in t ==>
          t[id].machineKey in byMachineKey && t[id].TypedUserID() in byMachineKey[t[id].machineKey])
  }

  /** Every lookup index agrees with the node table. */
  ghost predicate Indexed(s: Snapshot)
  {
    && s.views == (map id | id in s.nodes :: NodeView(id, s.nodes[id]))
    && UserIndex(s.nodes, s.byUser)
    && NodeKeyIndex(s.nodes, s.byNodeKey)
    && MachineKeyIndex(s.nodes, s.byMachineKey)
  }

  /** What one batch publishes in place of prev, under the given policy. */
  ghost predicate Publishes(pf: PeersFunc, policy: Policy, prev: Snapshot, ops: seq<Op>, next: Snapshot)
  {
    var b := ApplyOps(Batch(prev.nodes, false, false), ops);
    && next.nodes == b.nodes
    && next.routes == (if b.election then Elect(ElectionView(b.nodes), prev.routes) else prev.routes)
    && next.isPrimary == (if b.election then Primaries(next.routes) else prev.isPrimary)
    && next.peers == (if b.relation then pf(policy, PolicyView(b.nodes)) else prev.peers)
  }

  ghost predicate BatchStep(pf: PeersFunc, policy: Policy, prev: Snapshot, ops: seq<Op>, next: Snapshot)
  {
    Publishes(pf, policy, prev, ops, next) && Indexed(next)
  }

  /** A freshly loaded store: everything computed, no previous assignment. */
  ghost predicate Loaded(pf: PeersFunc, policy: Policy, s: Snapshot)
  {
    && s.routes == Elect(ElectionView(s.nodes), map[])
    && s.isPrimary == Primaries(s.routes)
    && s.peers == pf(policy, PolicyView(s.nodes))
    && Indexed(s)
  }
}
