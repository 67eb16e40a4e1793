/**
 What every reachable snapshot of the node store satisfies: reused data equals recomputed
 data, the election keeps its promises across whole runs, and given names stay unique.
 */
module StoreTheorems {
  import opened Basics
  import opened Nodes
  import opened Election
  import opened Names
  import opened Snapshots
  import opened NodeStore

  // ----- Reuse flags are sound across a batch ------------------------------------------

  /** A clear flag means that the corresponding inputs are those of the table the batch began with. */
  ghost predicate FlagsSound(start: NodeTable, b: Batch)
  {
    && (!b.relation ==> PolicyView(b.nodes) == PolicyView(start))
    && (!b.election ==> ElectionView(b.nodes) == ElectionView(start))
    && (b.relation ==> b.election)
  }

  lemma SamePolicyView(t: NodeTable, id: NodeID, post: Node)
    requires id in t && PolicyInputOf(t[id]) == PolicyInputOf(post)
    ensures PolicyView(t[id := post]) == PolicyView(t)
  {
  }

  lemma SameElectionView(t: NodeTable, id: NodeID, post: Node)
    requires id in t && ElectionInputOf(t[id]) == ElectionInputOf(post)
    ensures ElectionView(t[id := post]) == ElectionView(t)
  {
  }

  /** The views an update leaves unchanged, as reported by the detectors. */
  lemma DetectedUpdate(t: NodeTable, id: NodeID, post: Node)
    requires id in t
    ensures !UpdateChanges(t[id], post).0 ==> PolicyView(t[id := post]) == PolicyView(t)
    ensures !UpdateChanges(t[id], post).1 ==> ElectionView(t[id := post]) == ElectionView(t)
    ensures UpdateChanges(t[id], post).0 ==> UpdateChanges(t[id], post).1
  {
    UpdateChangesSound(t[id], post);
    if !UpdateChanges(t[id], post).0 { SamePolicyView(t, id, post); }
    if !UpdateChanges(t[id], post).1 { SameElectionView(t, id, post); }
  }

  lemma UpdateKeepsFlagsSound(start: NodeTable, b: Batch, u: (NodeID, Node -> Node))
    requires FlagsSound(start, b)
    ensures FlagsSound(start, ApplyUpdate(b, u))
  {
    if u.0 in b.nodes {
      var pre := b.nodes[u.0];
      DetectedUpdate(b.nodes, u.0, Renamed(b.nodes, u.0, pre, u.1(pre)));
    }
  }

  lemma {:induction false} UpdatesKeepFlagsSound(start: NodeTable, b: Batch, us: seq<(NodeID, Node -> Node)>)
    requires FlagsSound(start, b)
    ensures FlagsSound(start, ApplyUpdates(b, us))
  {
    if us != [] {
      UpdatesKeepFlagsSound(start, b, us[..|us| - 1]);
      UpdateKeepsFlagsSound(start, ApplyUpdates(b, us[..|us| - 1]), us[|us| - 1]);
    }
  }

  lemma OpKeepsFlagsSound(start: NodeTable, b: Batch, op: Op)
    requires FlagsSound(start, b)
    ensures FlagsSound(start, ApplyOp(b, op))
  {
    match op
    case UpdateMulti(us) => UpdatesKeepFlagsSound(start, b, us);
    case Put(id, n) =>
    case Del(id) =>
    case SetName(id, name) =>
    case RebuildPeerMaps =>
  }

  lemma {:induction false} OpsKeepFlagsSound(start: NodeTable, b: Batch, ops: seq<Op>)
    requires FlagsSound(start, b)
    ensures FlagsSound(start, ApplyOps(b, ops))
  {
    if ops != [] {
      OpsKeepFlagsSound(start, b, ops[..|ops| - 1]);
      OpKeepsFlagsSound(start, ApplyOps(b, ops[..|ops| - 1]), ops[|ops| - 1]);
    }
  }

  // ----- Cached snapshots refine full recomputation ------------------------------------

  /** The derived data a full recomputation would produce. built is the policy in force when the
      adjacency was last recomputed. */
  ghost predicate Consistent(pf: PeersFunc, built: Policy, s: Snapshot)
  {
    && RoutesSettled(s)
    && s.isPrimary == Primaries(s.routes)
    && s.peers == pf(built, PolicyView(s.nodes))
    && Indexed(s)
  }

  /** The policy the adjacency reflects after a batch. */
  ghost function BuiltAfter(built: Policy, policy: Policy, prev: Snapshot, ops: seq<Op>): Policy
  {
    if ApplyOps(Batch(prev.nodes, false, false), ops).relation then policy else built
  }

  /** The routes are what an election on the current table makes of them. */
  ghost predicate RoutesSettled(s: Snapshot)
  {
    s.routes == Elect(ElectionView(s.nodes), s.routes)
  }

  /** Whether or not the flags allowed reuse, the published routes are those a re-election on the
      new table yields, and they are settled. */
  lemma BatchReelects(pf: PeersFunc, policy: Policy, prev: Snapshot, ops: seq<Op>, next: Snapshot)
    requires RoutesSettled(prev) && Publishes(pf, policy, prev, ops, next)
    ensures next.routes == Elect(ElectionView(next.nodes), prev.routes)
    ensures RoutesSettled(next)
  {
    OpsKeepFlagsSound(prev.nodes, Batch(prev.nodes, false, false), ops);
    ElectIdempotent(ElectionView(next.nodes), prev.routes);
  }

  /** Likewise the adjacency is the one a recomputation yields. */
  lemma BatchKeepsConsistent(pf: PeersFunc, built: Policy, policy: Policy,
                             prev: Snapshot, ops: seq<Op>, next: Snapshot)
    requires Consistent(pf, built, prev)
    requires BatchStep(pf, policy, prev, ops, next)
    ensures Consistent(pf, BuiltAfter(built, policy, prev, ops), next)
  {
    BatchReelects(pf, policy, prev, ops, next);
    OpsKeepFlagsSound(prev.nodes, Batch(prev.nodes, false, false), ops);
  }

  lemma LoadedIsConsistent(pf: PeersFunc, policy: Policy, s: Snapshot)
    requires Loaded(pf, policy, s)
    ensures Consistent(pf, policy, s)
  {
    ElectIdempotent(ElectionView(s.nodes), map[]);
  }

  // ----- Runs --------------------------------------------------------------------------

  datatype State = State(snap: Snapshot, policy: Policy, built: Policy)

  datatype Event = LoadPolicy(policy: Policy) | Write(ops: seq<Op>)

  ghost predicate Step(pf: PeersFunc, s: State, e: Event, s': State)
  {
    match e
    case LoadPolicy(p) => s' == s.(policy := p)
    case Write(ops) =>
      && s'.policy == s.policy
      && BatchStep(pf, s.policy, s.snap, ops, s'.snap)
      && s'.built == BuiltAfter(s.built, s.policy, s.snap, ops)
  }

  /** A history of the store, from loading to the state it has reached. */
  datatype Run = Start(first: State) | Then(before: Run, event: Event, state: State)
  {
    function Last(): State { if Start? then first else state }
  }

  ghost predicate IsRun(pf: PeersFunc, run: Run)
  {
    match run
    case Start(s) => s.built == s.policy && Loaded(pf, s.policy, s.snap)
    case Then(before, e, s) => IsRun(pf, before) && Step(pf, before.Last(), e, s)
  }

  /** In every reachable snapshot the cached data equals a full recomputation. */
  lemma {:induction false} CacheRefinesRecompute(pf: PeersFunc, run: Run)
    requires IsRun(pf, run)
    ensures Consistent(pf, run.Last().built, run.Last().snap)
  {
    match run
    case Start(s) => LoadedIsConsistent(pf, s.policy, s.snap);
    case Then(before, e, s) =>
      CacheRefinesRecompute(pf, before);
      StepKeepsConsistent(pf, before.Last(), e, s);
  }

  lemma StepKeepsConsistent(pf: PeersFunc, s: State, e: Event, s': State)
    requires Consistent(pf, s.built, s.snap) && Step(pf, s, e, s')
    ensures Consistent(pf, s'.built, s'.snap)
  {
    if e.Write? { BatchKeepsConsistent(pf, s.built, s.policy, s.snap, e.ops, s'.snap); }
  }

  /** The policy loaded at the start of a run in which no other policy is loaded. */
  ghost predicate NoPolicyLoaded(run: Run)
  {
    run.Then? ==> run.event.Write? && NoPolicyLoaded(run.before)
  }

  /** While no other policy is loaded, the adjacency is the current policy's. */
  lemma FixedPolicyAdjacency(pf: PeersFunc, run: Run)
    requires IsRun(pf, run) && NoPolicyLoaded(run)
    ensures run.Last().snap.peers == pf(run.Last().policy, PolicyView(run.Last().snap.nodes))
  {
    CacheRefinesRecompute(pf, run);
    BuiltUnderFixedPolicy(pf, run);
  }

  lemma {:induction false} BuiltUnderFixedPolicy(pf: PeersFunc, run: Run)
    requires IsRun(pf, run) && NoPolicyLoaded(run)
    ensures run.Last().built == run.Last().policy
  {
    if run.Then? { BuiltUnderFixedPolicy(pf, run.before); }
  }

  lemma {:induction false} RebuildSetsRelation(b: Batch, ops: seq<Op>)
    requires b.relation || RebuildPeerMaps in ops
    ensures ApplyOps(b, ops).relation
  {
    if ops != [] {
      var init, last := ops[..|ops| - 1], ops[|ops| - 1];
      if last == RebuildPeerMaps {
      } else {
        assert ops == init + [last];
        RebuildSetsRelation(b, init);
        if last.UpdateMulti? { UpdatesKeepRelation(ApplyOps(b, init), last.updates); }
      }
    }
  }

  lemma {:induction false} UpdatesKeepRelation(b: Batch, us: seq<(NodeID, Node -> Node)>)
    requires b.relation
    ensures ApplyUpdates(b, us).relation
  {
    if us != [] { UpdatesKeepRelation(b, us[..|us| - 1]); }
  }

  /** A batch that carries a rebuild publishes the adjacency of the policy in force. */
  lemma RebuildAdoptsPolicy(pf: PeersFunc, policy: Policy, prev: Snapshot, ops: seq<Op>, next: Snapshot)
    requires BatchStep(pf, policy, prev, ops, next)
    requires RebuildPeerMaps in ops
    ensures next.peers == pf(policy, PolicyView(next.nodes))
  {
    RebuildSetsRelation(Batch(prev.nodes, false, false), ops);
  }

  // ----- Election over whole runs ------------------------------------------------------

  predicate HealthyIn(s: Snapshot, scope: UserID, p: Prefix, id: NodeID)
  {
    var v := ElectionView(s.nodes);
    ScopeCandidate(v, scope, p, id) && !v[id].unhealthy
  }

  function PrimaryOf(s: Snapshot, scope: UserID, p: Prefix): Option<NodeID>
  {
    var r := Get(s.routes, scope);
    if p in r then Some(r[p]) else None
  }

  /** In every reachable snapshot: a primary is an online, approved, non-exit advertiser whose own
      scope is the one it serves, and a prefix with a healthy candidate has a healthy primary. */
  lemma PrimariesAreSafe(pf: PeersFunc, run: Run, scope: UserID, p: Prefix)
    requires IsRun(pf, run)
    ensures var s := run.Last().snap;
            var primary := PrimaryOf(s, scope, p);
            && (primary.Some? ==>
                  && primary.value in s.nodes
                  && var n := s.nodes[primary.value];
                     n.Online() && n.Scope() == scope && p in n.announced && p in n.approved && !p.IsExit())
            && ((exists id :: HealthyIn(s, scope, p, id)) ==>
                  primary.Some? && HealthyIn(s, scope, p, primary.value))
  {
    CacheRefinesRecompute(pf, run);
    SettledIsSafe(run.Last().snap, scope, p);
  }

  lemma SettledIsSafe(s: Snapshot, scope: UserID, p: Prefix)
    requires RoutesSettled(s)
    ensures var primary := PrimaryOf(s, scope, p);
            && (primary.Some? ==>
                  && primary.value in s.nodes
                  && var n := s.nodes[primary.value];
                     n.Online() && n.Scope() == scope && p in n.announced && p in n.approved && !p.IsExit())
            && ((exists id :: HealthyIn(s, scope, p, id)) ==>
                  primary.Some? && HealthyIn(s, scope, p, primary.value))
  {
    var v := ElectionView(s.nodes);
    ElectionSafety(v, s.routes, scope, p);
    if id :| HealthyIn(s, scope, p, id) { assert ScopeCandidate(v, scope, p, id) && !v[id].unhealthy; }
    var primary := PrimaryOf(s, scope, p);
    if primary.Some? { assert p in s.nodes[primary.value].SubnetRoutes(); }
  }

  /** One event either leaves the primary alone or the old one stopped being a healthy candidate;
      and a newly chosen primary is the lowest-ID healthy candidate. */
  lemma PrimaryMovesOnlyWhenLost(pf: PeersFunc, s: State, e: Event, s': State, scope: UserID, p: Prefix)
    requires RoutesSettled(s.snap) && Step(pf, s, e, s')
    ensures var was, now := PrimaryOf(s.snap, scope, p), PrimaryOf(s'.snap, scope, p);
            && (was.Some? && HealthyIn(s'.snap, scope, p, was.value) ==> now == was)
            && (now.Some? && now != was ==>
                  && HealthyIn(s'.snap, scope, p, now.value)
                  && forall id :: HealthyIn(s'.snap, scope, p, id) ==> now.value <= id)
  {
    var v := ElectionView(s'.snap.nodes);
    if e.Write? {
      BatchReelects(pf, s.policy, s.snap, e.ops, s'.snap);
    }
    ElectionSafety(v, s.snap.routes, scope, p);
    ElectionStability(v, s.snap.routes, scope, p);
  }

  /** run continues base, and id is a healthy candidate in every snapshot published since. */
  ghost predicate HealthySince(base: Run, run: Run, scope: UserID, p: Prefix, id: NodeID)
  {
    || run == base
    || (run.Then? && HealthyIn(run.state.snap, scope, p, id) && HealthySince(base, run.before, scope, p, id))
  }

  /** A primary that stays a healthy candidate through every later batch is never displaced. */
  lemma {:induction false} NoFlap(pf: PeersFunc, base: Run, run: Run, scope: UserID, p: Prefix, id: NodeID)
    requires IsRun(pf, run) && HealthySince(base, run, scope, p, id)
    requires PrimaryOf(base.Last().snap, scope, p) == Some(id)
    ensures PrimaryOf(run.Last().snap, scope, p) == Some(id)
  {
    if run != base {
      NoFlap(pf, base, run.before, scope, p, id);
      CacheRefinesRecompute(pf, run.before);
      PrimaryMovesOnlyWhenLost(pf, run.before.Last(), run.event, run.state, scope, p);
    }
  }

  // ----- Given names -------------------------------------------------------------------

  /** Names are non-empty and no two nodes share one. */
  ghost predicate NamesUnique(t: NodeTable)
  {
    && (forall id :: id in t ==> t[id].givenName != "")
    && (forall a, b :: a in t && b in t && a != b ==> t[a].givenName != t[b].givenName)
  }

  lemma NameFreshInsert(t: NodeTable, id: NodeID, n: Node)
    requires NamesUnique(t)
    requires n.givenName != "" && forall o :: o in t && o != id ==> t[o].givenName != n.givenName
    ensures NamesUnique(t[id := n])
  {
  }

  lemma UpdateKeepsNames(b: Batch, u: (NodeID, Node -> Node))
    requires NamesUnique(b.nodes)
    ensures NamesUnique(ApplyUpdate(b, u).nodes)
  {
    if u.0 in b.nodes {
      var pre := b.nodes[u.0];
      var post := Renamed(b.nodes, u.0, pre, u.1(pre));
      ResolvedIsFirstFree(b.nodes, u.0, u.1(pre).givenName);
      NameFreshInsert(b.nodes, u.0, post);
    }
  }

  lemma {:induction false} UpdatesKeepNames(b: Batch, us: seq<(NodeID, Node -> Node)>)
    requires NamesUnique(b.nodes)
    ensures NamesUnique(ApplyUpdates(b, us).nodes)
  {
    if us != [] {
      UpdatesKeepNames(b, us[..|us| - 1]);
      UpdateKeepsNames(ApplyUpdates(b, us[..|us| - 1]), us[|us| - 1]);
    }
  }

  lemma OpKeepsNames(b: Batch, op: Op)
    requires NamesUnique(b.nodes)
    ensures NamesUnique(ApplyOp(b, op).nodes)
  {
    match op
    case Put(id, n) =>
      ResolvedIsFirstFree(b.nodes, id, n.givenName);
      NameFreshInsert(b.nodes, id, n.(givenName := Resolved(b.nodes, id, n.givenName)));
    case UpdateMulti(us) =>
      UpdatesKeepNames(b, us);
    case SetName(id, name) =>
      if NameOutcome(b.nodes, id, name).None? {
        NameFreshInsert(b.nodes, id, b.nodes[id].(givenName := name));
      }
    case Del(id) =>
    case RebuildPeerMaps =>
  }

  lemma {:induction false} OpsKeepNames(b: Batch, ops: seq<Op>)
    requires NamesUnique(b.nodes)
    ensures NamesUnique(ApplyOps(b, ops).nodes)
  {
    if ops != [] {
      OpsKeepNames(b, ops[..|ops| - 1]);
      OpKeepsNames(ApplyOps(b, ops[..|ops| - 1]), ops[|ops| - 1]);
    }
  }

  lemma StepKeepsNames(pf: PeersFunc, s: State, e: Event, s': State)
    requires Step(pf, s, e, s') && NamesUnique(s.snap.nodes)
    ensures NamesUnique(s'.snap.nodes)
  {
    if e.Write? { OpsKeepNames(Batch(s.snap.nodes, false, false), e.ops); }
  }

  function FirstOf(run: Run): State { if run.Start? then run.first else FirstOf(run.before) }

  /** If the loaded names are unique and non-empty, so are the names of every reachable snapshot. */
  lemma {:induction false} NamesStayUnique(pf: PeersFunc, run: Run)
    requires IsRun(pf, run) && NamesUnique(FirstOf(run).snap.nodes)
    ensures NamesUnique(run.Last().snap.nodes)
  {
    if run.Then? {
      NamesStayUnique(pf, run.before);
      StepKeepsNames(pf, run.before.Last(), run.event, run.state);
    }
  }

  /** The rename path never picks another name: it stores exactly the requested one, or fails and
      leaves table and flags untouched; it succeeds iff the node exists, the label is valid and no
      other node holds it. */
  lemma SetNameExact(b: Batch, id: NodeID, name: string)
    ensures var b' := ApplyOp(b, SetName(id, name));
            var ok := id in b.nodes && ValidLabel(name) && !Taken(b.nodes, id, name);
            && (NameOutcome(b.nodes, id, name).None? <==> ok)
            && (ok ==> b'.nodes.Keys == b.nodes.Keys && b'.nodes[id] == b.nodes[id].(givenName := name)
                       && forall o :: o in b.nodes && o != id ==> b'.nodes[o] == b.nodes[o])
            && (!ok ==> b' == b)
  {
  }

  // ----- Lookups -----------------------------------------------------------------------

  /** The peer computation names only nodes it was given. */
  ghost predicate PeersClosed(pf: PeersFunc)
  {
    forall policy, v, id, i :: id in pf(policy, v) && 0 <= i < |pf(policy, v)[id]| ==> pf(policy, v)[id][i] in v
  }

  /** However old the adjacency is, every ID in it still resolves to a current view. */
  lemma AdjacencyResolves(pf: PeersFunc, run: Run, id: NodeID, i: nat)
    requires IsRun(pf, run) && PeersClosed(pf)
    requires id in run.Last().snap.peers && i < |run.Last().snap.peers[id]|
    ensures run.Last().snap.peers[id][i] in run.Last().snap.nodes
  {
    CacheRefinesRecompute(pf, run);
    var s := run.Last().snap;
    ClosedAt(pf, run.Last().built, s.nodes, s.peers, id, i);
  }

  lemma ClosedAt(pf: PeersFunc, built: Policy, t: NodeTable, peers: Adjacency, id: NodeID, i: nat)
    requires PeersClosed(pf) && peers == pf(built, PolicyView(t))
    requires id in peers && i < |peers[id]|
    ensures peers[id][i] in t
  {
    assert PolicyView(t).Keys == t.Keys;
  }

  /** A node is primary for a prefix in one scope only, so its prefixes are listed once. */
  lemma OneServingScope(pf: PeersFunc, run: Run, a: UserID, b: UserID, p: Prefix, id: NodeID)
    requires IsRun(pf, run)
    requires ServesIn(run.Last().snap.routes, a, p, id) && ServesIn(run.Last().snap.routes, b, p, id)
    ensures a == b
  {
    CacheRefinesRecompute(pf, run);
    var s := run.Last().snap;
    ElectionSafety(ElectionView(s.nodes), s.routes, a, p);
    ElectionSafety(ElectionView(s.nodes), s.routes, b, p);
  }

  // ----- Health results applied as one batch -------------------------------------------

  /** An unhealthy mark sticks only to a node that is still online and advertises something. */
  function HealthSetter(healthy: bool): Node -> Node
  {
    (n: Node) => if !healthy && (!n.Online() || |n.AllApprovedRoutes()| == 0) then n else n.(unhealthy := !healthy)
  }

  /** The single write that carries a set of health results, in some order. */
  function HealthOp(results: seq<(NodeID, bool)>): Op
  {
    UpdateMulti(seq(|results|, i requires 0 <= i < |results| => (results[i].0, HealthSetter(results[i].1))))
  }

  /** The tables differ in health flags only. */
  ghost predicate OnlyHealthMoved(t: NodeTable, t': NodeTable)
  {
    && t.Keys == t'.Keys
    && forall id :: id in t ==> t'[id] == t[id].(unhealthy := t'[id].unhealthy)
  }

  ghost predicate IsHealthUpdate(u: (NodeID, Node -> Node))
  {
    forall n :: u.1(n) == n.(unhealthy := u.1(n).unhealthy)
  }

  lemma UpdateWithoutRename(b: Batch, u: (NodeID, Node -> Node), post: Node)
    requires u.0 in b.nodes && post == u.1(b.nodes[u.0]) && post.givenName == b.nodes[u.0].givenName
    ensures ApplyUpdate(b, u).nodes == b.nodes[u.0 := post]
  {
  }

  lemma HealthMoved(t: NodeTable, id: NodeID, post: Node)
    requires id in t && post == t[id].(unhealthy := post.unhealthy)
    ensures OnlyHealthMoved(t, t[id := post])
  {
  }

  lemma HealthUpdateMovesOnlyHealth(b: Batch, u: (NodeID, Node -> Node))
    requires IsHealthUpdate(u)
    ensures OnlyHealthMoved(b.nodes, ApplyUpdate(b, u).nodes)
  {
    if u.0 in b.nodes {
      var post := u.1(b.nodes[u.0]);
      UpdateWithoutRename(b, u, post);
      HealthMoved(b.nodes, u.0, post);
    }
  }

  lemma {:induction false} HealthUpdatesMoveOnlyHealth(b: Batch, us: seq<(NodeID, Node -> Node)>)
    requires forall i :: 0 <= i < |us| ==> IsHealthUpdate(us[i])
    ensures OnlyHealthMoved(b.nodes, ApplyUpdates(b, us).nodes)
  {
    if us != [] {
      HealthUpdatesMoveOnlyHealth(b, us[..|us| - 1]);
      HealthUpdateMovesOnlyHealth(ApplyUpdates(b, us[..|us| - 1]), us[|us| - 1]);
    }
  }

  lemma CandidacyKept(t: NodeTable, t': NodeTable, scope: UserID, p: Prefix, id: NodeID)
    requires OnlyHealthMoved(t, t')
    ensures ScopeCandidate(ElectionView(t), scope, p, id) <==> ScopeCandidate(ElectionView(t'), scope, p, id)
  {
    if id in t { assert t'[id].SubnetRoutes() == t[id].SubnetRoutes(); }
  }

  ghost predicate AllUnhealthy(s: Snapshot, scope: UserID, p: Prefix)
  {
    forall id :: ScopeCandidate(ElectionView(s.nodes), scope, p, id) ==> ElectionView(s.nodes)[id].unhealthy
  }

  lemma HealthBatchMovesOnlyHealth(pf: PeersFunc, policy: Policy, s: Snapshot, results: seq<(NodeID, bool)>,
                                   s': Snapshot)
    requires Publishes(pf, policy, s, [HealthOp(results)], s')
    ensures OnlyHealthMoved(s.nodes, s'.nodes)
  {
    var b := Batch(s.nodes, false, false);
    var us := HealthOp(results).updates;
    assert ApplyOps(b, [HealthOp(results)]) == ApplyOp(ApplyOps(b, []), HealthOp(results));
    HealthUpdatesMoveOnlyHealth(b, us);
  }

  lemma AllUnhealthyKeeps(t: NodeTable, t': NodeTable, routes: ScopedRoutes, scope: UserID, p: Prefix)
    requires routes == Elect(ElectionView(t), routes) && OnlyHealthMoved(t, t')
    requires forall id :: ScopeCandidate(ElectionView(t'), scope, p, id) ==> ElectionView(t')[id].unhealthy
    ensures var r, r' := Get(routes, scope), Get(Elect(ElectionView(t'), routes), scope);
            (p in r <==> p in r') && (p in r ==> r'[p] == r[p])
  {
    ElectionStability(ElectionView(t'), routes, scope, p);
    ElectionSafety(ElectionView(t), routes, scope, p);
    var r := Get(routes, scope);
    if p in r { CandidacyKept(t, t', scope, p, r[p]); }
  }

  /** When one batch of health results leaves every candidate of a prefix unhealthy, the prefix
      keeps the primary it had. */
  lemma AtomicHealthKeepsPrimary(pf: PeersFunc, policy: Policy, s: Snapshot,
                                 results: seq<(NodeID, bool)>, s': Snapshot, scope: UserID, p: Prefix)
    requires RoutesSettled(s)
    requires Publishes(pf, policy, s, [HealthOp(results)], s')
    requires AllUnhealthy(s', scope, p)
    ensures PrimaryOf(s', scope, p) == PrimaryOf(s, scope, p)
  {
    BatchReelects(pf, policy, s, [HealthOp(results)], s');
    HealthBatchMovesOnlyHealth(pf, policy, s, results, s');
    AllUnhealthyKeeps(s.nodes, s'.nodes, s.routes, scope, p);
  }

  /** Some candidate is healthy, and the primary of the earlier snapshot is not. */
  ghost predicate Displaced(s: Snapshot, s': Snapshot, scope: UserID, p: Prefix)
  {
    var was := PrimaryOf(s, scope, p);
    !(was.Some? && HealthyIn(s', scope, p, was.value)) && exists id :: HealthyIn(s', scope, p, id)
  }

  lemma ReelectionMovesIff(s: Snapshot, s': Snapshot, scope: UserID, p: Prefix, id: NodeID)
    requires s'.routes == Elect(ElectionView(s'.nodes), s.routes) && HealthyIn(s', scope, p, id)
    ensures PrimaryOf(s', scope, p) != PrimaryOf(s, scope, p) <==> Displaced(s, s', scope, p)
  {
    var v := ElectionView(s'.nodes);
    assert ScopeCandidate(v, scope, p, id) && !v[id].unhealthy;
    ElectionSafety(v, s.routes, scope, p);
    ElectionStability(v, s.routes, scope, p);
  }

  lemma NoneHealthy(s: Snapshot, scope: UserID, p: Prefix)
    requires forall id :: !HealthyIn(s, scope, p, id)
    ensures AllUnhealthy(s, scope, p)
  {
    forall id | ScopeCandidate(ElectionView(s.nodes), scope, p, id) ensures ElectionView(s.nodes)[id].unhealthy
    {
      assert !HealthyIn(s, scope, p, id);
    }
  }

  /** A batch of health results moves the primary iff it leaves some candidate healthy, but not the primary. */
  lemma HealthMovesPrimaryIff(pf: PeersFunc, policy: Policy, s: Snapshot,
                              results: seq<(NodeID, bool)>, s': Snapshot, scope: UserID, p: Prefix)
    requires RoutesSettled(s) && Publishes(pf, policy, s, [HealthOp(results)], s')
    ensures PrimaryOf(s', scope, p) != PrimaryOf(s, scope, p) <==> Displaced(s, s', scope, p)
  {
    if id :| HealthyIn(s', scope, p, id) {
      BatchReelects(pf, policy, s, [HealthOp(results)], s');
      ReelectionMovesIff(s, s', scope, p, id);
    } else {
      NoneHealthy(s', scope, p);
      AtomicHealthKeepsPrimary(pf, policy, s, results, s', scope, p);
    }
  }

  /** Two batches that together leave every candidate unhealthy move the primary iff the first one leaves
      some candidate healthy, but not the primary; the second never moves it back. */
  lemma SplitHealthMovesPrimary(pf: PeersFunc, policy: Policy,
                                s: Snapshot, first: seq<(NodeID, bool)>, s1: Snapshot,
                                rest: seq<(NodeID, bool)>, s2: Snapshot, scope: UserID, p: Prefix)
    requires RoutesSettled(s)
    requires Publishes(pf, policy, s, [HealthOp(first)], s1)
    requires Publishes(pf, policy, s1, [HealthOp(rest)], s2) && AllUnhealthy(s2, scope, p)
    ensures PrimaryOf(s2, scope, p) != PrimaryOf(s, scope, p) <==> Displaced(s, s1, scope, p)
  {
    HealthMovesPrimaryIff(pf, policy, s, first, s1, scope, p);
    BatchReelects(pf, policy, s, [HealthOp(first)], s1);
    AtomicHealthKeepsPrimary(pf, policy, s1, rest, s2, scope, p);
  }

  /** Marking one online node with approved routes unhealthy changes its flag and nothing else. */
  lemma MarkOne(pf: PeersFunc, policy: Policy, s: Snapshot, id: NodeID, s': Snapshot)
    requires id in s.nodes && s.nodes[id].Online() && |s.nodes[id].AllApprovedRoutes()| > 0
    requires Publishes(pf, policy, s, [HealthOp([(id, false)])], s')
    ensures s'.nodes == s.nodes[id := s.nodes[id].(unhealthy := true)]
  {
    var b, op := Batch(s.nodes, false, false), HealthOp([(id, false)]);
    var us := op.updates;
    assert ApplyOps(b, [op]) == ApplyOp(ApplyOps(b, []), op);
    assert us[..0] == [] && ApplyUpdates(b, us) == ApplyUpdate(ApplyUpdates(b, []), us[0]);
    UpdateWithoutRename(b, us[0], s.nodes[id].(unhealthy := true));
  }

  lemma MarkedIsDisplaced(s: Snapshot, s1: Snapshot, scope: UserID, p: Prefix, was: NodeID, other: NodeID)
    requires PrimaryOf(s, scope, p) == Some(was) && other != was && HealthyIn(s, scope, p, other)
    requires was in s.nodes && s1.nodes == s.nodes[was := s.nodes[was].(unhealthy := true)]
    ensures Displaced(s, s1, scope, p)
  {
    CandidacyKept(s.nodes, s1.nodes, scope, p, other);
    assert HealthyIn(s1, scope, p, other) && !HealthyIn(s1, scope, p, was);
  }

  /** In particular: marking a primary first, alone, while another candidate is healthy, and the rest after. */
  lemma PrimaryMarkedFirstMoves(pf: PeersFunc, policy: Policy, s: Snapshot, s1: Snapshot,
                                rest: seq<(NodeID, bool)>, s2: Snapshot, scope: UserID, p: Prefix, other: NodeID)
    requires RoutesSettled(s) && PrimaryOf(s, scope, p).Some?
    requires other != PrimaryOf(s, scope, p).value && HealthyIn(s, scope, p, other)
    requires Publishes(pf, policy, s, [HealthOp([(PrimaryOf(s, scope, p).value, false)])], s1)
    requires Publishes(pf, policy, s1, [HealthOp(rest)], s2) && AllUnhealthy(s2, scope, p)
    ensures PrimaryOf(s2, scope, p) != PrimaryOf(s, scope, p)
  {
    var was := PrimaryOf(s, scope, p).value;
    SettledIsSafe(s, scope, p);
    assert p in s.nodes[was].AllApprovedRoutes();
    MarkOne(pf, policy, s, was, s1);
    MarkedIsDisplaced(s, s1, scope, p, was, other);
    SplitHealthMovesPrimary(pf, policy, s, [(was, false)], s1, rest, s2, scope, p);
  }
}
