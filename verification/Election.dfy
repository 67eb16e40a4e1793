/**
 Primary-route election: for every user scope and every advertised prefix, which node
 serves it. The reference election below is stated over the election inputs alone; the
 methods compute it from the node table the way the writer does, with loops over sorted
 node IDs and per-prefix candidate lists.
 */
module Election {
  import opened Basics
  import opened Nodes

  type Routes = map<Prefix, NodeID>
  type ScopedRoutes = map<UserID, Routes>
  type View = map<NodeID, ElectionInput>

  // ----- Reference election ------------------------------------------------------------

  predicate Candidate(v: View, p: Prefix, id: NodeID)
  {
    id in v && v[id].online && p in v[id].routes
  }

  predicate HealthyCandidate(v: View, p: Prefix, id: NodeID)
  {
    Candidate(v, p, id) && !v[id].unhealthy
  }

  ghost function Healthy(v: View, p: Prefix): set<NodeID>
  {
    set id | id in v && HealthyCandidate(v, p, id)
  }

  ghost function Advertised(v: View): set<Prefix>
  {
    set id, p | id in v && p in v[id].routes && Candidate(v, p, id) :: p
  }

  ghost function Least(s: set<NodeID>): (m: NodeID)
    requires s != {}
    ensures m in s && forall x :: x in s ==> m <= x
  {
    var x :| x in s;
    if s == {x} then x
    else
      var m := Least(s - {x});
      assert forall y :: y in s ==> y == x || y in s - {x};
      if x < m then x else m
  }

  ghost predicate Keeps(v: View, prev: Routes, p: Prefix)
  {
    p in prev && Candidate(v, p, prev[p])
  }

  ghost function Winner(v: View, prev: Routes, p: Prefix): Option<NodeID>
  {
    if Keeps(v, prev, p) && !v[prev[p]].unhealthy then Some(prev[p])
    else if Healthy(v, p) != {} then Some(Least(Healthy(v, p)))
    else if Keeps(v, prev, p) then Some(prev[p])
    else None
  }

  ghost function ElectScope(v: View, prev: Routes): Routes
  {
    map p | p in Advertised(v) && Winner(v, prev, p).Some? :: Winner(v, prev, p).value
  }

  function InScope(v: View, s: UserID): View
  {
    map id | id in v && v[id].scope == s :: v[id]
  }

  function Scopes(v: View): set<UserID>
  {
    set id | id in v :: v[id].scope
  }

  function Get(r: ScopedRoutes, s: UserID): Routes
  {
    if s in r then r[s] else map[]
  }

  ghost function Elect(v: View, prev: ScopedRoutes): ScopedRoutes { ElectFor(v, prev, Scopes(v)) }

  ghost function ElectFor(v: View, prev: ScopedRoutes, scopes: set<UserID>): ScopedRoutes
  {
    map s | s in scopes :: ElectScope(InScope(v, s), Get(prev, s))
  }

  lemma ElectForStep(v: View, prev: ScopedRoutes, all: set<UserID>, todo: set<UserID>, s: UserID)
    requires s in todo && todo <= all
    ensures ElectFor(v, prev, all - (todo - {s}))
            == ElectFor(v, prev, all - todo)[s := ElectScope(InScope(v, s), Get(prev, s))]
  {
    assert all - (todo - {s}) == (all - todo) + {s};
  }

  function Primaries(r: ScopedRoutes): set<NodeID>
  {
    set s, p | s in r && p in r[s] :: r[s][p]
  }

  // ----- The election as computed ------------------------------------------------------

  method Minimum(s: set<NodeID>) returns (m: NodeID)
    requires s != {}
    ensures m in s && forall x :: x in s ==> m <= x
  {
    m :| m in s;
    var todo := s - {m};
    while todo != {}
      invariant m in s && todo <= s
      invariant forall x :: x in s && x !in todo ==> m <= x
      decreases todo
    {
      var x :| x in todo;
      if x < m { m := x; }
      todo := todo - {x};
    }
  }

  predicate Ascending(ids: seq<NodeID>)
  {
    forall i, j :: 0 <= i < j < |ids| ==> ids[i] <= ids[j]
  }

  method SortedIDs(s: set<NodeID>) returns (ids: seq<NodeID>)
    ensures forall i, j :: 0 <= i < j < |ids| ==> ids[i] < ids[j]
    ensures forall x :: x in ids <==> x in s
  {
    ids := [];
    var todo := s;
    while todo != {}
      invariant forall i, j :: 0 <= i < j < |ids| ==> ids[i] < ids[j]
      invariant forall i, x :: 0 <= i < |ids| && x in todo ==> ids[i] < x
      invariant forall x :: x in ids <==> x in s - todo
      invariant todo <= s
      decreases todo
    {
      var m := Minimum(todo);
      ids := ids + [m];
      todo := todo - {m};
    }
  }

  type Advertisers = map<Prefix, seq<NodeID>>

  /** adv holds exactly the given (prefix, node) pairs, each list ascending. */
  ghost predicate Lists(adv: Advertisers, pairs: set<(Prefix, NodeID)>)
  {
    && (forall p :: p in adv ==> adv[p] != [] && Ascending(adv[p]))
    && (forall p, i :: p in adv && 0 <= i < |adv[p]| ==> (p, adv[p][i]) in pairs)
    && (forall q :: q in pairs ==> q.0 in adv && q.1 in adv[q.0])
  }

  function Append(adv: Advertisers, p: Prefix, id: NodeID): Advertisers
  {
    adv[p := (if p in adv then adv[p] else []) + [id]]
  }

  lemma AppendLists(adv: Advertisers, pairs: set<(Prefix, NodeID)>, p: Prefix, id: NodeID)
    requires Lists(adv, pairs) && forall q :: q in pairs ==> q.1 <= id
    ensures Lists(Append(adv, p, id), pairs + {(p, id)})
  {
    var adv' := Append(adv, p, id);
    forall q | q in pairs + {(p, id)} ensures q.0 in adv' && q.1 in adv'[q.0]
    {
      if q == (p, id) { assert adv'[p][|adv'[p]| - 1] == id; }
    }
  }

  ghost function Serves(v: View, id: NodeID): set<(Prefix, NodeID)>
    requires id in v
  {
    set p | p in v[id].routes && Candidate(v, p, id) :: (p, id)
  }

  /** The pairs of the candidates among ids. */
  ghost function Pairs(v: View, ids: seq<NodeID>): (r: set<(Prefix, NodeID)>)
    requires forall i :: 0 <= i < |ids| ==> ids[i] in v
    ensures forall p, id :: (p, id) in r <==> id in ids && Candidate(v, p, id)
  {
    if ids == [] then {} else Pairs(v, ids[..|ids| - 1]) + Serves(v, ids[|ids| - 1])
  }

  /** Appends id to the list of every route it serves. */
  method AddAdvertiser(adv: Advertisers, ghost pairs: set<(Prefix, NodeID)>, id: NodeID, routes: seq<Prefix>)
    returns (adv': Advertisers)
    requires Lists(adv, pairs) && forall q :: q in pairs ==> q.1 <= id
    ensures Lists(adv', pairs + set p | p in routes && !p.IsExit() :: (p, id))
  {
    adv' := adv;
    ghost var done := pairs;
    for k := 0 to |routes|
      invariant Lists(adv', done) && forall q :: q in done ==> q.1 <= id
      invariant done == pairs + set p | p in routes[..k] && !p.IsExit() :: (p, id)
    {
      var p := routes[k];
      assert forall q :: q in routes[..k + 1] <==> q in routes[..k] || q == p;
      if !p.IsExit() {
        AppendLists(adv', done, p, id);
        adv' := Append(adv', p, id);
        done := done + {(p, id)};
      }
    }
    assert routes[..|routes|] == routes;
  }

  ghost predicate IsCandidateList(v: View, p: Prefix, candidates: seq<NodeID>)
  {
    && Ascending(candidates)
    && (forall i :: 0 <= i < |candidates| ==> Candidate(v, p, candidates[i]))
    && (forall id :: Candidate(v, p, id) ==> id in candidates)
  }

  /** The choice for one prefix, given its candidates in ascending ID order. */
  method PickPrimary(nodes: NodeTable, ghost v: View, candidates: seq<NodeID>, prev: Routes, p: Prefix)
    returns (selected: Option<NodeID>)
    requires IsCandidateList(v, p, candidates)
    requires v.Keys == nodes.Keys && forall id :: id in v ==> v[id].unhealthy == nodes[id].unhealthy
    ensures selected == Winner(v, prev, p)
  {
    if p in prev && prev[p] in candidates && !nodes[prev[p]].unhealthy {
      return Some(prev[p]);
    }
    for i := 0 to |candidates|
      invariant forall j :: 0 <= j < i ==> nodes[candidates[j]].unhealthy
    {
      if !nodes[candidates[i]].unhealthy {
        FirstHealthyIsLeast(v, candidates, p, i);
        return Some(candidates[i]);
      }
    }
    assert Healthy(v, p) == {};
    if |candidates| >= 1 && p in prev && prev[p] in candidates {
      return Some(prev[p]);
    }
    return None;
  }

  lemma FirstHealthyIsLeast(v: View, candidates: seq<NodeID>, p: Prefix, i: nat)
    requires i < |candidates| && IsCandidateList(v, p, candidates)
    requires !v[candidates[i]].unhealthy
    requires forall j :: 0 <= j < i ==> v[candidates[j]].unhealthy
    ensures Healthy(v, p) != {} && Least(Healthy(v, p)) == candidates[i]
  {
    assert candidates[i] in Healthy(v, p);
    var m := Least(Healthy(v, p));
    assert m in candidates;
    var j :| 0 <= j < |candidates| && candidates[j] == m;
  }

  method ListAdvertisers(nodes: NodeTable) returns (advertisers: Advertisers)
    ensures advertisers.Keys == Advertised(ElectionView(nodes))
    ensures forall p :: p in advertisers ==> IsCandidateList(ElectionView(nodes), p, advertisers[p])
  {
    var ids := SortedIDs(nodes.Keys);
    assert forall i :: 0 <= i < |ids| ==> ids[i] in ids;
    advertisers := CollectAdvertisers(nodes, ids);
    AdvertisersExact(advertisers, ElectionView(nodes), ids);
  }

  method CollectAdvertisers(nodes: NodeTable, ids: seq<NodeID>) returns (advertisers: Advertisers)
    requires Ascending(ids) && forall i :: 0 <= i < |ids| ==> ids[i] in nodes
    ensures Lists(advertisers, Pairs(ElectionView(nodes), ids))
  {
    ghost var v := ElectionView(nodes);
    advertisers := map[];
    for i := 0 to |ids|
      invariant Lists(advertisers, Pairs(v, ids[..i]))
    {
      var n := nodes[ids[i]];
      var routes := if n.Online() then n.AllApprovedRoutes() else [];
      ServedRoutes(nodes, ids[i]);
      assert ids[..i + 1][..i] == ids[..i];
      advertisers := AddAdvertiser(advertisers, Pairs(v, ids[..i]), ids[i], routes);
    }
    assert ids[..|ids|] == ids;
  }

  lemma ServedRoutes(nodes: NodeTable, id: NodeID)
    requires id in nodes
    ensures var routes := if nodes[id].Online() then nodes[id].AllApprovedRoutes() else [];
            Serves(ElectionView(nodes), id) == set p | p in routes && !p.IsExit() :: (p, id)
  {
  }

  lemma AdvertisersExact(adv: Advertisers, v: View, ids: seq<NodeID>)
    requires forall i :: 0 <= i < |ids| ==> ids[i] in v
    requires forall id :: id in v ==> id in ids
    requires Lists(adv, Pairs(v, ids))
    ensures adv.Keys == Advertised(v)
    ensures forall p :: p in adv ==> IsCandidateList(v, p, adv[p])
  {
    forall p: Prefix, id: NodeID | Candidate(v, p, id) ensures p in adv && id in adv[p]
    {
      assert (p, id) in Pairs(v, ids);
    }
    forall p | p in adv ensures p in Advertised(v) && IsCandidateList(v, p, adv[p])
    {
      assert (p, adv[p][0]) in Pairs(v, ids);
    }
  }

  method ElectOneScope(nodes: NodeTable, prev: Routes) returns (routes: Routes)
    ensures routes == ElectScope(ElectionView(nodes), prev)
  {
    var advertisers := ListAdvertisers(nodes);
    routes := PickAll(nodes, ElectionView(nodes), advertisers, prev);
  }

  method PickAll(nodes: NodeTable, ghost v: View, advertisers: Advertisers, prev: Routes)
    returns (routes: Routes)
    requires advertisers.Keys == Advertised(v)
    requires forall p :: p in advertisers ==> IsCandidateList(v, p, advertisers[p])
    requires v.Keys == nodes.Keys && forall id :: id in v ==> v[id].unhealthy == nodes[id].unhealthy
    ensures routes == ElectScope(v, prev)
  {
    routes := map[];
    var todo := advertisers.Keys;
    while todo != {}
      invariant todo <= advertisers.Keys
      invariant forall p :: p in routes <==> p in advertisers && p !in todo && Winner(v, prev, p).Some?
      invariant forall p :: p in routes ==> Some(routes[p]) == Winner(v, prev, p)
      decreases todo
    {
      var p :| p in todo;
      var selected := PickPrimary(nodes, v, advertisers[p], prev, p);
      if selected.Some? { routes := routes[p := selected.value]; }
      todo := todo - {p};
    }
  }

  function Members(nodes: NodeTable, s: UserID): NodeTable
  {
    map id | id in nodes && nodes[id].Scope() == s :: nodes[id]
  }

  lemma MembersView(nodes: NodeTable, s: UserID)
    ensures ElectionView(Members(nodes, s)) == InScope(ElectionView(nodes), s)
  {
    assert forall id :: id in nodes ==> ElectionView(nodes)[id].scope == nodes[id].Scope();
  }

  method GroupByScope(nodes: NodeTable) returns (scoped: map<UserID, NodeTable>)
    ensures scoped.Keys == set id | id in nodes :: nodes[id].Scope()
    ensures forall s :: s in scoped ==> scoped[s] == Members(nodes, s)
  {
    scoped := map[];
    var todo := nodes.Keys;
    while todo != {}
      invariant todo <= nodes.Keys
      invariant forall s :: s in scoped ==> exists id :: id in nodes && nodes[id].Scope() == s
      invariant forall s :: s in scoped ==> scoped[s] == Members(nodes - todo, s)
      invariant forall id :: id in nodes && id !in todo ==> nodes[id].Scope() in scoped
      decreases todo
    {
      var id :| id in todo;
      var scope := nodes[id].Scope();
      var group := if scope in scoped then scoped[scope] else map[];
      GroupGrows(nodes, todo, id);
      assert scope !in scoped ==> Members(nodes - todo, scope) == map[];
      scoped := scoped[scope := group[id := nodes[id]]];
      todo := todo - {id};
    }
    assert nodes - {} == nodes;
  }

  lemma GroupGrows(nodes: NodeTable, todo: set<NodeID>, id: NodeID)
    requires id in todo && todo <= nodes.Keys
    ensures forall s :: (Members(nodes - (todo - {id}), s) ==
                         if nodes[id].Scope() == s then Members(nodes - todo, s)[id := nodes[id]]
                         else Members(nodes - todo, s))
  {
  }

  method ElectPrimaryRoutes(nodes: NodeTable, prev: ScopedRoutes)
    returns (routes: ScopedRoutes, isPrimary: set<NodeID>)
    ensures routes == Elect(ElectionView(nodes), prev)
    ensures isPrimary == Primaries(routes)
  {
    ghost var v := ElectionView(nodes);
    var scoped := GroupByScope(nodes);
    routes := map[];
    var todo := scoped.Keys;
    while todo != {}
      invariant todo <= scoped.Keys && routes == ElectFor(v, prev, scoped.Keys - todo)
      decreases todo
    {
      var s :| s in todo;
      MembersView(nodes, s);
      var r := ElectOneScope(scoped[s], Get(prev, s));
      ElectForStep(v, prev, scoped.Keys, todo, s);
      routes := routes[s := r];
      todo := todo - {s};
    }
    ScopesOfView(nodes);
    assert scoped.Keys - {} == scoped.Keys;
    isPrimary := Primaries(routes);
  }

  lemma ScopesOfView(nodes: NodeTable)
    ensures Scopes(ElectionView(nodes)) == set id | id in nodes :: nodes[id].Scope()
  {
    var v := ElectionView(nodes);
    assert forall id :: id in nodes ==> v[id].scope == nodes[id].Scope();
    forall id | id in nodes ensures nodes[id].Scope() in Scopes(v) { assert v[id].scope in Scopes(v); }
  }

  // ----- What the election guarantees --------------------------------------------------

  lemma ScopeIdempotent(v: View, prev: Routes)
    ensures ElectScope(v, ElectScope(v, prev)) == ElectScope(v, prev)
  {
    var r := ElectScope(v, prev);
    forall p | p in Advertised(v)
      ensures Winner(v, r, p) == Winner(v, prev, p)
    {
      if Winner(v, prev, p).Some? { assert r[p] == Winner(v, prev, p).value; }
    }
  }

  /** Re-running the election on its own outcome changes nothing. */
  lemma ElectIdempotent(v: View, prev: ScopedRoutes)
    ensures Elect(v, Elect(v, prev)) == Elect(v, prev)
  {
    forall s | s in Scopes(v)
      ensures Elect(v, Elect(v, prev))[s] == Elect(v, prev)[s]
    {
      ScopeIdempotent(InScope(v, s), Get(prev, s));
    }
  }

  /** A candidate of scope s in the whole view is a candidate within that scope. */
  predicate ScopeCandidate(v: View, s: UserID, p: Prefix, id: NodeID)
  {
    Candidate(v, p, id) && v[id].scope == s
  }

  /** Tagged nodes serve in scope 0, a user's other nodes in that user's scope. */
  predicate ServesScope(n: Node, s: UserID)
  {
    if |n.tags| > 0 || n.userID.None? then s == 0 else s == n.userID.value
  }

  /** Candidates in terms of the node table. */
  lemma CandidacyExact(t: NodeTable, s: UserID, p: Prefix, id: NodeID)
    ensures ScopeCandidate(ElectionView(t), s, p, id) <==>
            && id in t && t[id].online == Some(true) && ServesScope(t[id], s)
            && p in t[id].announced && p in t[id].approved && !p.IsExit()
    ensures id in t ==> id in ElectionView(t) && ElectionView(t)[id].unhealthy == t[id].unhealthy
  {
    if id in t { assert p in Elements(t[id].SubnetRoutes()) <==> p in t[id].SubnetRoutes(); }
  }

  lemma GetElect(v: View, prev: ScopedRoutes, s: UserID)
    ensures Get(Elect(v, prev), s) == ElectScope(InScope(v, s), Get(prev, s))
  {
    if s !in Scopes(v) {
      assert forall id :: id in v ==> v[id].scope in Scopes(v);
      assert InScope(v, s) == map[];
      assert Advertised(map[]) == {};
    }
  }

  lemma ScopeSafety(v: View, prev: Routes, p: Prefix)
    ensures var r := ElectScope(v, prev);
            && (p in r ==> Candidate(v, p, r[p]))
            && (Healthy(v, p) != {} ==> p in r && !v[r[p]].unhealthy)
  {
    var w := Winner(v, prev, p);
    assert w.Some? ==> Candidate(v, p, w.value);
    if Healthy(v, p) != {} {
      var id := Least(Healthy(v, p));
      assert HealthyCandidate(v, p, id);
      assert p in Advertised(v);
    }
  }

  /** Every elected primary is an online, approved, non-exit advertiser of its own scope, and a
      prefix with a healthy candidate has a healthy primary. */
  lemma ElectionSafety(v: View, prev: ScopedRoutes, s: UserID, p: Prefix)
    ensures var r := Get(Elect(v, prev), s);
            && (p in r ==> ScopeCandidate(v, s, p, r[p]))
            && ((exists id :: ScopeCandidate(v, s, p, id) && !v[id].unhealthy)
                ==> p in r && !v[r[p]].unhealthy)
  {
    var w := InScope(v, s);
    GetElect(v, prev, s);
    ScopeSafety(w, Get(prev, s), p);
    if id :| ScopeCandidate(v, s, p, id) && !v[id].unhealthy {
      assert HealthyCandidate(w, p, id) && id in Healthy(w, p);
    }
  }

  /** Anti-flap: a primary that is still a healthy candidate stays; any other primary is the
      least healthy candidate, or, when none is healthy, the previous primary. */
  lemma ElectionStability(v: View, prev: ScopedRoutes, s: UserID, p: Prefix)
    ensures var r := Get(Elect(v, prev), s);
            var was := Get(prev, s);
            && (p in was && ScopeCandidate(v, s, p, was[p]) && !v[was[p]].unhealthy
                ==> p in r && r[p] == was[p])
            && (p in r && !(p in was && r[p] == was[p]) ==>
                && !v[r[p]].unhealthy
                && forall id :: ScopeCandidate(v, s, p, id) && !v[id].unhealthy ==> r[p] <= id)
            && ((forall id :: ScopeCandidate(v, s, p, id) ==> v[id].unhealthy) ==>
                (p in r <==> p in was && ScopeCandidate(v, s, p, was[p]))
                && (p in r ==> r[p] == was[p]))
  {
    var w := InScope(v, s);
    var r := Get(Elect(v, prev), s);
    var was := Get(prev, s);
    forall id | HealthyCandidate(w, p, id) ensures ScopeCandidate(v, s, p, id) { }
    if p in was && ScopeCandidate(v, s, p, was[p]) {
      assert Candidate(w, p, was[p]) && p in Advertised(w);
    }
    forall id | ScopeCandidate(v, s, p, id) && !v[id].unhealthy
      ensures id in Healthy(w, p)
    {
      assert HealthyCandidate(w, p, id);
    }
  }
}
