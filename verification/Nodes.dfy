/**
 The registered node as the control plane's in-memory state machines read it, and the
 change detectors that decide which derived data a write may reuse.

 A node's ID is its key in the node table, so the record itself does not repeat it.
 Keys, addresses and users are opaque numbers; prefixes are compared as values.
 */
module Nodes {
  import opened Basics

  type UserID = nat

  /** An IP prefix. NoPrefix is the invalid (zero) prefix. */
  datatype Prefix = NoPrefix | Pfx(v6: bool, bits: nat, addr: nat)
  {
    predicate IsValid() { Pfx? }

    /** The all-addresses prefix of either family. */
    predicate IsExit() { this == Pfx(false, 0, 0) || this == Pfx(true, 0, 0) }
  }

  datatype Node = Node(
    nodeKey: nat,
    machineKey: nat,
    givenName: string,
    userID: Option<UserID>,
    owner: Option<UserID>,   // the loaded user association
    tags: seq<string>,
    ips: seq<nat>,
    announced: seq<Prefix>,
    approved: seq<Prefix>,
    online: Option<bool>,    // None: not known yet
    unhealthy: bool,
    epoch: nat)
  {
    predicate IsTagged() { |tags| > 0 }

    predicate Online() { online == Some(true) }

    function TypedUserID(): UserID { if userID.None? then 0 else userID.value }

    /** Tagged nodes share scope 0; a user's nodes are in that user's scope. */
    function Scope(): UserID { if IsTagged() then 0 else TypedUserID() }

    /** Announced and approved, without exit routes; in announcement order. */
    function SubnetRoutes(): (r: seq<Prefix>)
      ensures forall p :: p in r <==> p in announced && p in approved && !p.IsExit()
    {
      Keep(announced, (p: Prefix) => !p.IsExit() && p in approved)
    }

    function ExitRoutes(): (r: seq<Prefix>)
      ensures forall p :: p in r <==> p in announced && p in approved && p.IsExit()
    {
      Keep(announced, (p: Prefix) => p.IsExit() && p in approved)
    }

    function AllApprovedRoutes(): seq<Prefix> { SubnetRoutes() + ExitRoutes() }
  }

  type NodeTable = map<NodeID, Node>

  function Keep(s: seq<Prefix>, f: Prefix -> bool): (r: seq<Prefix>)
    ensures forall x :: x in r <==> x in s && f(x)
  {
    if s == [] then []
    else
      var rest := Keep(s[1..], f);
      assert s == [s[0]] + s[1..];
      if f(s[0]) then [s[0]] + rest else rest
  }

  /** Comparing sorted copies, as the source does, is comparing multisets. */
  predicate EqualUnordered(a: seq<Prefix>, b: seq<Prefix>) { multiset(a) == multiset(b) }

  predicate HasPolicyChange(post: Node, pre: Node)
  {
    || post.TypedUserID() != pre.TypedUserID()
    || post.owner != pre.owner
    || post.tags != pre.tags
    || post.ips != pre.ips
    || !EqualUnordered(post.SubnetRoutes(), pre.SubnetRoutes())
    || !EqualUnordered(post.ExitRoutes(), pre.ExitRoutes())
  }

  predicate HasNetworkChanges(post: Node, pre: Node)
  {
    || post.ips != pre.ips
    || !EqualUnordered(post.announced, pre.announced)
    || !EqualUnordered(post.SubnetRoutes(), pre.SubnetRoutes())
    || !EqualUnordered(post.ExitRoutes(), pre.ExitRoutes())
  }

  /** What one in-place update moved: (a peer-visibility input, a route-election input). */
  function UpdateChanges(pre: Node, post: Node): (bool, bool)
  {
    if HasPolicyChange(post, pre) || HasNetworkChanges(post, pre) then (true, true)
    else (false, pre.Online() != post.Online() || pre.unhealthy != post.unhealthy)
  }

  /** Everything peer visibility may depend on. */
  datatype PolicyInput = PolicyInput(
    user: UserID, owner: Option<UserID>, tags: seq<string>, ips: seq<nat>,
    subnet: multiset<Prefix>, exit: multiset<Prefix>, announced: multiset<Prefix>)

  function PolicyInputOf(n: Node): PolicyInput
  {
    PolicyInput(n.TypedUserID(), n.owner, n.tags, n.ips,
                multiset(n.SubnetRoutes()), multiset(n.ExitRoutes()), multiset(n.announced))
  }

  function PolicyView(t: NodeTable): map<NodeID, PolicyInput>
  {
    map id | id in t :: PolicyInputOf(t[id])
  }

  /** Everything the route election may depend on. */
  datatype ElectionInput = ElectionInput(scope: UserID, online: bool, unhealthy: bool, routes: set<Prefix>)

  function ElectionInputOf(n: Node): ElectionInput
  {
    ElectionInput(n.Scope(), n.Online(), n.unhealthy, Elements(n.SubnetRoutes()))
  }

  function Elements(s: seq<Prefix>): set<Prefix> { set p | p in s }

  function ElectionView(t: NodeTable): map<NodeID, ElectionInput>
  {
    map id | id in t :: ElectionInputOf(t[id])
  }

  lemma SameElements(a: seq<Prefix>, b: seq<Prefix>)
    requires multiset(a) == multiset(b)
    ensures Elements(a) == Elements(b)
  {
    forall p ensures p in a <==> p in b { assert p in multiset(a) <==> p in multiset(b); }
  }

  lemma SilentKeepsElectionInput(pre: Node, post: Node)
    requires !UpdateChanges(pre, post).1
    ensures ElectionInputOf(pre) == ElectionInputOf(post)
  {
    assert !HasPolicyChange(post, pre) && pre.Scope() == post.Scope();
    SameElements(pre.SubnetRoutes(), post.SubnetRoutes());
  }

  lemma SilentIffSamePolicyInput(pre: Node, post: Node)
    ensures !UpdateChanges(pre, post).0 <==> PolicyInputOf(pre) == PolicyInputOf(post)
  {
  }

  lemma {:induction false} KeepCounts(s: seq<Prefix>, f: Prefix -> bool, p: Prefix)
    ensures multiset(Keep(s, f))[p] == if f(p) then multiset(s)[p] else 0
  {
    if s != [] {
      KeepCounts(s[1..], f, p);
      assert s == [s[0]] + s[1..];
    }
  }

  /** The prefix is announced as often by both nodes, and approved for both or for none if it is announced. */
  predicate SameRoute(a: Node, b: Node, p: Prefix)
  {
    && multiset(a.announced)[p] == multiset(b.announced)[p]
    && (p in a.announced ==> (p in a.approved <==> p in b.approved))
  }

  lemma RouteCounts(a: Node, b: Node, p: Prefix)
    ensures SameRoute(a, b, p) <==>
            && multiset(a.announced)[p] == multiset(b.announced)[p]
            && multiset(a.SubnetRoutes())[p] == multiset(b.SubnetRoutes())[p]
            && multiset(a.ExitRoutes())[p] == multiset(b.ExitRoutes())[p]
  {
    KeepCounts(a.announced, (x: Prefix) => !x.IsExit() && x in a.approved, p);
    KeepCounts(b.announced, (x: Prefix) => !x.IsExit() && x in b.approved, p);
    KeepCounts(a.announced, (x: Prefix) => x.IsExit() && x in a.approved, p);
    KeepCounts(b.announced, (x: Prefix) => x.IsExit() && x in b.approved, p);
  }

  lemma SameRoutesIff(a: Node, b: Node)
    ensures (forall p :: SameRoute(a, b, p)) <==>
            && multiset(a.announced) == multiset(b.announced)
            && multiset(a.SubnetRoutes()) == multiset(b.SubnetRoutes())
            && multiset(a.ExitRoutes()) == multiset(b.ExitRoutes())
  {
    forall p { RouteCounts(a, b, p); }
  }

  /** What the detectors look at: user, owner, tags, addresses, announced and approved routes move both
      flags, whether the node is online or healthy moves the second. */
  lemma DetectorsExact(pre: Node, post: Node)
    ensures var same := && pre.TypedUserID() == post.TypedUserID() && pre.owner == post.owner
                        && pre.tags == post.tags && pre.ips == post.ips && forall p :: SameRoute(post, pre, p);
            && (UpdateChanges(pre, post).0 <==> !same)
            && (UpdateChanges(pre, post).1 <==>
                  !same || (pre.online == Some(true)) != (post.online == Some(true)) || pre.unhealthy != post.unhealthy)
  {
    SameRoutesIff(post, pre);
  }

  /** The detectors miss nothing: a clear flag means the corresponding inputs are identical. */
  lemma UpdateChangesSound(pre: Node, post: Node)
    ensures !UpdateChanges(pre, post).0 <==> PolicyInputOf(pre) == PolicyInputOf(post)
    ensures !UpdateChanges(pre, post).1 ==> ElectionInputOf(pre) == ElectionInputOf(post)
    ensures UpdateChanges(pre, post).0 ==> UpdateChanges(pre, post).1
  {
    SilentIffSamePolicyInput(pre, post);
    if !UpdateChanges(pre, post).1 { SilentKeepsElectionInput(pre, post); }
  }
}
