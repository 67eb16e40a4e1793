/**
 Change descriptions: what must reach a client. Node lists are sets here, because every reader
 of them only asks for membership and emptiness. Node 0 stands for "none".
 */
module Changes {
  import opened Basics

  datatype Change = Change(
    target: NodeID,          // only this node, if not 0
    origin: NodeID,          // the node that triggered the change, if not 0
    self: bool, derp: bool, dns: bool, domain: bool, policy: bool,
    changed: set<NodeID>,
    removed: set<NodeID>,
    patches: set<NodeID>,
    all: bool,               // send the complete peer list
    deleted: set<NodeID>,    // nodes gone from the system for good
    runtime: bool,           // compute peer visibility per recipient
    ping: bool)
  {
    predicate IsEmpty()
    {
      && !self && !derp && !dns && !domain && !policy && !all && !runtime && !ping
      && changed == {} && removed == {} && deleted == {} && patches == {}
    }

    predicate IsSelfOnly()
    {
      && target != 0 && self
      && !all && changed == {} && removed == {} && deleted == {} && patches == {}
    }

    predicate IsFull() { all && self && derp && dns && domain && policy }

    predicate IsTargeted() { target != 0 }

    predicate ShouldSendTo(id: NodeID) { target == 0 || target == id }

    /** A tailnet-wide policy recompute without per-node payload. */
    predicate IsBroadcastPolicyChange() { runtime && !IsTargeted() && origin == 0 }
  }

  const NOTHING := Change(0, 0, false, false, false, false, false, {}, {}, {}, false, {}, false, false)

  const FULL_UPDATE := NOTHING.(self := true, derp := true, dns := true, domain := true, policy := true, all := true)

  function FullSelf(id: NodeID): Change { FULL_UPDATE.(target := id) }

  function PolicyChange(): Change { NOTHING.(policy := true, runtime := true) }

  function PeersRemoved(ids: set<NodeID>): Change { NOTHING.(removed := ids) }

  function NodeAdded(id: NodeID): Change { NOTHING.(origin := id, changed := {id}) }

  function NodeRemoved(id: NodeID): Change { NOTHING.(removed := {id}, deleted := {id}) }

  /** Two changes for the same recipient as one. Different targets cannot be merged. */
  function Merge(a: Change, b: Change): Change
    requires a.target == 0 || b.target == 0 || a.target == b.target
  {
    Change(
      if a.target == 0 then b.target else a.target,
      if a.origin == 0 then b.origin else a.origin,
      a.self || b.self, a.derp || b.derp, a.dns || b.dns, a.domain || b.domain, a.policy || b.policy,
      a.changed + b.changed, a.removed + b.removed, a.patches + b.patches,
      a.all || b.all, a.deleted + b.deleted, a.runtime || b.runtime, a.ping || b.ping)
  }

  /** A change is empty iff it says nothing beyond whom it is for and where it comes from, and full iff a full
      update adds nothing to it; it is private to a node if it has its record and names no peers; and it
      is a broadcast recompute if it is nobody's in particular. */
  lemma KindsExact(r: Change)
    ensures r.IsEmpty() <==> r == NOTHING.(target := r.target, origin := r.origin)
    ensures r.IsFull() <==> Merge(r, FULL_UPDATE) == r
    ensures r.IsSelfOnly() <==>
            r.target != 0 && r.self && r == r.(all := false, changed := {}, removed := {}, deleted := {}, patches := {})
    ensures r.IsBroadcastPolicyChange() <==> r.runtime && r.target == 0 && r.origin == 0
    ensures r.IsTargeted() ==> forall id :: r.ShouldSendTo(id) <==> id == r.target
    ensures !r.IsTargeted() ==> forall id :: r.ShouldSendTo(id)
  {
  }

  predicate Mergeable(a: Change, b: Change) { a.target == 0 || b.target == 0 || a.target == b.target }

  /** Merging loses and adds nothing: the empty change is neutral, and a change merged with itself is itself. */
  lemma MergeNeutral(a: Change)
    ensures Merge(a, NOTHING) == a && Merge(NOTHING, a) == a && Merge(a, a) == a
  {
  }

  /** A merged change is for the same nodes, says something iff one of the two does, and is of the first origin. */
  lemma MergeKinds(a: Change, b: Change)
    requires Mergeable(a, b)
    ensures Merge(a, b).IsEmpty() <==> a.IsEmpty() && b.IsEmpty()
    ensures forall id: NodeID :: id != 0 ==>
              (Merge(a, b).ShouldSendTo(id) <==> a.ShouldSendTo(id) && b.ShouldSendTo(id))
    ensures Merge(a, b).origin == if a.origin != 0 then a.origin else b.origin
  {
  }

  predicate HasFull(cs: seq<Change>) { exists i :: 0 <= i < |cs| && cs[i].IsFull() }

  // ----- Coalescing of policy recomputes ------------------------------------------------

  predicate SeenPolicy(cs: seq<Change>) { exists i :: 0 <= i < |cs| && cs[i].IsBroadcastPolicyChange() }

  /** The first broadcast policy change is kept, later ones are dropped; all else stays, in order. */
  function Dedupe(cs: seq<Change>): seq<Change>
  {
    if cs == [] then []
    else
      var init, last := cs[..|cs| - 1], cs[|cs| - 1];
      if last.IsBroadcastPolicyChange() && SeenPolicy(init) then Dedupe(init) else Dedupe(init) + [last]
  }

  /** The changes that are not broadcast policy changes. */
  function Others(cs: seq<Change>): (r: seq<Change>)
    ensures forall i :: 0 <= i < |r| ==> !r[i].IsBroadcastPolicyChange()
  {
    if cs == [] then []
    else
      var init, last := cs[..|cs| - 1], cs[|cs| - 1];
      if last.IsBroadcastPolicyChange() then Others(init) else Others(init) + [last]
  }

  lemma {:induction false} OthersCount(cs: seq<Change>, x: Change)
    ensures multiset(Others(cs))[x] == if x.IsBroadcastPolicyChange() then 0 else multiset(cs)[x]
  {
    if cs != [] {
      OthersCount(cs[..|cs| - 1], x);
      assert cs == cs[..|cs| - 1] + [cs[|cs| - 1]];
    }
  }

  lemma {:induction false} OthersConcat(a: seq<Change>, b: seq<Change>)
    ensures Others(a + b) == Others(a) + Others(b)
    decreases |b|
  {
    if b == [] {
      assert a + b == a;
    } else {
      assert (a + b)[..|a + b| - 1] == a + b[..|b| - 1];
      OthersConcat(a, b[..|b| - 1]);
    }
  }

  /** Nothing is dropped as long as there is no broadcast policy change. */
  lemma {:induction false} DedupeWithout(cs: seq<Change>)
    requires forall i :: 0 <= i < |cs| ==> !cs[i].IsBroadcastPolicyChange()
    ensures Dedupe(cs) == cs
  {
    if cs != [] {
      DedupeWithout(cs[..|cs| - 1]);
      assert cs == cs[..|cs| - 1] + [cs[|cs| - 1]];
    }
  }

  /** From the first broadcast policy change on, everything stays but further such changes. */
  lemma {:induction false} DedupeShape(before: seq<Change>, first: Change, after: seq<Change>)
    requires (forall i :: 0 <= i < |before| ==> !before[i].IsBroadcastPolicyChange()) && first.IsBroadcastPolicyChange()
    ensures Dedupe(before + [first] + after) == before + [first] + Others(after)
  {
    var cs := before + [first] + after;
    if after == [] {
      assert cs[..|before|] == before && cs[|before|] == first && |cs| == |before| + 1;
      DedupeWithout(before);
      assert !SeenPolicy(before);
      assert before + [first] + Others(after) == before + [first];
    } else {
      var init, last := after[..|after| - 1], after[|after| - 1];
      var most := before + [first] + init;
      DedupeShape(before, first, init);
      assert cs[..|cs| - 1] == most && cs[|cs| - 1] == last;
      assert most[|before|] == first && SeenPolicy(most);
      assert before + [first] + (Others(init) + [last]) == before + [first] + Others(init) + [last];
    }
  }

  method DedupePolicyChanges(cs: seq<Change>) returns (out: seq<Change>)
    ensures out == Dedupe(cs)
  {
    if |cs| < 2 {
      assert |cs| == 1 ==> cs == cs[..0] + [cs[0]];
      return cs;
    }
    out := [];
    var seen := false;
    for i := 0 to |cs|
      invariant out == Dedupe(cs[..i]) && seen == SeenPolicy(cs[..i])
    {
      assert cs[..i + 1][..i] == cs[..i];
      if cs[i].IsBroadcastPolicyChange() {
        assert cs[..i + 1][i] == cs[i];
        if seen { continue; }
        seen := true;
      }
      out := out + [cs[i]];
    }
    assert cs[..|cs|] == cs;
  }
}
