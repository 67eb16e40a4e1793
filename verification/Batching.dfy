/**
 The batcher's pending lists: how submitted changes reach the nodes they concern, and how a tick
 turns each idle node's list into one bundle of work.
 */
module Batching {
  import opened Basics
  import opened Changes
  import opened Delivery

  datatype NodeQueue = NodeQueue(pending: seq<Change>, inFlight: bool)

  datatype Work = Work(node: NodeID, changes: seq<Change>)

  // ----- What reaches a node -----------------------------------------------------------

  function Targeted(cs: seq<Change>, id: NodeID): seq<Change>
  {
    if cs == [] then []
    else
      var init, last := cs[..|cs| - 1], cs[|cs| - 1];
      if last.IsTargeted() && last.target == id then Targeted(init, id) + [last] else Targeted(init, id)
  }

  function Untargeted(cs: seq<Change>): seq<Change>
  {
    if cs == [] then []
    else
      var init, last := cs[..|cs| - 1], cs[|cs| - 1];
      if last.IsTargeted() then Untargeted(init) else Untargeted(init) + [last]
  }

  /** The changes that should be sent to the node, in the order they were submitted. */
  function Concerning(cs: seq<Change>, id: NodeID): seq<Change>
  {
    if cs == [] then []
    else
      var init, last := cs[..|cs| - 1], cs[|cs| - 1];
      if last.ShouldSendTo(id) then Concerning(init, id) + [last] else Concerning(init, id)
  }

  function Appended(q: NodeQueue, cs: seq<Change>): NodeQueue { q.(pending := q.pending + cs) }

  function DeletedBy(cs: seq<Change>): set<NodeID>
  {
    if cs == [] then {} else DeletedBy(cs[..|cs| - 1]) + cs[|cs| - 1].deleted
  }

  function Fed(q: NodeQueue, id: NodeID, cs: seq<Change>): NodeQueue
  {
    if HasFull(cs) then q.(pending := [FULL_UPDATE]) else Appended(Appended(q, Targeted(cs, id)), Untargeted(cs))
  }

  /** Every node receives exactly the changes that concern it, each once. */
  lemma {:induction false} FeedComplete(cs: seq<Change>, id: NodeID)
    requires id != 0
    ensures multiset(Targeted(cs, id) + Untargeted(cs)) == multiset(Concerning(cs, id))
  {
    if cs != [] {
      FeedComplete(cs[..|cs| - 1], id);
    }
  }

  /** A broadcast change stands before one targeted at the node. */
  predicate BroadcastFirst(cs: seq<Change>, id: NodeID)
  {
    cs != [] &&
    var init, last := cs[..|cs| - 1], cs[|cs| - 1];
    || BroadcastFirst(init, id)
    || (last.IsTargeted() && last.target == id && exists i :: 0 <= i < |init| && !init[i].IsTargeted())
  }

  lemma {:induction false} GroupsExact(cs: seq<Change>, id: NodeID)
    ensures forall x :: x in Targeted(cs, id) <==> x in cs && x.IsTargeted() && x.target == id
    ensures forall x :: x in Untargeted(cs) <==> x in cs && !x.IsTargeted()
  {
    if cs != [] {
      var init, last := cs[..|cs| - 1], cs[|cs| - 1];
      GroupsExact(init, id);
      assert cs == init + [last];
    }
  }

  lemma SomeUntargeted(cs: seq<Change>)
    ensures Untargeted(cs) != [] <==> exists i :: 0 <= i < |cs| && !cs[i].IsTargeted()
  {
    GroupsExact(cs, 0);
    if Untargeted(cs) != [] { assert Untargeted(cs)[0] in cs; }
    if i :| 0 <= i < |cs| && !cs[i].IsTargeted() { assert cs[i] in Untargeted(cs); }
  }

  /** Targeted changes are queued ahead of the broadcast ones of the same submission, so the order is
      kept iff none of them came after a broadcast change. */
  lemma {:induction false} FeedOrderIff(cs: seq<Change>, id: NodeID)
    requires id != 0
    ensures Targeted(cs, id) + Untargeted(cs) == Concerning(cs, id) <==> !BroadcastFirst(cs, id)
  {
    if cs != [] {
      var init, last := cs[..|cs| - 1], cs[|cs| - 1];
      FeedOrderIff(init, id);
      SomeUntargeted(init);
      SameLength(init, id);
      var a, b, c := Targeted(init, id), Untargeted(init), Concerning(init, id);
      if !last.IsTargeted() {
        AppendIff(a, b, c, last);
      } else if last.target == id {
        assert last !in b by { GroupsExact(init, id); }
        InsertIff(a, b, c, last);
        if b == [] { assert a + b == a; }
      }
    }
  }

  lemma {:induction false} SameLength(cs: seq<Change>, id: NodeID)
    requires id != 0
    ensures |Targeted(cs, id)| + |Untargeted(cs)| == |Concerning(cs, id)|
  {
    if cs != [] { SameLength(cs[..|cs| - 1], id); }
  }

  lemma AppendIff(a: seq<Change>, b: seq<Change>, c: seq<Change>, x: Change)
    ensures (a + (b + [x]) == c + [x]) <==> (a + b == c)
  {
    assert a + (b + [x]) == (a + b) + [x];
    assert ((a + b) + [x])[..|a + b|] == a + b && (c + [x])[..|c|] == c;
  }

  lemma InsertIff(a: seq<Change>, b: seq<Change>, c: seq<Change>, x: Change)
    requires |c| == |a| + |b| && x !in b
    ensures (a + [x]) + b == c + [x] <==> b == [] && a == c
  {
    if b == [] {
      assert (a + [x]) + b == a + [x];
      assert (a + [x])[..|a|] == a && (c + [x])[..|c|] == c;
    } else {
      assert ((a + [x]) + b)[|c|] == b[|b| - 1] && (c + [x])[|c|] == x;
    }
  }

  // ----- The batcher -------------------------------------------------------------------

  function FedAll(nodes: NodeMap, cs: seq<Change>): NodeMap
  {
    var left := Left(nodes, DeletedBy(cs));
    map id | id in left :: Fed(left[id], id, cs)
  }

  predicate Due(q: NodeQueue) { !q.inFlight && q.pending != [] }

  function Ticked(q: NodeQueue): NodeQueue { if Due(q) then NodeQueue([], true) else q }

  /** One bundle for every due node and nothing else. */
  ghost predicate Bundles(nodes: NodeMap, ids: set<NodeID>, ws: seq<Work>)
  {
    && (forall i :: 0 <= i < |ws| ==> ws[i].node in ids && ws[i].node in nodes && Due(nodes[ws[i].node])
                                      && ws[i].changes == Dedupe(nodes[ws[i].node].pending))
    && (forall i, j :: 0 <= i < j < |ws| ==> ws[i].node != ws[j].node)
    && (forall id :: id in ids && id in nodes && Due(nodes[id]) ==> Work(id, Dedupe(nodes[id].pending)) in ws)
  }

  /** The queues while a tick has still to visit the nodes of rest. */
  function TickedExcept(nodes: NodeMap, rest: set<NodeID>): NodeMap
  {
    map id | id in nodes :: if id in rest then nodes[id] else Ticked(nodes[id])
  }

  function BundleOf(q: NodeQueue, id: NodeID): seq<Work> { if Due(q) then [Work(id, Dedupe(q.pending))] else [] }

  lemma BundlesStep(nodes: NodeMap, rest: set<NodeID>, ws: seq<Work>, id: NodeID)
    requires Bundles(nodes, nodes.Keys - rest, ws) && id in rest && id in nodes
    ensures Bundles(nodes, nodes.Keys - (rest - {id}), ws + BundleOf(nodes[id], id))
  {
  }

  function NonEmpty(cs: seq<Change>): seq<Change>
  {
    if cs == [] then []
    else
      var init, last := cs[..|cs| - 1], cs[|cs| - 1];
      if last.IsEmpty() then NonEmpty(init) else NonEmpty(init) + [last]
  }

  lemma {:induction false} TargetedOfTargeted(cs: seq<Change>, ts: seq<Change>, id: NodeID)
    requires ts == AllTargeted(cs)
    ensures Targeted(ts, id) == Targeted(cs, id)
    decreases |cs|
  {
    if cs != [] {
      var init, last := cs[..|cs| - 1], cs[|cs| - 1];
      TargetedOfTargeted(init, AllTargeted(init), id);
      if last.IsTargeted() { assert ts[..|ts| - 1] == AllTargeted(init); } else { assert ts == AllTargeted(init); }
    }
  }

  function WithTargeted(nodes: NodeMap, ts: seq<Change>): NodeMap
  {
    map id | id in nodes :: Appended(nodes[id], Targeted(ts, id))
  }

  lemma TargetedStep(nodes: NodeMap, ts: seq<Change>)
    requires ts != []
    ensures var last, before := ts[|ts| - 1], WithTargeted(nodes, ts[..|ts| - 1]);
            WithTargeted(nodes, ts) ==
              if last.IsTargeted() && last.target in nodes
              then before[last.target := Appended(before[last.target], [last])] else before
  {
    var init, last := ts[..|ts| - 1], ts[|ts| - 1];
    assert forall id ::
      Targeted(ts, id) ==
      if last.IsTargeted() && last.target == id then Targeted(init, id) + [last] else Targeted(init, id);
    assert forall id :: id in nodes ==>
      (nodes[id].pending + Targeted(init, id)) + [last] == nodes[id].pending + (Targeted(init, id) + [last]);
  }

  lemma {:induction false} UntargetedConcernsAll(cs: seq<Change>, id: NodeID)
    ensures Concerning(Untargeted(cs), id) == Untargeted(cs)
  {
    if cs != [] {
      var init, last := cs[..|cs| - 1], cs[|cs| - 1];
      UntargetedConcernsAll(init, id);
      if last.IsTargeted() { assert Untargeted(cs) == Untargeted(init); }
      else { assert Untargeted(cs)[..|Untargeted(init)|] == Untargeted(init); }
    }
  }

  function AllTargeted(cs: seq<Change>): seq<Change>
  {
    if cs == [] then []
    else
      var init, last := cs[..|cs| - 1], cs[|cs| - 1];
      if last.IsTargeted() then AllTargeted(init) + [last] else AllTargeted(init)
  }

  type NodeMap = map<NodeID, NodeQueue>

  function Left(nodes: NodeMap, gone: set<NodeID>): NodeMap { map id | id in nodes && id !in gone :: nodes[id] }

  /** The entries among the deleted ones that were there. */
  function Dropped(nodes: NodeMap, gone: set<NodeID>): multiset<NodeID> { multiset(set id | id in gone && id in nodes) }

  lemma DropOne(nodes: NodeMap, gone: set<NodeID>, id: NodeID)
    ensures Left(nodes, gone + {id}) == Left(nodes, gone) - {id}
    ensures Dropped(nodes, gone + {id})
            == if id in Left(nodes, gone) then Dropped(nodes, gone) + multiset{id} else Dropped(nodes, gone)
  {
    var a := set x | x in gone && x in nodes;
    var b := set x | x in gone + {id} && x in nodes;
    if id in Left(nodes, gone) { assert b == a + {id} && id !in a; } else { assert b == a; }
  }

  class Batcher {
    var nodes: NodeMap
    var work: seq<Work>
    var torn: multiset<NodeID>  // entries whose sessions were told to stop

    /** Nodes gone for good leave before the changes are spread, and their sessions are torn down. */
    method DropDeleted(cs: seq<Change>)
      modifies this`nodes, this`torn
      ensures nodes == Left(old(nodes), DeletedBy(cs)) && torn == old(torn) + Dropped(old(nodes), DeletedBy(cs))
    {
      assert nodes == Left(nodes, {}) && Dropped(nodes, {}) == multiset{};
      for i := 0 to |cs|
        invariant nodes == Left(old(nodes), DeletedBy(cs[..i]))
        invariant torn == old(torn) + Dropped(old(nodes), DeletedBy(cs[..i]))
      {
        assert cs[..i + 1][..i] == cs[..i];
        DropEach(cs[i].deleted, old(nodes), old(torn), DeletedBy(cs[..i]));
      }
      assert cs[..|cs|] == cs;
    }

    method DropEach(ids: set<NodeID>, ghost all: NodeMap, ghost before: multiset<NodeID>, ghost gone: set<NodeID>)
      requires nodes == Left(all, gone) && torn == before + Dropped(all, gone)
      modifies this`nodes, this`torn
      ensures nodes == Left(all, gone + ids) && torn == before + Dropped(all, gone + ids)
    {
      var rest := ids;
      ghost var done := gone;
      while rest != {}
        invariant rest <= ids && done == gone + (ids - rest)
        invariant nodes == Left(all, done) && torn == before + Dropped(all, done)
      {
        var id :| id in rest;
        DropOne(all, done, id);
        if id in nodes { torn := torn + multiset{id}; }
        nodes := nodes - {id};
        done := done + {id};
        rest := rest - {id};
      }
      assert done == gone + ids;
    }

    method ReplaceAll()
      modifies this`nodes
      ensures nodes == map id | id in old(nodes) :: old(nodes)[id].(pending := [FULL_UPDATE])
    {
      var rest := nodes.Keys;
      while rest != {}
        invariant rest <= nodes.Keys == old(nodes).Keys
        invariant forall id :: id in nodes ==>
          nodes[id] == if id in rest then old(nodes)[id] else old(nodes)[id].(pending := [FULL_UPDATE])
      {
        var id :| id in rest;
        nodes := nodes[id := nodes[id].(pending := [FULL_UPDATE])];
        rest := rest - {id};
      }
    }

    method AppendTargeted(ts: seq<Change>)
      modifies this`nodes
      ensures nodes == WithTargeted(old(nodes), ts)
    {
      assert forall id :: id in nodes ==> nodes[id].pending + [] == nodes[id].pending;
      for i := 0 to |ts|
        invariant nodes == WithTargeted(old(nodes), ts[..i])
      {
        TargetedStep(old(nodes), ts[..i + 1]);
        assert ts[..i + 1][..i] == ts[..i];
        var t := ts[i].target;
        if ts[i].IsTargeted() && t in nodes { nodes := nodes[t := Appended(nodes[t], [ts[i]])]; }
      }
      assert ts[..|ts|] == ts;
    }

    static method FilterForNode(id: NodeID, cs: seq<Change>) returns (out: seq<Change>)
      ensures out == Concerning(cs, id)
    {
      out := [];
      for i := 0 to |cs|
        invariant out == Concerning(cs[..i], id)
      {
        assert cs[..i + 1][..i] == cs[..i];
        if cs[i].ShouldSendTo(id) { out := out + [cs[i]]; }
      }
      assert cs[..|cs|] == cs;
    }

    method AppendBroadcast(bs: seq<Change>)
      modifies this`nodes
      ensures nodes == map id | id in old(nodes) :: Appended(old(nodes)[id], Concerning(bs, id))
    {
      var rest := nodes.Keys;
      while rest != {}
        invariant rest <= nodes.Keys == old(nodes).Keys
        invariant forall id :: id in nodes ==>
          nodes[id] == if id in rest then old(nodes)[id] else Appended(old(nodes)[id], Concerning(bs, id))
      {
        var id :| id in rest;
        var filtered := FilterForNode(id, bs);
        if |filtered| > 0 { nodes := nodes[id := Appended(nodes[id], filtered)]; }
        rest := rest - {id};
      }
    }

    static method Split(cs: seq<Change>) returns (broadcast: seq<Change>, targeted: seq<Change>)
      ensures broadcast == Untargeted(cs) && targeted == AllTargeted(cs)
    {
      broadcast, targeted := [], [];
      for i := 0 to |cs|
        invariant broadcast == Untargeted(cs[..i]) && targeted == AllTargeted(cs[..i])
      {
        assert cs[..i + 1][..i] == cs[..i];
        if cs[i].IsTargeted() { targeted := targeted + [cs[i]]; } else { broadcast := broadcast + [cs[i]]; }
      }
      assert cs[..|cs|] == cs;
    }

    method Spread(cs: seq<Change>)
      modifies this`nodes
      ensures nodes == map id | id in old(nodes) :: Appended(Appended(old(nodes)[id], Targeted(cs, id)), Untargeted(cs))
    {
      var broadcast, targeted := Split(cs);
      forall id: NodeID ensures Targeted(targeted, id) == Targeted(cs, id) { TargetedOfTargeted(cs, targeted, id); }
      forall id: NodeID ensures Concerning(broadcast, id) == Untargeted(cs) { UntargetedConcernsAll(cs, id); }
      AppendTargeted(targeted);
      AppendBroadcast(broadcast);
    }

    method AddToBatch(cs: seq<Change>)
      modifies this`nodes, this`torn
      ensures nodes == FedAll(old(nodes), cs)
      ensures torn == old(torn) + Dropped(old(nodes), DeletedBy(cs))
    {
      DropDeleted(cs);
      if HasFull(cs) { ReplaceAll(); } else { Spread(cs); }
    }

    method AddWork(cs: seq<Change>)
      modifies this`nodes, this`torn
      ensures nodes == Submitted(old(nodes), cs)
      ensures torn == old(torn) + Dropped(old(nodes), DeletedBy(NonEmpty(cs)))
    {
      var kept := [];
      for i := 0 to |cs|
        invariant kept == NonEmpty(cs[..i]) && nodes == old(nodes) && torn == old(torn)
      {
        assert cs[..i + 1][..i] == cs[..i];
        if !cs[i].IsEmpty() { kept := kept + [cs[i]]; }
      }
      assert cs[..|cs|] == cs;
      assert Dropped(old(nodes), {}) == multiset{};
      if |kept| > 0 { AddToBatch(kept); }
    }

    method TickNode(id: NodeID)
      requires id in nodes
      modifies this
      ensures nodes == old(nodes)[id := Ticked(old(nodes)[id])]
      ensures work == old(work) + BundleOf(old(nodes)[id], id)
    {
      if !nodes[id].inFlight && |nodes[id].pending| > 0 {
        var bundle := DedupePolicyChanges(nodes[id].pending);
        nodes := nodes[id := NodeQueue([], true)];
        work := work + [Work(id, bundle)];
      }
    }

    /** A tick: one bundle per idle node that has pending changes; the others keep theirs. */
    method ProcessBatchedChanges() returns (ghost queued: seq<Work>)
      modifies this
      ensures work == old(work) + queued && Bundles(old(nodes), old(nodes).Keys, queued)
      ensures nodes == TickedExcept(old(nodes), {})
    {
      queued := [];
      var rest := nodes.Keys;
      while rest != {}
        invariant rest <= old(nodes).Keys && nodes == TickedExcept(old(nodes), rest)
        invariant work == old(work) + queued
        invariant Bundles(old(nodes), old(nodes).Keys - rest, queued)
      {
        var id :| id in rest;
        BundlesStep(old(nodes), rest, queued, id);
        queued := queued + BundleOf(nodes[id], id);
        TickNode(id);
        rest := rest - {id};
      }
    }
  }

  // ----- What a submission leads to ----------------------------------------------------

  lemma {:induction false} DeletedExact(cs: seq<Change>, id: NodeID)
    ensures id in DeletedBy(cs) <==> exists i :: 0 <= i < |cs| && id in cs[i].deleted
  {
    if cs != [] {
      var init := cs[..|cs| - 1];
      DeletedExact(init, id);
      if i :| 0 <= i < |init| && id in init[i].deleted { assert id in cs[i].deleted; }
    }
  }

  /** Exactly the empty changes are dropped. */
  lemma {:induction false} NonEmptyExact(cs: seq<Change>, x: Change)
    ensures multiset(NonEmpty(cs))[x] == if x.IsEmpty() then 0 else multiset(cs)[x]
  {
    if cs != [] {
      NonEmptyExact(cs[..|cs| - 1], x);
      assert cs == cs[..|cs| - 1] + [cs[|cs| - 1]];
    }
  }

  lemma {:induction false} EmptyDeletesNothing(cs: seq<Change>)
    ensures DeletedBy(NonEmpty(cs)) == DeletedBy(cs)
  {
    if cs != [] {
      var init, last := cs[..|cs| - 1], cs[|cs| - 1];
      EmptyDeletesNothing(init);
      if !last.IsEmpty() { assert NonEmpty(cs)[..|NonEmpty(init)|] == NonEmpty(init); }
    }
  }

  /** ... and the rest stay in order. */
  lemma {:induction false} NonEmptyConcat(a: seq<Change>, b: seq<Change>)
    ensures NonEmpty(a + b) == NonEmpty(a) + NonEmpty(b)
    decreases |b|
  {
    if b == [] {
      assert a + b == a;
    } else {
      assert (a + b)[..|a + b| - 1] == a + b[..|b| - 1];
      NonEmptyConcat(a, b[..|b| - 1]);
    }
  }

  lemma {:induction false} ConcerningCount(cs: seq<Change>, id: NodeID, x: Change)
    ensures multiset(Concerning(cs, id))[x] == if x.target == 0 || x.target == id then multiset(cs)[x] else 0
  {
    if cs != [] {
      ConcerningCount(cs[..|cs| - 1], id, x);
      assert cs == cs[..|cs| - 1] + [cs[|cs| - 1]];
    }
  }

  lemma {:induction false} ConcerningConcat(a: seq<Change>, b: seq<Change>, id: NodeID)
    ensures Concerning(a + b, id) == Concerning(a, id) + Concerning(b, id)
    decreases |b|
  {
    if b == [] {
      assert a + b == a;
    } else {
      assert (a + b)[..|a + b| - 1] == a + b[..|b| - 1];
      ConcerningConcat(a, b[..|b| - 1], id);
    }
  }

  /** The entries after a submission. */
  function Submitted(nodes: NodeMap, cs: seq<Change>): NodeMap
  {
    if NonEmpty(cs) == [] then nodes else FedAll(nodes, NonEmpty(cs))
  }

  lemma FullKept(cs: seq<Change>)
    ensures HasFull(NonEmpty(cs)) <==> HasFull(cs)
  {
    var kept := NonEmpty(cs);
    if i :| 0 <= i < |cs| && cs[i].IsFull() {
      NonEmptyExact(cs, cs[i]);
      assert cs[i] in multiset(kept);
      assert cs[i] in kept;
    }
    if i :| 0 <= i < |kept| && kept[i].IsFull() {
      NonEmptyExact(cs, kept[i]);
      assert kept[i] in multiset(cs);
      assert kept[i] in cs;
    }
  }

  lemma FedExact(q: NodeQueue, id: NodeID, cs: seq<Change>, x: Change)
    requires id != 0 && !HasFull(cs)
    ensures var q' := Fed(q, id, cs);
            && q'.inFlight == q.inFlight && q.pending <= q'.pending
            && multiset(q'.pending)[x] ==
               multiset(q.pending)[x] + if x.target == 0 || x.target == id then multiset(cs)[x] else 0
  {
    FeedComplete(cs, id);
    ConcerningCount(cs, id, x);
    assert Fed(q, id, cs).pending == q.pending + (Targeted(cs, id) + Untargeted(cs));
  }

  /** A submission drops exactly the entries of the nodes that one of its changes reports as deleted. */
  lemma SubmissionDrops(nodes: NodeMap, cs: seq<Change>, id: NodeID)
    ensures id in Submitted(nodes, cs) <==> id in nodes && forall i :: 0 <= i < |cs| ==> id !in cs[i].deleted
    ensures id in Submitted(nodes, cs) && NonEmpty(cs) != [] ==>
              Submitted(nodes, cs)[id] == Fed(nodes[id], id, NonEmpty(cs))
  {
    DeletedExact(cs, id);
    EmptyDeletesNothing(cs);
    if NonEmpty(cs) == [] { assert DeletedBy(cs) == {}; }
  }

  /** ... and the sessions of each of them are torn down once. */
  lemma TornDownOnce(nodes: NodeMap, cs: seq<Change>, id: NodeID)
    ensures Dropped(nodes, DeletedBy(NonEmpty(cs)))[id] ==
            if id in nodes && exists i :: 0 <= i < |cs| && id in cs[i].deleted then 1 else 0
  {
    DeletedExact(cs, id);
    EmptyDeletesNothing(cs);
  }

  /** An entry that stays keeps its flag. Its pending list becomes one full update if the submission has a full
      change; otherwise the list is kept and followed by the non-empty changes that are for this node or for
      all, each as often as it was submitted. */
  lemma SubmissionExact(nodes: NodeMap, cs: seq<Change>, id: NodeID, x: Change)
    requires id != 0 && id in Submitted(nodes, cs)
    ensures id in nodes
    ensures var q, q' := nodes[id], Submitted(nodes, cs)[id];
            && q'.inFlight == q.inFlight
            && (HasFull(cs) ==> q'.pending == [FULL_UPDATE])
            && (!HasFull(cs) ==>
                  && q.pending <= q'.pending
                  && multiset(q'.pending)[x] ==
                     multiset(q.pending)[x]
                     + if !x.IsEmpty() && (x.target == 0 || x.target == id) then multiset(cs)[x] else 0)
  {
    SubmissionDrops(nodes, cs, id);
    NonEmptyExact(cs, x);
    FullKept(cs);
    if !HasFull(cs) && NonEmpty(cs) != [] { FedExact(nodes[id], id, NonEmpty(cs), x); }
  }

  // ----- The protocol ------------------------------------------------------------------

  lemma {:induction false} DedupeSameChanges(items: seq<Item>)
    ensures ChangesOf(DedupeItems(items)) == Dedupe(ChangesOf(items))
  {
    if items != [] {
      var init, last := items[..|items| - 1], items[|items| - 1];
      DedupeSameChanges(init);
      assert ChangesOf(items) == ChangesOf(init) + [last.change];
      assert SeenPolicyItem(init) <==> SeenPolicy(ChangesOf(init)) by {
        assert forall i :: 0 <= i < |init| ==> init[i].change == ChangesOf(init)[i];
      }
      if !(last.change.IsBroadcastPolicyChange() && SeenPolicyItem(init)) {
        assert ChangesOf(DedupeItems(init) + [last]) == ChangesOf(DedupeItems(init)) + [last.change];
      }
    }
  }

  lemma NoFullInGroups(cs: seq<Change>, id: NodeID)
    requires !HasFull(cs)
    ensures !HasFull(Targeted(cs, id) + Untargeted(cs))
  {
    var mine := Targeted(cs, id) + Untargeted(cs);
    GroupsExact(cs, id);
    forall i | 0 <= i < |mine| ensures !mine[i].IsFull()
    {
      assert mine[i] in Targeted(cs, id) || mine[i] in Untargeted(cs);
      assert mine[i] in cs;
    }
  }

  /** A node's queue moves as the delivery protocol says: submitting what concerns it, and replacing it
      by a full update. */
  lemma SubmitIsProtocolStep(f: Flow, q: NodeQueue, id: NodeID, cs: seq<Change>)
    requires ChangesOf(f.pending) == q.pending
    ensures HasFull(cs) ==> ChangesOf(NextFeed(f, SubmitFull).pending) == Fed(q, id, cs).pending
    ensures var mine := Targeted(cs, id) + Untargeted(cs);
            !HasFull(cs) ==>
              FeedEnabled(f, Submit(mine)) && ChangesOf(NextFeed(f, Submit(mine)).pending) == Fed(q, id, cs).pending
  {
    var mine := Targeted(cs, id) + Untargeted(cs);
    if !HasFull(cs) { NoFullInGroups(cs, id); }
    assert ChangesOf(f.pending + Number(|f.accepted|, mine)) == q.pending + mine;
    assert q.pending + mine == q.pending + Targeted(cs, id) + Untargeted(cs);
  }

  /** ... and a tick queues a bundle exactly when the protocol does, holding the same changes. */
  lemma TickIsProtocolStep(f: Flow, q: NodeQueue)
    requires ChangesOf(f.pending) == q.pending && f.inFlight == q.inFlight
    ensures FeedEnabled(f, Tick) <==> Due(q)
    ensures Due(q) ==> var f' := NextFeed(f, Tick);
                       && ChangesOf(f'.pending) == Ticked(q).pending && f'.inFlight == Ticked(q).inFlight
                       && f'.queue == f.queue + [DedupeItems(f.pending)]
                       && ChangesOf(DedupeItems(f.pending)) == Dedupe(q.pending)
  {
    DedupeSameChanges(f.pending);
    assert |ChangesOf(f.pending)| == |f.pending|;
  }
}
