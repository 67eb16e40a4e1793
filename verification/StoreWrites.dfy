/**
 What every write does to the node table, field by field and over whole batches, and what its caller
 is told.
 */
module StoreWrites {
  import opened Basics
  import opened Nodes
  import opened Names
  import opened Snapshots
  import StoreTheorems
  import opened WriteQueue

  // ----- One write ---------------------------------------------------------------------

  /** The tables hold the same for every node but id. */
  ghost predicate SameBut(t: NodeTable, t': NodeTable, id: NodeID)
  {
    forall o :: o != id ==> (o in t <==> o in t') && (o in t ==> t'[o] == t[o])
  }

  /** got is what was asked for, under a non-empty name that no other node holds, and under the name asked
      for if that is such a name. */
  ghost predicate Stored(t: NodeTable, id: NodeID, asked: Node, got: Node)
  {
    && got == asked.(givenName := got.givenName)
    && got.givenName != "" && !Taken(t, id, got.givenName)
    && (asked.givenName != "" && !Taken(t, id, asked.givenName) ==> got == asked)
  }

  lemma RenamedIsStored(t: NodeTable, id: NodeID, n: Node)
    ensures Stored(t, id, n, n.(givenName := Resolved(t, id, n.givenName)))
  {
    ResolvedIsFirstFree(t, id, n.givenName);
  }

  /** A put stores the node under its ID, up to its name, and touches nothing else. */
  lemma PutExact(b: Batch, id: NodeID, n: Node)
    ensures var t' := ApplyOp(b, Put(id, n)).nodes;
            t'.Keys == b.nodes.Keys + {id} && Stored(b.nodes, id, n, t'[id]) && SameBut(b.nodes, t', id)
  {
    RenamedIsStored(b.nodes, id, n);
  }

  /** A deletion removes exactly the node. */
  lemma DelExact(b: Batch, id: NodeID)
    ensures var t' := ApplyOp(b, Del(id)).nodes; t'.Keys == b.nodes.Keys - {id} && SameBut(b.nodes, t', id)
  {
  }

  /** An update replaces an existing node by its function's result. A name it leaves alone stays; one it
      changes is resolved like that of a put. An update of a missing node does nothing. */
  lemma UpdateExact(b: Batch, u: (NodeID, Node -> Node))
    ensures var t' := ApplyUpdate(b, u).nodes;
            && t'.Keys == b.nodes.Keys && SameBut(b.nodes, t', u.0)
            && (u.0 in b.nodes ==>
                  var pre, post := b.nodes[u.0], u.1(b.nodes[u.0]);
                  if post.givenName == pre.givenName then t'[u.0] == post else Stored(b.nodes, u.0, post, t'[u.0]))
  {
    if u.0 in b.nodes { RenamedIsStored(b.nodes, u.0, u.1(b.nodes[u.0])); }
  }

  predicate Mentions(us: seq<(NodeID, Node -> Node)>, id: NodeID) { exists i :: 0 <= i < |us| && us[i].0 == id }

  lemma {:induction false} UpdatesLeaveOthers(b: Batch, us: seq<(NodeID, Node -> Node)>, id: NodeID)
    requires !Mentions(us, id)
    ensures var t' := ApplyUpdates(b, us).nodes;
            t'.Keys == b.nodes.Keys && (id in b.nodes ==> t'[id] == b.nodes[id])
  {
    if us != [] {
      var init := us[..|us| - 1];
      forall i | 0 <= i < |init| ensures init[i].0 != id { assert us[i].0 != id; }
      UpdatesLeaveOthers(b, init, id);
      UpdateExact(ApplyUpdates(b, init), us[|us| - 1]);
    }
  }

  lemma {:induction false} UpdatesSplit(b: Batch, us: seq<(NodeID, Node -> Node)>, i: nat)
    requires i <= |us|
    ensures ApplyUpdates(b, us) == ApplyUpdates(ApplyUpdates(b, us[..i]), us[i..])
    decreases |us| - i
  {
    if i == |us| {
      assert us[..i] == us;
    } else {
      var init := us[..|us| - 1];
      assert us[i..][..|us| - i - 1] == init[i..] && init[..i] == us[..i];
      UpdatesSplit(b, init, i);
    }
  }

  /** In a list of updates, one whose node is named once makes of that node what its function says, under a
      name resolved among the names at that point if it changes the name. */
  lemma UpdateMultiExact(b: Batch, us: seq<(NodeID, Node -> Node)>, i: nat)
    requires i < |us| && us[i].0 in b.nodes && forall j :: 0 <= j < |us| && j != i ==> us[j].0 != us[i].0
    ensures var t, t' := ApplyUpdates(b, us[..i]).nodes, ApplyOp(b, UpdateMulti(us)).nodes;
            var id, pre, post := us[i].0, b.nodes[us[i].0], us[i].1(b.nodes[us[i].0]);
            && t'.Keys == b.nodes.Keys
            && if post.givenName == pre.givenName then t'[id] == post else Stored(t, id, post, t'[id])
  {
    var id, before, rest := us[i].0, us[..i], us[i + 1..];
    UpdatesSplit(b, us, i + 1);
    assert us[..i + 1][..i] == before;
    forall j | 0 <= j < |rest| ensures rest[j].0 != id { assert us[i + 1 + j].0 != id; }
    UpdatesLeaveOthers(b, before, id);
    UpdateExact(ApplyUpdates(b, before), us[i]);
    UpdatesLeaveOthers(ApplyUpdates(b, us[..i + 1]), rest, id);
  }

  /** A batch of health results. An unhealthy mark sticks iff the node is online and has an announced route
      approved; a healthy one always does. Nothing but the flag moves, and only of the nodes in the batch. */
  lemma HealthExact(b: Batch, results: seq<(NodeID, bool)>, i: nat)
    requires i < |results| && results[i].0 in b.nodes
    requires forall j :: 0 <= j < |results| && j != i ==> results[j].0 != results[i].0
    ensures var (id, healthy) := results[i];
            var t', n := ApplyOp(b, StoreTheorems.HealthOp(results)).nodes, b.nodes[id];
            && t'.Keys == b.nodes.Keys
            && t'[id] == n.(unhealthy :=
                 if healthy then false
                 else n.unhealthy || (n.online == Some(true) && exists p :: p in n.announced && p in n.approved))
  {
    var us, n := StoreTheorems.HealthOp(results).updates, b.nodes[results[i].0];
    UpdateMultiExact(b, us, i);
    var routes := n.AllApprovedRoutes();
    if |routes| > 0 { assert routes[0] in routes; assert routes[0] in n.announced && routes[0] in n.approved; }
    if p :| p in n.announced && p in n.approved { assert p in routes; }
  }

  lemma HealthLeavesOthers(b: Batch, results: seq<(NodeID, bool)>, id: NodeID)
    requires forall j :: 0 <= j < |results| ==> results[j].0 != id
    ensures SameAt(b.nodes, ApplyOp(b, StoreTheorems.HealthOp(results)).nodes, id)
  {
    UpdatesLeaveOthers(b, StoreTheorems.HealthOp(results).updates, id);
  }

  // ----- A batch -----------------------------------------------------------------------

  predicate Touches(op: Op, id: NodeID)
  {
    match op
    case Put(i, n) => i == id
    case UpdateMulti(us) => Mentions(us, id)
    case Del(i) => i == id
    case SetName(i, name) => i == id
    case RebuildPeerMaps => false
  }

  ghost predicate SameAt(t: NodeTable, t': NodeTable, id: NodeID)
  {
    (id in t <==> id in t') && (id in t ==> t'[id] == t[id])
  }

  lemma OpLeavesOthers(b: Batch, op: Op, id: NodeID)
    requires !Touches(op, id)
    ensures SameAt(b.nodes, ApplyOp(b, op).nodes, id)
  {
    match op
    case Put(i, n) => PutExact(b, i, n);
    case UpdateMulti(us) => UpdatesLeaveOthers(b, us, id);
    case Del(i) => DelExact(b, i);
    case SetName(i, name) => StoreTheorems.SetNameExact(b, i, name);
    case RebuildPeerMaps =>
  }

  /** No write of the list from position i on touches the node. */
  predicate UntouchedFrom(ops: seq<Op>, i: nat, id: NodeID) { forall j :: i <= j < |ops| ==> !Touches(ops[j], id) }

  /** A node is left as the last write that touches it left it. */
  lemma {:induction false} LastTouchDecides(b: Batch, ops: seq<Op>, i: nat, id: NodeID)
    requires i <= |ops| && UntouchedFrom(ops, i, id)
    ensures SameAt(ApplyOps(b, ops[..i]).nodes, ApplyOps(b, ops).nodes, id)
    decreases |ops|
  {
    if i == |ops| {
      assert ops[..i] == ops;
    } else {
      var init := ops[..|ops| - 1];
      assert init[..i] == ops[..i];
      LastTouchDecides(b, init, i, id);
      OpLeavesOthers(ApplyOps(b, init), ops[|ops| - 1], id);
    }
  }

  ghost function TableAfter(start: NodeTable, ops: seq<Op>): NodeTable
  {
    ApplyOps(Batch(start, false, false), ops).nodes
  }

  lemma OneMore(start: NodeTable, ops: seq<Op>, i: nat)
    requires i < |ops|
    ensures ApplyOps(Batch(start, false, false), ops[..i + 1])
            == ApplyOp(ApplyOps(Batch(start, false, false), ops[..i]), ops[i])
  {
    assert ops[..i + 1][..i] == ops[..i];
  }

  /** The write at position i is the last one to touch the node. */
  predicate TouchesLast(ops: seq<Op>, i: nat, id: NodeID) { i < |ops| && UntouchedFrom(ops, i + 1, id) }

  lemma LastPutWins(start: NodeTable, ops: seq<Op>, i: nat, id: NodeID)
    requires TouchesLast(ops, i, id) && ops[i].Put? && ops[i].id == id
    ensures var t' := TableAfter(start, ops);
            id in t' && Stored(TableAfter(start, ops[..i]), id, ops[i].node, t'[id])
  {
    LastTouchDecides(Batch(start, false, false), ops, i + 1, id);
    OneMore(start, ops, i);
    PutExact(ApplyOps(Batch(start, false, false), ops[..i]), id, ops[i].node);
  }

  lemma LastDelWins(start: NodeTable, ops: seq<Op>, i: nat, id: NodeID)
    requires TouchesLast(ops, i, id) && ops[i] == Del(id)
    ensures id !in TableAfter(start, ops)
  {
    LastTouchDecides(Batch(start, false, false), ops, i + 1, id);
    OneMore(start, ops, i);
    DelExact(ApplyOps(Batch(start, false, false), ops[..i]), id);
  }

  /** What a list of writes leaves of a node: as stored, if a put touched it last; nothing, if a deletion did;
      what it was, if none did. */
  lemma LastWriteWins(start: NodeTable, ops: seq<Op>, i: nat, id: NodeID)
    ensures UntouchedFrom(ops, 0, id) ==> SameAt(start, TableAfter(start, ops), id)
    ensures TouchesLast(ops, i, id) && ops[i].Put? && ops[i].id == id ==>
              var t' := TableAfter(start, ops);
              id in t' && Stored(TableAfter(start, ops[..i]), id, ops[i].node, t'[id])
    ensures TouchesLast(ops, i, id) && ops[i] == Del(id) ==> id !in TableAfter(start, ops)
  {
    if UntouchedFrom(ops, 0, id) { LastTouchDecides(Batch(start, false, false), ops, 0, id); }
    if TouchesLast(ops, i, id) && ops[i].Put? && ops[i].id == id { LastPutWins(start, ops, i, id); }
    if TouchesLast(ops, i, id) && ops[i] == Del(id) { LastDelWins(start, ops, i, id); }
  }

  // ----- Every interleaving ------------------------------------------------------------

  /** The writes handed to the writer that it has published, in order. */
  function PublishedOps(batchSize: nat, run: Run): seq<Op>
    requires |Gathered(batchSize, run)| <= |Accepts(run)|
  {
    OpsOf(Accepts(run)[..|Accepts(run)| - |Gathered(batchSize, run)|])
  }

  /** Whatever the batch boundaries: the published table holds a node as stored if a put was the last published
      write to touch it, does not hold it if that was a deletion, and holds it as loaded if there was none. */
  lemma PublishedNode(batchSize: nat, run: Run, start: NodeTable, i: nat, id: NodeID)
    requires IsRun(batchSize, run)
    ensures |Gathered(batchSize, run)| <= |Accepts(run)|
    ensures var ops, t := PublishedOps(batchSize, run), Table(start, run.Last().log);
            && (UntouchedFrom(ops, 0, id) ==> SameAt(start, t, id))
            && (TouchesLast(ops, i, id) && ops[i].Put? && ops[i].id == id ==>
                  id in t && Stored(TableAfter(start, ops[..i]), id, ops[i].node, t[id]))
            && (TouchesLast(ops, i, id) && ops[i] == Del(id) ==> id !in t)
  {
    WriterFollowsActions(batchSize, run);
    ReadYourWrites(batchSize, run, start);
    LastWriteWins(start, PublishedOps(batchSize, run), i, id);
  }

  // ----- What callers are told ---------------------------------------------------------

  /** The caller of a put that no later write of the batch touches receives its node, as stored. */
  lemma PutCallerSees(start: NodeTable, batch: seq<Op>, errs: seq<Option<NameError>>, out: seq<Reply>, w: nat)
    requires |errs| == |batch| && Answers(batch, TableAfter(start, batch), errs, out)
    requires w < |batch| && batch[w].Put? && TouchesLast(batch, w, batch[w].id)
    ensures exists got :: NodeReply(w, Some(NodeView(batch[w].id, got))) in out
                          && Stored(TableAfter(start, batch[..w]), batch[w].id, batch[w].node, got)
  {
    LastPutWins(start, batch, w, batch[w].id);
    var got := TableAfter(start, batch)[batch[w].id];
    assert Owed(batch, TableAfter(start, batch), errs, NodeReply(w, Some(NodeView(batch[w].id, got))));
  }

  /** A caller of a rename is told that it succeeded iff its node then bears the name, and an error iff its
      write changed nothing; the error names the first reason that applies when its turn comes. */
  lemma RenameCallerTold(start: NodeTable, batch: seq<Op>, w: nat)
    requires w < |batch| && batch[w].SetName?
    ensures var id, name, before := batch[w].id, batch[w].name, TableAfter(start, batch[..w]);
            match NameErrorAt(start, batch, w)
            case None =>
              id in before && ValidLabel(name) && !Taken(before, id, name)
              && TableAfter(start, batch[..w + 1]) == before[id := before[id].(givenName := name)]
            case Some(err) =>
              TableAfter(start, batch[..w + 1]) == before
              && match err
                 case NodeNotFound => id !in before
                 case GivenNameInvalid => id in before && !ValidLabel(name)
                 case GivenNameTaken => id in before && ValidLabel(name) && Taken(before, id, name)
  {
    OneMore(start, batch, w);
    StoreTheorems.SetNameExact(ApplyOps(Batch(start, false, false), batch[..w]), batch[w].id, batch[w].name);
  }
}
