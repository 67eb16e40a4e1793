/**
 The single writer: it gathers writes into a batch, applies the batch, publishes the snapshot
 and only then answers and releases every caller whose write was in it.
 */
module WriteQueue {
  import opened Basics
  import opened Nodes
  import opened Snapshots
  import opened NodeStore

  // ----- Answering the callers of one batch --------------------------------------------

  /** What is put on the result channels of the write at position w of the batch. */
  datatype Reply =
    | NodeReply(w: nat, view: Option<NodeView>)
    | ErrReply(w: nat, err: Option<NameError>)
    | Closed(w: nat)   // the channel the caller blocks on

  predicate WantsNode(op: Op) { op.Put? || op.SetName? }

  function TargetOf(op: Op): NodeID
    requires WantsNode(op)
  {
    op.id
  }

  function ViewIn(nodes: NodeTable, id: NodeID): Option<NodeView>
  {
    if id in nodes then Some(NodeView(id, nodes[id])) else None
  }

  /** The replies a batch owes, given the table it left behind. */
  predicate Owed(batch: seq<Op>, nodes: NodeTable, errs: seq<Option<NameError>>, r: Reply)
    requires |errs| == |batch|
  {
    && r.w < |batch|
    && match r
       case NodeReply(w, view) => WantsNode(batch[w]) && view == ViewIn(nodes, TargetOf(batch[w]))
       case ErrReply(w, err) => batch[w].SetName? && err == errs[w]
       case Closed(w) => true
  }

  /** out answers the batch: every owed reply once and nothing else, and no caller is released
      before all values are in place. */
  ghost predicate Answers(batch: seq<Op>, nodes: NodeTable, errs: seq<Option<NameError>>, out: seq<Reply>)
    requires |errs| == |batch|
  {
    && NoDuplicates(out)
    && (forall r :: r in out <==> Owed(batch, nodes, errs, r))
    && (forall j, k :: 0 <= j < k < |out| && out[j].Closed? ==> out[k].Closed?)
  }

  predicate Names(op: Op, id: NodeID) { WantsNode(op) && TargetOf(op) == id }

  /** Replies about writes of one node, in the order they were queued. */
  method AnswerNode(batch: seq<Op>, nodes: NodeTable, errs: seq<Option<NameError>>, id: NodeID)
    returns (out: seq<Reply>)
    requires |errs| == |batch|
    ensures NoDuplicates(out)
    ensures forall r :: r in out <==> Owed(batch, nodes, errs, r) && !r.Closed? && Names(batch[r.w], id)
  {
    var view := ViewIn(nodes, id);
    out := [];
    for w := 0 to |batch|
      invariant NoDuplicates(out)
      invariant forall r :: r in out <==>
                  r.w < w && Owed(batch, nodes, errs, r) && !r.Closed? && Names(batch[r.w], id)
    {
      if Names(batch[w], id) {
        out := out + [NodeReply(w, view)];
        if batch[w].SetName? { out := out + [ErrReply(w, errs[w])]; }
      }
    }
  }

  /** The values every caller of the batch is owed, node by node in any order. */
  method AnswerAll(batch: seq<Op>, nodes: NodeTable, errs: seq<Option<NameError>>) returns (out: seq<Reply>)
    requires |errs| == |batch|
    ensures NoDuplicates(out)
    ensures forall r :: r in out <==> Owed(batch, nodes, errs, r) && !r.Closed?
  {
    out := [];
    var targets := set w | 0 <= w < |batch| && WantsNode(batch[w]) :: TargetOf(batch[w]);
    var todo := targets;
    while todo != {}
      invariant todo <= targets
      invariant NoDuplicates(out)
      invariant forall r :: r in out <==>
                  Owed(batch, nodes, errs, r) && !r.Closed? && TargetOf(batch[r.w]) !in todo
      decreases todo
    {
      var id :| id in todo;
      var replies := AnswerNode(batch, nodes, errs, id);
      NoDuplicatesConcat(out, replies);
      out := out + replies;
      todo := todo - {id};
    }
  }

  /** The positions of the rebuilds in a batch, or of the other writes. */
  function Positions(batch: seq<Op>, rebuild: bool): (r: seq<nat>)
    ensures forall i :: 0 <= i < |r| ==> r[i] < |batch|
  {
    if batch == [] then []
    else
      var init, last := batch[..|batch| - 1], batch[|batch| - 1];
      if last.RebuildPeerMaps? == rebuild then Positions(init, rebuild) + [|init|] else Positions(init, rebuild)
  }

  /** Those positions, ascending. */
  lemma {:induction false} PositionsExact(batch: seq<Op>, rebuild: bool)
    ensures var r := Positions(batch, rebuild);
            && (forall w: nat :: w in r <==> w < |batch| && batch[w].RebuildPeerMaps? == rebuild)
            && forall i, j :: 0 <= i < j < |r| ==> r[i] < r[j]
  {
    if batch != [] {
      var init := batch[..|batch| - 1];
      PositionsExact(init, rebuild);
      assert forall w: nat :: w < |init| ==> init[w] == batch[w];
    }
  }

  function Closings(ws: seq<nat>): seq<Reply> { seq(|ws|, i requires 0 <= i < |ws| => Closed(ws[i])) }

  /** Answers every caller of an applied batch, then releases them: rebuilds first, then the rest. */
  method Complete(batch: seq<Op>, nodes: NodeTable, errs: seq<Option<NameError>>) returns (out: seq<Reply>)
    requires |errs| == |batch|
    ensures Answers(batch, nodes, errs, out)
    ensures |batch| <= |out| && out[|out| - |batch|..] == Closings(Positions(batch, true) + Positions(batch, false))
  {
    var values := AnswerAll(batch, nodes, errs);
    var rebuilds := CloseIf(batch, true);
    var others := CloseIf(batch, false);
    out := values + (rebuilds + others);
    AllClosings(batch);
    AnswersThenCloses(batch, nodes, errs, values, rebuilds + others);
  }

  lemma AnswersThenCloses(batch: seq<Op>, nodes: NodeTable, errs: seq<Option<NameError>>,
                          values: seq<Reply>, closes: seq<Reply>)
    requires |errs| == |batch| && NoDuplicates(values) && NoDuplicates(closes)
    requires forall r :: r in values <==> Owed(batch, nodes, errs, r) && !r.Closed?
    requires forall r :: r in closes <==> r.Closed? && r.w < |batch|
    ensures Answers(batch, nodes, errs, values + closes)
  {
    NoDuplicatesConcat(values, closes);
    assert forall i :: 0 <= i < |values| ==> values[i] in values;
    assert forall i :: 0 <= i < |closes| ==> closes[i] in closes;
    ClosesLast(values, closes);
  }

  /** Every caller of the batch is released, each once. */
  lemma AllClosings(batch: seq<Op>)
    ensures var a, b := Positions(batch, true), Positions(batch, false);
            && Closings(a) + Closings(b) == Closings(a + b) && |a + b| == |batch|
            && NoDuplicates(Closings(a) + Closings(b))
            && forall r :: r in Closings(a) + Closings(b) <==> r.Closed? && r.w < |batch|
  {
    var x, y := Closings(Positions(batch, true)), Closings(Positions(batch, false));
    PositionsCover(batch);
    ClosingsConcat(Positions(batch, true), Positions(batch, false));
    ClosingsExact(batch, true);
    ClosingsExact(batch, false);
    ClosingsDisjoint(batch, x, y);
  }

  lemma ClosingsConcat(a: seq<nat>, b: seq<nat>)
    ensures Closings(a) + Closings(b) == Closings(a + b)
  {
  }

  lemma ClosingsDisjoint(batch: seq<Op>, x: seq<Reply>, y: seq<Reply>)
    requires NoDuplicates(x) && NoDuplicates(y)
    requires forall r :: r in x <==> r.Closed? && r.w < |batch| && batch[r.w].RebuildPeerMaps?
    requires forall r :: r in y <==> r.Closed? && r.w < |batch| && !batch[r.w].RebuildPeerMaps?
    ensures NoDuplicates(x + y) && forall r :: r in x + y <==> r.Closed? && r.w < |batch|
  {
    NoDuplicatesConcat(x, y);
  }

  lemma {:induction false} PositionsCover(batch: seq<Op>)
    ensures |Positions(batch, true)| + |Positions(batch, false)| == |batch|
  {
    if batch != [] { PositionsCover(batch[..|batch| - 1]); }
  }

  method CloseIf(batch: seq<Op>, rebuild: bool) returns (out: seq<Reply>)
    ensures out == Closings(Positions(batch, rebuild))
  {
    out := [];
    for w := 0 to |batch|
      invariant out == Closings(Positions(batch[..w], rebuild))
    {
      PositionsStep(batch, rebuild, w);
      if batch[w].RebuildPeerMaps? == rebuild { out := out + [Closed(w)]; }
    }
    assert batch[..|batch|] == batch;
  }

  lemma PositionsStep(batch: seq<Op>, rebuild: bool, w: nat)
    requires w < |batch|
    ensures Closings(Positions(batch[..w + 1], rebuild)) ==
            Closings(Positions(batch[..w], rebuild))
            + if batch[w].RebuildPeerMaps? == rebuild then [Closed(w)] else []
  {
    var before := Positions(batch[..w], rebuild);
    assert batch[..w + 1][..w] == batch[..w];
    ClosingsConcat(before, [w]);
    assert Closings([w]) == [Closed(w)];
  }

  lemma ClosingsExact(batch: seq<Op>, rebuild: bool)
    ensures var out := Closings(Positions(batch, rebuild));
            && NoDuplicates(out)
            && forall r :: r in out <==> r.Closed? && r.w < |batch| && batch[r.w].RebuildPeerMaps? == rebuild
  {
    var ws := Positions(batch, rebuild);
    PositionsExact(batch, rebuild);
    assert forall i :: 0 <= i < |ws| ==> ws[i] in ws;
    forall r: Reply | r.Closed? && r.w < |batch| && batch[r.w].RebuildPeerMaps? == rebuild ensures r in Closings(ws)
    {
      assert r.w in ws;
      var i :| 0 <= i < |ws| && ws[i] == r.w;
      assert Closings(ws)[i] == r;
    }
  }

  lemma ClosesLast(values: seq<Reply>, closes: seq<Reply>)
    requires forall i :: 0 <= i < |values| ==> !values[i].Closed?
    requires forall i :: 0 <= i < |closes| ==> closes[i].Closed?
    ensures var out := values + closes;
            forall j, k :: 0 <= j < k < |out| && out[j].Closed? ==> out[k].Closed?
  {
  }

  // ----- The writer over a whole run ---------------------------------------------------

  /** A write as its caller sees it; no two writes share a ticket. */
  datatype Ticket = Ticket(id: nat, op: Op)

  /** The batch being gathered, the batches published so far, the callers of the last published
      batch that are still blocked, and the callers that have been released. */
  datatype Writer = Writer(
    accepted: seq<Ticket>, batch: seq<Ticket>, log: seq<seq<Ticket>>,
    owed: seq<nat>, released: seq<nat>, stopped: bool, exited: bool)

  datatype Action = Accept(t: Ticket) | Tick | Stop | SeeStop | Release

  function OpsOf(ts: seq<Ticket>): seq<Op> { seq(|ts|, i requires 0 <= i < |ts| => ts[i].op) }

  function IdsOf(ts: seq<Ticket>): seq<nat> { seq(|ts|, i requires 0 <= i < |ts| => ts[i].id) }

  /** The writes of a batch that are rebuilds, or those that are not, in order. */
  function Those(ts: seq<Ticket>, rebuild: bool): seq<Ticket>
  {
    if ts == [] then []
    else
      var init, last := ts[..|ts| - 1], ts[|ts| - 1];
      if last.op.RebuildPeerMaps? == rebuild then Those(init, rebuild) + [last] else Those(init, rebuild)
  }

  /** The order in which the callers of a batch are released: rebuilds first. */
  function ReleaseOrder(ts: seq<Ticket>): seq<nat> { IdsOf(Those(ts, true)) + IdsOf(Those(ts, false)) }

  /** Publishes the batch; its callers are released afterwards, one by one. */
  function Flush(w: Writer): Writer
  {
    if w.batch == [] then w
    else w.(log := w.log + [w.batch], owed := ReleaseOrder(w.batch), batch := [])
  }

  /** The writer is at its select only when it owes nobody a release. */
  predicate Enabled(w: Writer, a: Action)
  {
    match a
    case Accept(t) => !w.exited && w.owed == [] && t.id !in IdsOf(w.accepted)
    case Tick => !w.exited && w.owed == []
    case Stop => true
    case SeeStop => w.stopped && !w.exited && w.owed == []
    case Release => w.owed != []
  }

  function Next(batchSize: nat, w: Writer, a: Action): Writer
    requires Enabled(w, a)
  {
    match a
    case Accept(t) =>
      var w' := w.(accepted := w.accepted + [t], batch := w.batch + [t]);
      if |w'.batch| >= batchSize then Flush(w') else w'
    case Tick => Flush(w)
    case Stop => w.(stopped := true)
    case SeeStop => Flush(w).(exited := true)
    case Release => w.(owed := w.owed[1..], released := w.released + [w.owed[0]])
  }

  /** A history of the writer, for any choices its select makes. */
  datatype Run = Begin | Then(before: Run, action: Action, state: Writer)
  {
    function Last(): Writer { if Begin? then Writer([], [], [], [], [], false, false) else state }
  }

  ghost predicate IsRun(batchSize: nat, run: Run)
  {
    run.Then? ==>
      && IsRun(batchSize, run.before) && Enabled(run.before.Last(), run.action)
      && run.state == Next(batchSize, run.before.Last(), run.action)
  }

  function Concat(log: seq<seq<Ticket>>): seq<Ticket>
  {
    if log == [] then [] else Concat(log[..|log| - 1]) + log[|log| - 1]
  }

  /** The releases of all published batches. */
  function Releases(log: seq<seq<Ticket>>): seq<nat>
  {
    if log == [] then [] else Releases(log[..|log| - 1]) + ReleaseOrder(log[|log| - 1])
  }

  /** Accepted writes are published in order, each in exactly one batch, except those still gathered;
      exactly the published ones are released or about to be, batch by batch and rebuilds first. */
  ghost predicate Conserved(w: Writer)
  {
    && w.accepted == Concat(w.log) + w.batch
    && w.released + w.owed == Releases(w.log)
    && NoDuplicates(IdsOf(w.accepted))
    && (w.exited ==> w.batch == [])
  }

  lemma IdsOfConcat(a: seq<Ticket>, b: seq<Ticket>)
    ensures IdsOf(a + b) == IdsOf(a) + IdsOf(b)
  {
  }

  /** Releasing rebuilds first releases everybody, each once. */
  lemma {:induction false} ReleaseOrderPermutes(ts: seq<Ticket>)
    ensures multiset(ReleaseOrder(ts)) == multiset(IdsOf(ts))
  {
    if ts != [] {
      var init, last := ts[..|ts| - 1], ts[|ts| - 1];
      ReleaseOrderPermutes(init);
      assert ts == init + [last];
      IdsOfConcat(init, [last]);
      IdsOfConcat(Those(init, last.op.RebuildPeerMaps?), [last]);
      assert IdsOf([last]) == [last.id];
    }
  }

  lemma {:induction false} ReleasesPermute(log: seq<seq<Ticket>>)
    ensures multiset(Releases(log)) == multiset(IdsOf(Concat(log)))
  {
    if log != [] {
      var init, last := log[..|log| - 1], log[|log| - 1];
      ReleasesPermute(init);
      ReleaseOrderPermutes(last);
      IdsOfConcat(Concat(init), last);
    }
  }

  /** The tickets at the given positions. */
  function At(ts: seq<Ticket>, ws: seq<nat>): seq<nat>
    requires forall i :: 0 <= i < |ws| ==> ws[i] < |ts|
  {
    seq(|ws|, i requires 0 <= i < |ws| => ts[ws[i]].id)
  }

  lemma {:induction false} ThoseAt(ts: seq<Ticket>, rebuild: bool)
    ensures IdsOf(Those(ts, rebuild)) == At(ts, Positions(OpsOf(ts), rebuild))
  {
    if ts != [] {
      var init, last := ts[..|ts| - 1], ts[|ts| - 1];
      ThoseAt(init, rebuild);
      assert OpsOf(ts)[..|ts| - 1] == OpsOf(init) && OpsOf(ts)[|ts| - 1] == last.op;
      AtGrows(init, last, Positions(OpsOf(init), rebuild));
      assert ts == init + [last];
      if last.op.RebuildPeerMaps? == rebuild { IdsOfConcat(Those(init, rebuild), [last]); }
    }
  }

  lemma AtGrows(ts: seq<Ticket>, t: Ticket, ws: seq<nat>)
    requires forall i :: 0 <= i < |ws| ==> ws[i] < |ts|
    ensures At(ts + [t], ws) == At(ts, ws)
    ensures At(ts + [t], ws + [|ts|]) == At(ts, ws) + IdsOf([t])
  {
  }

  /** Callers are released in the order in which their channels are closed. */
  lemma ReleasedAsClosed(ts: seq<Ticket>)
    ensures ReleaseOrder(ts) == At(ts, Positions(OpsOf(ts), true) + Positions(OpsOf(ts), false))
  {
    ThoseAt(ts, true);
    ThoseAt(ts, false);
  }

  /** A batch has been published. */
  lemma PublishedLog(log: seq<seq<Ticket>>, batch: seq<Ticket>)
    ensures Concat(log + [batch]) == Concat(log) + batch
    ensures Releases(log + [batch]) == Releases(log) + ReleaseOrder(batch)
  {
    assert (log + [batch])[..|log|] == log;
  }

  lemma FlushConserves(w: Writer)
    requires Conserved(w) && w.owed == []
    ensures Conserved(Flush(w)) && Flush(w).batch == []
  {
    if w.batch != [] {
      PublishedLog(w.log, w.batch);
      assert w.released + [] == w.released;
      assert Concat(w.log) + w.batch + [] == Concat(w.log) + w.batch;
    }
  }

  lemma AcceptConserves(w: Writer, t: Ticket)
    requires Conserved(w) && t.id !in IdsOf(w.accepted) && !w.exited
    ensures Conserved(w.(accepted := w.accepted + [t], batch := w.batch + [t]))
  {
    IdsOfConcat(w.accepted, [t]);
    assert IdsOf([t]) == [t.id];
    NoDuplicatesAppend(IdsOf(w.accepted), t.id);
    assert Concat(w.log) + w.batch + [t] == Concat(w.log) + (w.batch + [t]);
  }

  lemma NextConserves(batchSize: nat, w: Writer, a: Action)
    requires Conserved(w) && Enabled(w, a)
    ensures Conserved(Next(batchSize, w, a))
  {
    match a
    case Accept(t) =>
      AcceptConserves(w, t);
      FlushConserves(w.(accepted := w.accepted + [t], batch := w.batch + [t]));
    case Tick => FlushConserves(w);
    case Stop =>
    case SeeStop => FlushConserves(w);
    case Release => assert w.released + w.owed == w.released + [w.owed[0]] + w.owed[1..];
  }

  lemma {:induction false} WritesConserved(batchSize: nat, run: Run)
    requires IsRun(batchSize, run)
    ensures Conserved(run.Last())
  {
    if run.Then? {
      WritesConserved(batchSize, run.before);
      NextConserves(batchSize, run.before.Last(), run.action);
    }
  }

  // ----- Batch boundaries and the table ------------------------------------------------

  /** The table published after the applied batches. */
  ghost function Table(start: NodeTable, log: seq<seq<Ticket>>): NodeTable
  {
    if log == [] then start
    else ApplyOps(Batch(Table(start, log[..|log| - 1]), false, false), OpsOf(log[|log| - 1])).nodes
  }

  lemma {:induction false} UpdatesIgnoreFlags(t: NodeTable, r: bool, e: bool, us: seq<(NodeID, Node -> Node)>)
    ensures ApplyUpdates(Batch(t, r, e), us).nodes == ApplyUpdates(Batch(t, false, false), us).nodes
  {
    if us != [] { UpdatesIgnoreFlags(t, r, e, us[..|us| - 1]); }
  }

  lemma {:induction false} OpsIgnoreFlags(t: NodeTable, r: bool, e: bool, ops: seq<Op>)
    ensures ApplyOps(Batch(t, r, e), ops).nodes == ApplyOps(Batch(t, false, false), ops).nodes
  {
    if ops != [] {
      OpsIgnoreFlags(t, r, e, ops[..|ops| - 1]);
      var a, b := ApplyOps(Batch(t, r, e), ops[..|ops| - 1]), ApplyOps(Batch(t, false, false), ops[..|ops| - 1]);
      var op := ops[|ops| - 1];
      if op.UpdateMulti? {
        UpdatesIgnoreFlags(a.nodes, a.relation, a.election, op.updates);
        UpdatesIgnoreFlags(b.nodes, b.relation, b.election, op.updates);
      }
    }
  }

  lemma {:induction false} OpsCompose(t: NodeTable, a: seq<Op>, b: seq<Op>)
    ensures ApplyOps(Batch(t, false, false), a + b).nodes ==
            ApplyOps(Batch(ApplyOps(Batch(t, false, false), a).nodes, false, false), b).nodes
    decreases |b|
  {
    if b == [] {
      assert a + b == a;
    } else {
      var init, last := b[..|b| - 1], b[|b| - 1];
      assert (a + b)[..|a + b| - 1] == a + init;
      OpsCompose(t, a, init);
      var x := ApplyOps(Batch(t, false, false), a + init);
      var y := ApplyOps(Batch(ApplyOps(Batch(t, false, false), a).nodes, false, false), init);
      if last.UpdateMulti? {
        UpdatesIgnoreFlags(x.nodes, x.relation, x.election, last.updates);
        UpdatesIgnoreFlags(y.nodes, y.relation, y.election, last.updates);
      }
    }
  }

  lemma {:induction false} TableIgnoresBatching(start: NodeTable, log: seq<seq<Ticket>>)
    ensures Table(start, log) == ApplyOps(Batch(start, false, false), OpsOf(Concat(log))).nodes
  {
    if log != [] {
      var init, last := log[..|log| - 1], log[|log| - 1];
      TableIgnoresBatching(start, init);
      assert OpsOf(Concat(log)) == OpsOf(Concat(init)) + OpsOf(last);
      OpsCompose(start, OpsOf(Concat(init)), OpsOf(last));
    }
  }

  /** Read your writes, for every interleaving: the published table is the accepted writes applied
      in order, short of those still gathered; a caller is released only once its write is in the
      published table, and only once; when the writer is at rest every published write has been
      released, and after it has exited that is every accepted write. */
  lemma ReadYourWrites(batchSize: nat, run: Run, start: NodeTable)
    requires IsRun(batchSize, run)
    ensures var w := run.Last();
            var applied := |w.accepted| - |w.batch|;
            && 0 <= applied <= |w.accepted|
            && Table(start, w.log) == ApplyOps(Batch(start, false, false), OpsOf(w.accepted[..applied])).nodes
            && multiset(w.released) + multiset(w.owed) == multiset(IdsOf(w.accepted[..applied]))
            && NoDuplicates(w.released + w.owed)
            && (w.exited ==> applied == |w.accepted|)
  {
    WritesConserved(batchSize, run);
    var w := run.Last();
    assert w.accepted[..|Concat(w.log)|] == Concat(w.log);
    TableIgnoresBatching(start, w.log);
    ReleasesPermute(w.log);
    ReleasedOnce(w);
  }

  lemma ReleasedOnce(w: Writer)
    requires Conserved(w)
    ensures NoDuplicates(w.released + w.owed)
  {
    IdsOfConcat(Concat(w.log), w.batch);
    var ids := IdsOf(w.accepted);
    var published := IdsOf(Concat(w.log));
    assert forall i :: 0 <= i < |published| ==> published[i] == ids[i];
    ReleasesPermute(w.log);
    NoDuplicatesPermuted(published, w.released + w.owed);
  }

  // ----- What the writer has done, by its actions --------------------------------------

  /** The writes handed to the writer. */
  function Accepts(run: Run): seq<Ticket>
  {
    if run.Begin? then []
    else Accepts(run.before) + if run.action.Accept? then [run.action.t] else []
  }

  /** Those since the last tick, full batch or stop. */
  function Gathered(batchSize: nat, run: Run): seq<Ticket>
  {
    if run.Begin? then []
    else
      var before := Gathered(batchSize, run.before);
      match run.action
      case Accept(t) => if |before| + 1 >= batchSize then [] else before + [t]
      case Tick => []
      case SeeStop => []
      case _ => before
  }

  ghost predicate Did(run: Run, a: Action) { run.Then? && (run.action == a || Did(run.before, a)) }

  function ReleaseSteps(run: Run): nat
  {
    if run.Begin? then 0 else ReleaseSteps(run.before) + if run.action.Release? then 1 else 0
  }

  lemma StepWriter(batchSize: nat, w: Writer, a: Action)
    requires Enabled(w, a)
    ensures var w' := Next(batchSize, w, a);
            && w'.accepted == w.accepted + (if a.Accept? then [a.t] else [])
            && w'.batch == (match a
                            case Accept(t) => if |w.batch| + 1 >= batchSize then [] else w.batch + [t]
                            case Tick => []
                            case SeeStop => []
                            case _ => w.batch)
            && w'.stopped == (w.stopped || a.Stop?) && w'.exited == (w.exited || a.SeeStop?)
            && |w'.released| == |w.released| + if a.Release? then 1 else 0
  {
  }

  /** In every history: the writer has taken on exactly the writes handed to it, in order; a batch is
      published by a tick, when it is full, and by a stop, and nothing else holds a write back; the
      writer is gone iff it has seen a stop; and every release step releases one caller. */
  lemma {:induction false} WriterFollowsActions(batchSize: nat, run: Run)
    requires IsRun(batchSize, run)
    ensures var w := run.Last();
            && w.accepted == Accepts(run) && w.batch == Gathered(batchSize, run)
            && (w.stopped <==> Did(run, Stop)) && (w.exited <==> Did(run, SeeStop))
            && |w.released| == ReleaseSteps(run)
  {
    if run.Then? {
      WriterFollowsActions(batchSize, run.before);
      StepWriter(batchSize, run.before.Last(), run.action);
    }
  }

  /** Applies a batch and answers its callers: the values they receive are read from the snapshot
      that has just been published. */
  method ApplyAndAnswer(store: Store, policy: Policy, batch: seq<Op>)
    returns (errs: seq<Option<NameError>>, out: seq<Reply>)
    modifies store
    ensures BatchStep(store.peersFunc, policy, old(store.data), batch, store.data)
    ensures |errs| == |batch| && forall i :: 0 <= i < |batch| ==>
              errs[i] == NameErrorAt(old(store.data.nodes), batch, i)
    ensures Answers(batch, store.data.nodes, errs, out)
    ensures |batch| <= |out| && out[|out| - |batch|..] == Closings(Positions(batch, true) + Positions(batch, false))
  {
    errs := store.ApplyBatch(policy, batch);
    out := Complete(batch, store.data.nodes, errs);
  }
}
