/**
 Peer tracking over whole histories: when the server's record of the peers it has sent is exactly
 what a client has built from the frames on its channel, however many connections the node has.
 */
module DeliveryPeers {
  import opened Basics
  import opened Changes
  import opened PeerTracking
  import opened Delivery
  import opened DeliveryConnections

  /** The client's peers after receiving the frames in order. */
  function View(frames: seq<Frame>): set<NodeID>
  {
    if frames == [] then {} else Client(View(frames[..|frames| - 1]), frames[|frames| - 1].resp)
  }

  lemma ViewAppend(frames: seq<Frame>, x: Frame)
    ensures View(frames + [x]) == Client(View(frames), x.resp)
  {
    assert (frames + [x])[..|frames|] == frames;
  }

  // ----- What is queued ----------------------------------------------------------------

  ghost predicate Clean(items: seq<Item>) { forall i :: 0 <= i < |items| ==> Deliverable(items[i].change) }

  ghost predicate FlowClean(f: Flow)
  {
    && Clean(f.pending)
    && (forall i :: 0 <= i < |f.queue| ==> Clean(f.queue[i]))
    && forall k :: k in f.jobs ==> Clean(f.jobs[k].todo) && Clean(f.jobs[k].retry)
  }

  lemma {:induction false} DedupeClean(items: seq<Item>)
    requires Clean(items)
    ensures Clean(DedupeItems(items))
  {
    if items != [] { DedupeClean(items[..|items| - 1]); }
  }

  /** The complete list is only asked for by a full update, and no change names a peer as both changed
      and removed. */
  predicate CleanFeed(a: Action)
  {
    a.OnFeed? && a.feed.Submit? ==>
      forall i :: 0 <= i < |a.feed.changes| ==> CleanChange(a.feed.changes[i])
  }

  predicate CleanChange(r: Change) { !r.all && r.changed !! r.removed }

  lemma FeedKeepsClean(f: Flow, a: FeedAct)
    requires FlowClean(f) && FeedEnabled(f, a) && CleanFeed(OnFeed(a))
    ensures FlowClean(NextFeed(f, a))
  {
    match a
    case Submit(cs) =>
    case SubmitFull =>
    case Tick => DedupeClean(f.pending);
  }

  lemma BundleKeepsClean(f: Flow, k: nat, a: BundleAct)
    requires FlowClean(f) && BundleEnabled(f, k, a)
    ensures FlowClean(NextBundle(f, k, a))
  {
    match a
    case Take =>
    case Lock =>
    case Unlock =>
    case Requeue =>
    case Clear =>
  }

  lemma ChangeKeepsClean(id: NodeID, s: Entry, k: nat, a: ChangeAct)
    requires FlowClean(s.flow) && ChangeEnabled(id, s, k, a)
    ensures FlowClean(NextChange(id, s, k, a).flow)
  {
    match a
    case Skip(w) =>
    case Defer(w) =>
    case Begin(w) =>
    case Put(accept) =>
    case Finish =>
  }

  // ----- One connection ----------------------------------------------------------------

  /** The response synchronises a client that starts from nothing. */
  ghost predicate StartsFresh(f: Response) { forall t :: Track(t, f) == Client({}, f) }

  ghost predicate FreshAt(n: Net, c: nat)
  {
    n.PhaseOf(c).Generated? || n.PhaseOf(c).Delivered? ==> StartsFresh(n.PhaseOf(c).f)
  }

  lemma InitialStartsFresh(id: NodeID, tracked: set<NodeID>, w: Netmap)
    requires Generate(id, tracked, w, FullSelf(id)).Respond?
    ensures StartsFresh(Generate(id, tracked, w, FullSelf(id)).resp)
  {
    InitialMapSynchronises(id, tracked, w);
  }

  /** The response on its way means the same to the record and to a client that agrees with it. */
  predicate SendAgrees(n: Net, d: Option<Sending>)
  {
    d.Some? ==> Track(n.tracked, d.value.resp) == Client(n.tracked, d.value.resp)
  }

  /** The connection is in use and its initial map is recorded. */
  predicate Watched(n: Net, c: nat) { c in n.conns && (n.PhaseOf(c).Recorded? || n.PhaseOf(c).Open?) }

  /** Record and client agree, up to a response on its way that the client may have ahead of the record. */
  ghost predicate Agrees(n: Net, d: Option<Sending>, c: nat)
  {
    Watched(n, c) ==>
      if d.Some? && c in d.value.taken then View(n.ChanOf(c)) == Track(n.tracked, d.value.resp)
      else (d.Some? && c in d.value.failed) || n.tracked == View(n.ChanOf(c))
  }

  /** The event separates the record from what this client knows: another connection's initial map is
      recorded that holds other peers, or a change that this client was left out of moves the record. */
  predicate Disturbs(s: Entry, e: Event, c: nat)
  {
    Watched(s.net, c) &&
    (|| (e.Now? && e.a.OnConn? && e.a.conn.RecordInitial? && e.a.c != c && s.net.PhaseOf(e.a.c).Delivered?
         && Client({}, s.net.PhaseOf(e.a.c).f) != View(s.net.ChanOf(c)))
     || (IsFinish(s, e) && LeavesOut(s.net, s.flow.jobs[e.a.k].sending.value, c)))
  }

  predicate LeavesOut(n: Net, d: Sending, c: nat)
  {
    d.Ok() && c !in d.snapshot && Track(n.tracked, d.resp) != n.tracked
  }

  lemma ViewOfInitial(f: Response)
    ensures View([Initial(f)]) == Client({}, f)
  {
    ViewAppend([], Initial(f));
    assert [] + [Initial(f)] == [Initial(f)];
  }

  lemma RecordAgreesIff(n: Net, x: nat, f: Response, c: nat)
    requires n.PhaseOf(x) == Delivered(f) && StartsFresh(f) && n.ChanOf(x) == [Initial(f)] && Agrees(n, None, c)
    ensures var n' := n.(tracked := Track(n.tracked, f), phase := n.phase[x := Recorded]);
            Agrees(n', None, c) <==> !(Watched(n, c) && x != c && Client({}, f) != View(n.ChanOf(c)))
  {
    var n' := n.(tracked := Track(n.tracked, f), phase := n.phase[x := Recorded]);
    assert n'.tracked == Client({}, f) && n'.ChanOf(c) == n.ChanOf(c);
    if x == c { ViewOfInitial(f); }
  }

  /** Steps of a connection other than recording its initial map disturb nobody. */
  lemma ConnKeepsAgreement(id: NodeID, n: Net, unlocked: bool, x: nat, a: ConnAct, d: Option<Sending>, c: nat)
    requires ConnEnabled(id, n, unlocked, x, a) && !a.RecordInitial? && ConnFit(n, c) && Agrees(n, d, c)
    ensures Agrees(NextConn(id, n, unlocked, x, a), d, c)
  {
    var n' := NextConn(id, n, unlocked, x, a);
    assert n'.tracked == n.tracked;
    match a
    case Register =>
    case GenerateInitial(w, record) =>
    case DeliverInitial =>
    case OpenConn =>
    case AbortAdd =>
    case Disconnect =>
  }

  lemma ConnAgreesIff(id: NodeID, s: Entry, x: nat, a: ConnAct, c: nat)
    requires Enabled(id, s, OnConn(x, a)) && ConnFit(s.net, c) && ConnFit(s.net, x) && FreshAt(s.net, x)
    requires Agrees(s.net, Current(s.flow), c)
    ensures Agrees(Next(id, s, OnConn(x, a)).net, Current(s.flow), c) <==> !Disturbs(s, Now(OnConn(x, a)), c)
  {
    if a.RecordInitial? {
      RecordAgreesIff(s.net, x, s.net.PhaseOf(x).f, c);
    } else {
      ConnKeepsAgreement(id, s.net, s.flow.workMu.None?, x, a, Current(s.flow), c);
    }
  }

  lemma PutKeepsAgreement(n: Net, d: Sending, accept: bool, c: nat)
    requires d.targets != [] && SendFitAt(n, d, c) && SendAgrees(n, Some(d)) && Agrees(n, Some(d), c)
    ensures Agrees(PutFrame(n, d, accept), Some(AfterPut(d, accept)), c)
  {
    var n', d' := PutFrame(n, d, accept), AfterPut(d, accept);
    if accept && c == d.targets[0] {
      ViewAppend(n.ChanOf(c), Delta(d.item, d.resp));
    } else {
      assert n'.ChanOf(c) == n.ChanOf(c) && (c in d'.taken <==> c in d.taken);
    }
  }

  lemma FinishAgreesIff(id: NodeID, s: Entry, k: nat, c: nat)
    requires ChangeEnabled(id, s, k, Finish) && SendFitAt(s.net, s.flow.jobs[k].sending.value, c)
    requires Agrees(s.net, s.flow.jobs[k].sending, c)
    ensures Agrees(NextChange(id, s, k, Finish).net, None, c) <==> !Disturbs(s, Now(OnChange(k, Finish)), c)
  {
  }

  lemma ChangeAgreesIff(id: NodeID, s: Entry, k: nat, a: ChangeAct, c: nat)
    requires Fit(s) && ChangeEnabled(id, s, k, a)
    requires SendAgrees(s.net, Current(s.flow)) && Agrees(s.net, Current(s.flow), c)
    ensures var s' := NextChange(id, s, k, a);
            Agrees(s'.net, Current(s'.flow), c) <==> !Disturbs(s, Now(OnChange(k, a)), c)
  {
    ChangeKeepsLock(id, s, k, a);
    match a
    case Skip(w) =>
    case Defer(w) =>
    case Begin(w) =>
    case Put(accept) =>
      assert SendFitAt(s.net, s.flow.jobs[k].sending.value, c);
      PutIs(id, s, k, accept);
      PutKeepsAgreement(s.net, s.flow.jobs[k].sending.value, accept, c);
    case Finish =>
      assert SendFitAt(s.net, s.flow.jobs[k].sending.value, c);
      FinishAgreesIff(id, s, k, c);
  }

  // ----- Every step --------------------------------------------------------------------

  ghost predicate PeersOk(s: Entry)
  {
    Fit(s) && FlowClean(s.flow) && SendAgrees(s.net, Current(s.flow)) && forall c :: FreshAt(s.net, c)
  }

  /** One step keeps record and client in agreement iff it does not disturb it. */
  lemma NextAgreesIff(id: NodeID, s: Entry, a: Action, c: nat)
    requires PeersOk(s) && Enabled(id, s, a) && Agrees(s.net, Current(s.flow), c)
    ensures var s' := Next(id, s, a); Agrees(s'.net, Current(s'.flow), c) <==> !Disturbs(s, Now(a), c)
  {
    match a
    case OnConn(x, y) =>
      assert ConnFit(s.net, c) && ConnFit(s.net, x) && FreshAt(s.net, x);
      ConnAgreesIff(id, s, x, y, c);
    case OnFeed(x) =>
    case OnBundle(k, x) => BundleKeepsLock(s.flow, k, x);
    case OnChange(k, x) => ChangeAgreesIff(id, s, k, x, c);
  }

  lemma NextKeepsClean(id: NodeID, s: Entry, a: Action)
    requires FlowClean(s.flow) && Able(id, s, a) && CleanFeed(a)
    ensures FlowClean(Next(id, s, a).flow)
  {
    match a
    case OnConn(c, x) =>
    case OnFeed(x) => FeedKeepsClean(s.flow, x);
    case OnBundle(k, x) => BundleKeepsClean(s.flow, k, x);
    case OnChange(k, x) => ChangeKeepsClean(id, s, k, x);
  }

  lemma NextKeepsFresh(id: NodeID, s: Entry, a: Action, c: nat)
    requires FreshAt(s.net, c) && Able(id, s, a)
    ensures FreshAt(Next(id, s, a).net, c)
  {
    match a
    case OnConn(x, y) =>
      if y.GenerateInitial? { InitialStartsFresh(id, y.record, y.w); }
    case OnFeed(x) =>
    case OnBundle(k, x) =>
    case OnChange(k, x) =>
      match x
      case Skip(w) =>
      case Defer(w) =>
      case Begin(w) =>
      case Put(accept) =>
      case Finish =>
  }

  lemma BeginAgrees(id: NodeID, s: Entry, k: nat, w: Netmap)
    requires FlowClean(s.flow) && ChangeEnabled(id, s, k, Begin(w))
    ensures SendAgrees(s.net, NextChange(id, s, k, Begin(w)).flow.jobs[k].sending)
  {
    DeliverableAgrees(id, s.net.tracked, w, s.flow.jobs[k].todo[0].change);
  }

  lemma NextKeepsSendAgrees(id: NodeID, s: Entry, a: Action)
    requires LockOk(s.flow) && FlowClean(s.flow) && SendAgrees(s.net, Current(s.flow)) && Able(id, s, a)
    ensures SendAgrees(Next(id, s, a).net, Current(Next(id, s, a).flow))
  {
    match a
    case OnConn(x, y) =>
    case OnFeed(x) =>
    case OnBundle(k, x) => BundleKeepsLock(s.flow, k, x);
    case OnChange(k, x) =>
      ChangeKeepsLock(id, s, k, x);
      if x.Begin? { BeginAgrees(id, s, k, x.w); }
      if x.Put? { PutIs(id, s, k, x.accept); }
  }

  // ----- Whole histories ---------------------------------------------------------------

  predicate CleanRun(run: Run)
  {
    run.Then? ==> CleanRun(run.before) && (run.event.Now? ==> CleanFeed(run.event.a))
  }

  lemma {:induction false} AlwaysPeersOk(id: NodeID, run: Run)
    requires IsRun(id, run) && CleanRun(run)
    ensures PeersOk(run.Present())
  {
    AlwaysFit(id, run);
    if run.Then? {
      AlwaysPeersOk(id, run.before);
      var s := run.before.Present();
      match run.event
      case Now(a) =>
        NextKeepsClean(id, s, a);
        NextKeepsSendAgrees(id, s, a);
        forall c ensures FreshAt(Next(id, s, a).net, c) { assert FreshAt(s.net, c); NextKeepsFresh(id, s, a, c); }
      case Old(i, a) =>
      case Recreate(lost) =>
    }
  }

  predicate NeverDisturbed(run: Run, c: nat)
  {
    run.Then? ==> NeverDisturbed(run.before, c) && !Disturbs(run.before.Present(), run.event, c)
  }

  predicate AgreesNow(s: Entry, c: nat)
  {
    Watched(s.net, c) && Current(s.flow).None? ==> s.net.tracked == View(s.net.ChanOf(c))
  }

  /** Whenever no response was on its way, the record was what the client had built. */
  predicate AlwaysAgreed(run: Run, c: nat)
  {
    AgreesNow(run.Present(), c) && (run.Then? ==> AlwaysAgreed(run.before, c))
  }

  lemma {:induction false} UndisturbedAgrees(id: NodeID, run: Run, c: nat)
    requires IsRun(id, run) && CleanRun(run) && NeverDisturbed(run, c)
    ensures Agrees(run.Present().net, Current(run.Present().flow), c)
  {
    if run.Then? {
      UndisturbedAgrees(id, run.before, c);
      AlwaysPeersOk(id, run.before);
      if run.event.Now? { NextAgreesIff(id, run.before.Present(), run.event.a, c); }
    }
  }

  /** A disturbing step ends with no response on its way and the connection still in use. */
  lemma DisturbedDisagrees(id: NodeID, s: Entry, e: Event, c: nat)
    requires PeersOk(s) && e.Now? && Enabled(id, s, e.a) && Agrees(s.net, Current(s.flow), c) && Disturbs(s, e, c)
    ensures !AgreesNow(Next(id, s, e.a), c)
  {
    NextAgreesIff(id, s, e.a, c);
    if IsFinish(s, e) { ChangeKeepsLock(id, s, e.a.k, Finish); }
  }

  /** In every history with clean changes and any number of connections: record and client agree
      throughout iff no event disturbed them. */
  lemma {:induction false} AgreesIffUndisturbed(id: NodeID, run: Run, c: nat)
    requires IsRun(id, run) && CleanRun(run)
    ensures AlwaysAgreed(run, c) <==> NeverDisturbed(run, c)
  {
    if run.Then? {
      AgreesIffUndisturbed(id, run.before, c);
      if NeverDisturbed(run, c) {
        UndisturbedAgrees(id, run, c);
      } else if NeverDisturbed(run.before, c) {
        UndisturbedAgrees(id, run.before, c);
        AlwaysPeersOk(id, run.before);
        DisturbedDisagrees(id, run.before.Present(), run.event, c);
      }
    }
  }

  // ----- One connection at a time ------------------------------------------------------

  predicate SoloAct(s: Entry, a: Action) { a.OnConn? && a.conn.Register? ==> s.net.conns == [] }

  /** The entry registers a connection only when it has none. */
  predicate SoloRun(run: Run)
  {
    run.Then? ==> SoloRun(run.before) && (run.event.Now? ==> SoloAct(run.before.Present(), run.event.a))
  }

  /** At most one connection, the one being added if there is one. */
  ghost predicate SoloNet(n: Net)
  {
    |n.conns| <= 1 && forall c :: c in n.phase && Adding(n.phase[c]) ==> n.conns == [c]
  }

  /** Connections in use are included in the broadcast on its way. */
  ghost predicate Included(n: Net, d: Option<Sending>)
  {
    d.Some? ==> forall c :: Watched(n, c) ==> c in d.value.snapshot
  }

  ghost predicate Solo(s: Entry) { SoloNet(s.net) && Included(s.net, Current(s.flow)) }

  lemma WithoutOne(cs: seq<nat>, gone: set<nat>)
    requires |cs| <= 1
    ensures Without(cs, gone) == (if cs != [] && cs[0] in gone then [] else cs)
  {
    if cs != [] { assert cs[1..] == []; }
  }

  lemma ConnKeepsSoloNet(id: NodeID, n: Net, unlocked: bool, x: nat, a: ConnAct)
    requires SoloNet(n) && ConnEnabled(id, n, unlocked, x, a) && (a.Register? ==> n.conns == [])
    ensures SoloNet(NextConn(id, n, unlocked, x, a))
  {
    WithoutOne(n.conns, {x});
    match a
    case Register =>
    case GenerateInitial(w, record) =>
    case DeliverInitial =>
    case RecordInitial =>
    case OpenConn =>
    case AbortAdd =>
    case Disconnect =>
  }

  lemma ConnKeepsIncluded(id: NodeID, n: Net, unlocked: bool, x: nat, a: ConnAct, d: Option<Sending>)
    requires ConnEnabled(id, n, unlocked, x, a) && Included(n, d) && (a.RecordInitial? ==> d.None?)
    ensures Included(NextConn(id, n, unlocked, x, a), d)
  {
    var n' := NextConn(id, n, unlocked, x, a);
    if d.Some? {
      forall c | Watched(n', c) ensures c in d.value.snapshot { assert Watched(n, c); }
    }
  }

  lemma FinishKeepsSolo(id: NodeID, s: Entry, k: nat)
    requires NetFit(s.net) && SoloNet(s.net)
    requires ChangeEnabled(id, s, k, Finish) && SendFit(s.net, s.flow.jobs[k].sending)
    ensures SoloNet(NextChange(id, s, k, Finish).net)
  {
    var d := s.flow.jobs[k].sending.value;
    WithoutOne(s.net.conns, d.failed);
    forall c | c in s.net.conns && Adding(s.net.PhaseOf(c)) ensures c !in d.failed
    {
      assert ConnFit(s.net, c) && SendFitAt(s.net, d, c);
    }
  }

  lemma BeginKeepsSolo(id: NodeID, s: Entry, k: nat, w: Netmap)
    requires NetFit(s.net) && SoloNet(s.net) && ChangeEnabled(id, s, k, Begin(w))
    ensures Included(s.net, NextChange(id, s, k, Begin(w)).flow.jobs[k].sending)
  {
    assert s.net.ReadyConns()[0] in s.net.ReadyConns();
  }

  lemma ChangeKeepsSolo(id: NodeID, s: Entry, k: nat, a: ChangeAct)
    requires Fit(s) && Solo(s) && ChangeEnabled(id, s, k, a)
    ensures Solo(NextChange(id, s, k, a))
  {
    ChangeKeepsLock(id, s, k, a);
    match a
    case Skip(w) =>
    case Defer(w) =>
    case Begin(w) => BeginKeepsSolo(id, s, k, w);
    case Put(accept) => PutIs(id, s, k, accept);
    case Finish => FinishKeepsSolo(id, s, k);
  }

  lemma NextKeepsSolo(id: NodeID, s: Entry, a: Action)
    requires Fit(s) && Solo(s) && Enabled(id, s, a) && SoloAct(s, a)
    ensures Solo(Next(id, s, a))
  {
    match a
    case OnConn(x, y) =>
      ConnKeepsSoloNet(id, s.net, s.flow.workMu.None?, x, y);
      ConnKeepsIncluded(id, s.net, s.flow.workMu.None?, x, y, Current(s.flow));
    case OnFeed(x) =>
    case OnBundle(k, x) => BundleKeepsLock(s.flow, k, x);
    case OnChange(k, x) => ChangeKeepsSolo(id, s, k, x);
  }

  lemma {:induction false} AlwaysSolo(id: NodeID, run: Run)
    requires IsRun(id, run) && SoloRun(run)
    ensures Solo(run.Present())
  {
    if run.Then? {
      AlwaysSolo(id, run.before);
      AlwaysFit(id, run.before);
      if run.event.Now? { NextKeepsSolo(id, run.before.Present(), run.event.a); }
    }
  }

  lemma SoloNotDisturbed(s: Entry, e: Event, c: nat)
    requires LockOk(s.flow) && Solo(s)
    ensures !Disturbs(s, e, c)
  {
    if IsFinish(s, e) { assert LockOkAt(s.flow, e.a.k); }
  }

  lemma {:induction false} SoloNeverDisturbed(id: NodeID, run: Run, c: nat)
    requires IsRun(id, run) && SoloRun(run)
    ensures NeverDisturbed(run, c)
  {
    if run.Then? {
      SoloNeverDisturbed(id, run.before, c);
      AlwaysSolo(id, run.before);
      AlwaysFit(id, run.before);
      SoloNotDisturbed(run.before.Present(), run.event, c);
    }
  }

  lemma SoloBegin(id: NodeID, s: Entry, k: nat, w: Netmap, c: nat)
    requires Fit(s) && Solo(s) && ChangeEnabled(id, s, k, Begin(w))
    ensures !Adding(s.net.PhaseOf(c))
  {
    assert ConnFit(s.net, c);
    assert s.net.ReadyConns()[0] in s.net.ReadyConns();
  }

  /** With one connection at a time no broadcast ever begins while one is being added, so none is missed. */
  lemma {:induction false} SoloMissesNothing(id: NodeID, run: Run, c: nat)
    requires IsRun(id, run) && SoloRun(run)
    ensures TallyOf(run, c).begun == 0
  {
    if run.Then? {
      SoloMissesNothing(id, run.before, c);
      AlwaysSolo(id, run.before);
      AlwaysFit(id, run.before);
      if IsBegin(run.event) { SoloBegin(id, run.before.Present(), run.event.a.k, run.event.a.change.w, c); }
    }
  }

  /** With one connection at a time the record always matches: whenever no response is on its way it is
      what the client in use has built from everything on its channel. */
  lemma RecordMatchesClient(id: NodeID, run: Run, c: nat)
    requires IsRun(id, run) && CleanRun(run) && SoloRun(run)
    requires Watched(run.Present().net, c) && Current(run.Present().flow).None?
    ensures run.Present().net.tracked == View(run.Present().net.ChanOf(c))
  {
    SoloNeverDisturbed(id, run, c);
    UndisturbedAgrees(id, run, c);
  }

  /** The worker's next change, delivered to the node's only connection. */
  ghost function DeliveredAlone(id: NodeID, s: Entry, k: nat, w: Netmap): (s': Entry)
    requires ChangeEnabled(id, s, k, Begin(w)) && |s.net.conns| == 1
    ensures var resp, c := NextOutcome(id, s, k, w).resp, s.net.conns[0];
            && s'.net.tracked == Track(s.net.tracked, resp)
            && s'.net.ChanOf(c) == s.net.ChanOf(c) + [Delta(s.flow.jobs[k].todo[0], resp)]
  {
    var s1 := NextChange(id, s, k, Begin(w));
    assert s.net.ReadyConns()[0] in s.net.ReadyConns();
    WithoutOne(s.net.conns, (set c | c in s.net.conns && c !in s.net.ready));
    var s2 := NextChange(id, s1, k, Put(true));
    NextChange(id, s2, k, Finish)
  }

  lemma AtChangeFacts(id: NodeID, s: Entry, c: nat, k: nat, w: Netmap)
    requires PeersOk(s) && s.net.conns == [c] && ChangeEnabled(id, s, k, Begin(w))
    ensures Current(s.flow).None? && Deliverable(s.flow.jobs[k].todo[0].change) && Watched(s.net, c)
  {
    assert LockOkAt(s.flow, k) && ConnFit(s.net, c);
    assert s.net.ReadyConns()[0] in s.net.ReadyConns();
  }

  /** Once a recompute has been delivered the client knows every peer that could be rendered, keeps
      those it knew that are still visible, and has lost every other. */
  lemma RecomputeReachesClient(id: NodeID, run: Run, c: nat, k: nat, w: Netmap)
    requires IsRun(id, run) && CleanRun(run) && SoloRun(run) && run.Present().net.conns == [c]
    requires ChangeEnabled(id, run.Present(), k, Begin(w)) && run.Present().flow.jobs[k].todo[0].change.runtime
    ensures var s, s' := run.Present(), DeliveredAlone(id, run.Present(), k, w);
            && View(s'.net.ChanOf(c)) == (View(s.net.ChanOf(c)) * w.visible) + w.Rendered()
            && s'.net.tracked == View(s'.net.ChanOf(c))
  {
    AlwaysPeersOk(id, run);
    var s := run.Present();
    AtChangeFacts(id, s, c, k, w);
    RecordMatchesClient(id, run, c);
    var x := s.flow.jobs[k].todo[0];
    RecomputeConverges(id, s.net.tracked, w, x.change);
    DeliverableAgrees(id, s.net.tracked, w, x.change);
    ViewAppend(s.net.ChanOf(c), Delta(x, NextOutcome(id, s, k, w).resp));
  }
}
