/**
 Whole histories of one entry: accepted changes are conserved, and delivered in acceptance order
 as long as no connection opens in the middle of a bundle that has deferred changes.
 */
module DeliveryHistory {
  import opened Basics
  import opened Delivery
  import opened DeliveryOrder

  // ----- Conservation ------------------------------------------------------------------

  lemma NextKeepsAccount(id: NodeID, s: Entry, a: Action)
    requires OneBundle(s.flow) && Accounted(s.flow) && Able(id, s, a)
    ensures Accounted(Next(id, s, a).flow)
  {
    match a
    case OnConn(c, x) =>
    case OnFeed(x) => FeedKeepsAccount(s.flow, x);
    case OnBundle(k, x) => BundleKeepsBoth(s.flow, k, x);
    case OnChange(k, x) => ChangeKeepsAccount(id, s, k, x);
  }

  /** Every change the present entry accepted is delivered once, still waiting, or explicitly given up;
      none is duplicated. */
  lemma {:induction false} ChangesConserved(id: NodeID, run: Run)
    requires IsRun(id, run) && CleanStarts(run)
    ensures Accounted(run.Present().flow)
  {
    if run.Then? {
      ChangesConserved(id, run.before);
      AtMostOneBundle(id, run.before);
      if run.event.Now? { NextKeepsAccount(id, run.before.Present(), run.event.a); }
    }
  }

  // ----- Order -------------------------------------------------------------------------

  predicate Overtaking(s: Entry, a: Action)
  {
    a.OnChange? && a.change.Finish? && IsSending(s.flow, a.k) && Overtakes(s.flow, a.k)
  }

  /** One step keeps the changes in acceptance order iff it does not overtake. */
  lemma NextKeepsOrderIff(id: NodeID, s: Entry, a: Action)
    requires OneBundle(s.flow) && Ordered(s.flow) && Able(id, s, a)
    ensures Ordered(Next(id, s, a).flow) <==> !Overtaking(s, a)
  {
    match a
    case OnConn(c, x) =>
    case OnFeed(x) => FeedKeepsOrder(s.flow, x);
    case OnBundle(k, x) => BundleKeepsBoth(s.flow, k, x);
    case OnChange(k, x) =>
      if x.Finish? { FinishKeepsOrderIff(id, s, k); } else { ChangeKeepsOrder(id, s, k, x); }
  }

  predicate NeverOvertakes(run: Run)
  {
    run.Then? ==> NeverOvertakes(run.before) && (run.event.Now? ==> !Overtaking(run.before.Present(), run.event.a))
  }

  ghost predicate AlwaysOrdered(run: Run)
  {
    Ordered(run.Present().flow) && (run.Then? ==> AlwaysOrdered(run.before))
  }

  /** In every history: changes are at all times in acceptance order iff no step overtakes. */
  lemma {:induction false} AlwaysOrderedIff(id: NodeID, run: Run)
    requires IsRun(id, run) && CleanStarts(run)
    ensures AlwaysOrdered(run) <==> NeverOvertakes(run)
  {
    if run.Then? {
      AlwaysOrderedIff(id, run.before);
      AtMostOneBundle(id, run.before);
      if AlwaysOrdered(run.before) && run.event.Now? {
        NextKeepsOrderIff(id, run.before.Present(), run.event.a);
      }
    }
  }

  /** No registered connection takes broadcasts. */
  predicate Silent(n: Net) { forall c :: c in n.conns ==> c !in n.ready }

  predicate ReadyKnown(n: Net) { n.ready <= n.phase.Keys }

  /** A worker that has deferred a change has nobody to send to. */
  ghost predicate DeferredMeansSilent(s: Entry)
  {
    forall k :: k in s.flow.jobs && s.flow.jobs[k].retry != [] ==> Silent(s.net) && s.flow.jobs[k].sending.None?
  }

  predicate NothingDeferred(f: Flow) { forall k :: k in f.jobs ==> f.jobs[k].retry == [] }

  predicate QuietAct(s: Entry, a: Action) { a.OnConn? && a.conn.OpenConn? ==> NothingDeferred(s.flow) }

  /** No connection is opened while a worker holds a deferred change of the entry. */
  predicate Quiet(run: Run)
  {
    run.Then? ==> Quiet(run.before) && (run.event.Now? ==> QuietAct(run.before.Present(), run.event.a))
  }

  lemma ConnKeepsSilent(id: NodeID, n: Net, unlocked: bool, c: nat, a: ConnAct)
    requires ReadyKnown(n) && ConnEnabled(id, n, unlocked, c, a)
    ensures ReadyKnown(NextConn(id, n, unlocked, c, a))
    ensures Silent(n) && !a.OpenConn? ==> Silent(NextConn(id, n, unlocked, c, a))
  {
    match a
    case Register =>
    case GenerateInitial(w, record) =>
    case DeliverInitial =>
    case RecordInitial =>
    case OpenConn =>
    case AbortAdd =>
    case Disconnect =>
  }

  lemma ChangeKeepsDeferred(id: NodeID, s: Entry, k: nat, a: ChangeAct)
    requires OneBundle(s.flow) && ReadyKnown(s.net) && DeferredMeansSilent(s) && ChangeEnabled(id, s, k, a)
    ensures var s' := NextChange(id, s, k, a); ReadyKnown(s'.net) && DeferredMeansSilent(s')
  {
    var s' := NextChange(id, s, k, a);
    assert s.flow.jobs.Keys == {k};
    match a
    case Skip(w) =>
    case Defer(w) => assert forall c :: c in s.net.conns && c in s.net.ready ==> c in s.net.ReadyConns();
    case Begin(w) =>
      var c := s.net.ReadyConns()[0];
      assert c in s.net.ReadyConns();
    case Put(accept) =>
    case Finish =>
  }

  lemma BundleKeepsDeferred(s: Entry, k: nat, a: BundleAct)
    requires DeferredMeansSilent(s) && BundleEnabled(s.flow, k, a)
    ensures DeferredMeansSilent(s.(flow := NextBundle(s.flow, k, a)))
  {
    match a
    case Take =>
    case Lock =>
    case Unlock =>
    case Requeue =>
    case Clear =>
  }

  lemma NextKeepsDeferred(id: NodeID, s: Entry, a: Action)
    requires OneBundle(s.flow) && ReadyKnown(s.net) && DeferredMeansSilent(s)
    requires Able(id, s, a)
    requires QuietAct(s, a)
    ensures var s' := Next(id, s, a); ReadyKnown(s'.net) && DeferredMeansSilent(s')
  {
    match a
    case OnConn(c, x) => ConnKeepsSilent(id, s.net, s.flow.workMu.None?, c, x);
    case OnFeed(x) =>
    case OnBundle(k, x) => BundleKeepsDeferred(s, k, x);
    case OnChange(k, x) => ChangeKeepsDeferred(id, s, k, x);
  }

  lemma {:induction false} QuietInvariant(id: NodeID, run: Run)
    requires IsRun(id, run) && CleanStarts(run) && Quiet(run)
    ensures ReadyKnown(run.Present().net) && DeferredMeansSilent(run.Present())
  {
    if run.Then? {
      QuietInvariant(id, run.before);
      AtMostOneBundle(id, run.before);
      if run.event.Now? { NextKeepsDeferred(id, run.before.Present(), run.event.a); }
    }
  }

  lemma QuietNeverOvertakes(s: Entry, a: Action)
    requires DeferredMeansSilent(s)
    ensures !Overtaking(s, a)
  {
  }

  lemma {:induction false} QuietRunNeverOvertakes(id: NodeID, run: Run)
    requires IsRun(id, run) && CleanStarts(run) && Quiet(run)
    ensures NeverOvertakes(run)
  {
    if run.Then? {
      QuietRunNeverOvertakes(id, run.before);
      QuietInvariant(id, run.before);
      if run.event.Now? { QuietNeverOvertakes(run.before.Present(), run.event.a); }
    }
  }

  /** In a quiet history changes are delivered in the order they were accepted. */
  lemma DeliveredInOrder(id: NodeID, run: Run)
    requires IsRun(id, run) && CleanStarts(run) && Quiet(run)
    ensures AlwaysOrdered(run)
  {
    QuietRunNeverOvertakes(id, run);
    AlwaysOrderedIff(id, run);
  }
}
