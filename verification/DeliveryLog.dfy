/**
 What has become of an entry, in terms of the events of its history: which changes it accepted, which
 connections it lists, what is on their channels, and why a change was given up.
 */
module DeliveryLog {
  import opened Basics
  import opened Changes
  import opened PeerTracking
  import opened Delivery
  import opened DeliveryOrder
  import opened DeliveryConnections
  import FirstFrame

  // ----- What was submitted ------------------------------------------------------------

  /** The changes submitted to the present entry since it was created, in order. */
  function SubmittedTo(run: Run): seq<Change>
  {
    if run.Fresh? || run.event.Recreate? then []
    else if run.event.Now? && run.event.a.OnFeed? then
      SubmittedTo(run.before) + match run.event.a.feed
                                case Submit(cs) => cs
                                case SubmitFull => [FULL_UPDATE]
                                case Tick => []
    else SubmittedTo(run.before)
  }

  lemma AcceptedGrows(accepted: seq<Item>, cs: seq<Change>, more: seq<Change>)
    requires ChangesOf(accepted) == cs && forall i :: 0 <= i < |accepted| ==> accepted[i].n == i
    ensures var all := accepted + Number(|accepted|, more);
            ChangesOf(all) == cs + more && forall i :: 0 <= i < |all| ==> all[i].n == i
  {
  }

  lemma StepAccepts(id: NodeID, s: Entry, a: Action)
    requires Able(id, s, a)
    ensures var accepted, accepted' := s.flow.accepted, Next(id, s, a).flow.accepted;
            if a.OnFeed? && a.feed.Submit? then accepted' == accepted + Number(|accepted|, a.feed.changes)
            else if a.OnFeed? && a.feed.SubmitFull? then accepted' == accepted + Number(|accepted|, [FULL_UPDATE])
            else accepted' == accepted
  {
    match a
    case OnConn(c, x) =>
    case OnFeed(x) => assert Number(|s.flow.accepted|, [FULL_UPDATE]) == [Item(|s.flow.accepted|, FULL_UPDATE)];
    case OnBundle(k, x) =>
    case OnChange(k, x) =>
  }

  /** In every history: an entry has accepted exactly what was submitted to it, numbered in order. */
  lemma {:induction false} AcceptedExactly(id: NodeID, run: Run)
    requires IsRun(id, run)
    ensures var accepted := run.Present().flow.accepted;
            ChangesOf(accepted) == SubmittedTo(run) && forall i :: 0 <= i < |accepted| ==> accepted[i].n == i
  {
    if run.Then? {
      AcceptedExactly(id, run.before);
      if run.event.Now? {
        var s, a := run.before.Present(), run.event.a;
        StepAccepts(id, s, a);
        if a.OnFeed? && a.feed.Submit? { AcceptedGrows(s.flow.accepted, SubmittedTo(run.before), a.feed.changes); }
        if a.OnFeed? && a.feed.SubmitFull? { AcceptedGrows(s.flow.accepted, SubmittedTo(run.before), [FULL_UPDATE]); }
      }
    }
  }

  /** The node's bundles in the work channel: one for each tick, holding what was pending without repeated
      recomputes, taken in the order they were queued. A new entry finds the last of them. */
  function InChannel(run: Run): seq<seq<Item>>
  {
    if run.Fresh? then []
    else
      var before := InChannel(run.before);
      match run.event
      case Now(OnFeed(Tick)) => before + [DedupeItems(run.before.Present().flow.pending)]
      case Now(OnBundle(_, Take)) => if before != [] then before[1..] else []
      case Recreate(lost) => if lost <= |before| then before[lost..] else []
      case _ => before
  }

  lemma StepQueues(id: NodeID, s: Entry, a: Action)
    requires Able(id, s, a)
    ensures Next(id, s, a).flow.queue ==
            if a == OnFeed(Tick) then s.flow.queue + [DedupeItems(s.flow.pending)]
            else if a.OnBundle? && a.bundle.Take? then s.flow.queue[1..]
            else s.flow.queue
    ensures a.OnBundle? && a.bundle.Take? ==> Next(id, s, a).flow.jobs[a.k].todo == s.flow.queue[0]
  {
    match a
    case OnConn(c, x) =>
    case OnFeed(x) =>
    case OnBundle(k, x) =>
    case OnChange(k, x) =>
  }

  /** In every history: bundles are taken in the order the ticker queued them. */
  lemma {:induction false} ChannelExact(id: NodeID, run: Run)
    requires IsRun(id, run)
    ensures run.Present().flow.queue == InChannel(run)
  {
    if run.Then? {
      ChannelExact(id, run.before);
      if run.event.Now? { StepQueues(id, run.before.Present(), run.event.a); }
    }
  }

  // ----- Which connections there are ---------------------------------------------------

  /** The event takes the connection off the list: its addition is aborted, it disconnects, or it has failed to take
      a response whose broadcast ends. */
  predicate Unlists(s: Entry, a: Action, c: nat)
  {
    match a
    case OnConn(x, y) => x == c && (y.AbortAdd? || y.Disconnect?)
    case OnChange(k, y) => y.Finish? && IsSending(s.flow, k) && c in s.flow.jobs[k].sending.value.failed
    case _ => false
  }

  predicate Listed(run: Run, c: nat)
  {
    run.Then? && !run.event.Recreate? &&
    if run.event.Old? then Listed(run.before, c)
    else run.event.a == OnConn(c, Register)
         || (Listed(run.before, c) && !Unlists(run.before.Present(), run.event.a, c))
  }

  predicate Opened(run: Run, c: nat)
  {
    run.Then? && !run.event.Recreate? && (run.event == Now(OnConn(c, OpenConn)) || Opened(run.before, c))
  }

  lemma StepLists(id: NodeID, s: Entry, a: Action, c: nat)
    requires Able(id, s, a)
    ensures var n' := Next(id, s, a).net;
            && (c in n'.conns <==> a == OnConn(c, Register) || (c in s.net.conns && !Unlists(s, a, c)))
            && (c in n'.ready <==> a == OnConn(c, OpenConn) || c in s.net.ready)
  {
    match a
    case OnConn(x, y) =>
    case OnFeed(x) =>
    case OnBundle(k, x) =>
    case OnChange(k, x) =>
  }

  /** In every history: the entry lists exactly the connections registered and not aborted, disconnected or failed
      since, and those opened take broadcasts. */
  lemma {:induction false} ListedIff(id: NodeID, run: Run, c: nat)
    requires IsRun(id, run)
    ensures c in run.Present().net.conns <==> Listed(run, c)
    ensures c in run.Present().net.ready <==> Opened(run, c)
  {
    if run.Then? {
      ListedIff(id, run.before, c);
      if run.event.Now? { StepLists(id, run.before.Present(), run.event.a, c); }
    }
  }

  // ----- What was delivered ------------------------------------------------------------

  predicate On(n: Net, x: Item, c: nat) { x in Deltas(n.ChanOf(c)) }

  /** Some connection has got the change. */
  ghost predicate Received(n: Net, x: Item) { exists c :: On(n, x, c) }

  predicate BeingTaken(d: Option<Sending>, x: Item) { d.Some? && d.value.item == x && d.value.taken != {} }

  ghost predicate SentOk(n: Net, d: Option<Sending>, sent: seq<Item>, x: Item)
  {
    Received(n, x) <==> x in sent || BeingTaken(d, x)
  }

  lemma ConnKeepsReceived(id: NodeID, n: Net, unlocked: bool, c: nat, a: ConnAct, x: Item)
    requires FirstFrame.ChannelOk(n, c) && ConnEnabled(id, n, unlocked, c, a)
    ensures Received(NextConn(id, n, unlocked, c, a), x) <==> Received(n, x)
  {
    var n' := NextConn(id, n, unlocked, c, a);
    forall y ensures On(n', x, y) <==> On(n, x, y)
    {
      if a.DeliverInitial? && y == c { DeltasAppend(n.ChanOf(c), Initial(n.PhaseOf(c).f)); }
    }
  }

  lemma PutReceived(n: Net, d: Sending, accept: bool, x: Item)
    requires d.targets != []
    ensures Received(PutFrame(n, d, accept), x) <==> Received(n, x) || (accept && x == d.item)
  {
    var n', t := PutFrame(n, d, accept), d.targets[0];
    DeltasAppend(n.ChanOf(t), Delta(d.item, d.resp));
    forall y ensures On(n', x, y) <==> On(n, x, y) || (accept && y == t && x == d.item) { }
    if accept && x == d.item { assert On(n', x, t); }
  }

  lemma ChangeKeepsSent(id: NodeID, s: Entry, k: nat, a: ChangeAct, x: Item)
    requires Fit(s) && ChangeEnabled(id, s, k, a) && SentOk(s.net, Current(s.flow), s.flow.sent, x)
    ensures var s' := NextChange(id, s, k, a); SentOk(s'.net, Current(s'.flow), s'.flow.sent, x)
  {
    ChangeKeepsLock(id, s, k, a);
    match a
    case Skip(w) =>
    case Defer(w) =>
    case Begin(w) =>
    case Put(accept) =>
      PutIs(id, s, k, accept);
      PutReceived(s.net, s.flow.jobs[k].sending.value, accept, x);
    case Finish =>
      assert forall y :: On(NextChange(id, s, k, Finish).net, x, y) <==> On(s.net, x, y);
  }

  lemma NextKeepsSent(id: NodeID, s: Entry, a: Action, x: Item)
    requires Fit(s) && FirstFrame.ChannelsOk(s.net) && Able(id, s, a)
    requires SentOk(s.net, Current(s.flow), s.flow.sent, x)
    ensures var s' := Next(id, s, a); SentOk(s'.net, Current(s'.flow), s'.flow.sent, x)
  {
    match a
    case OnConn(c, y) => ConnKeepsReceived(id, s.net, s.flow.workMu.None?, c, y, x);
    case OnFeed(y) => FeedKeepsLock(s.flow, y);
    case OnBundle(k, y) => BundleKeepsLock(s.flow, k, y);
    case OnChange(k, y) => ChangeKeepsSent(id, s, k, y, x);
  }

  lemma StartSent(x: Item, queue: seq<seq<Item>>)
    ensures SentOk(START.net, Current(START.flow.(queue := queue)), [], x)
  {
    assert forall c :: !On(START.net, x, c);
  }

  /** In every history, whenever no response is on its way: a change counts as delivered iff some connection has it
      on its channel. */
  lemma {:induction false} SentIffReceived(id: NodeID, run: Run, x: Item)
    requires IsRun(id, run)
    ensures var s := run.Present(); SentOk(s.net, Current(s.flow), s.flow.sent, x)
  {
    if run.Fresh? || run.event.Recreate? {
      StartSent(x, run.Present().flow.queue);
    } else {
      SentIffReceived(id, run.before, x);
      AlwaysFit(id, run.before);
      FirstFrame.FirstFrameSafety(id, run.before);
      if run.event.Now? { NextKeepsSent(id, run.before.Present(), run.event.a, x); }
    }
  }

  // ----- What was given up -------------------------------------------------------------

  /** What a worker may do with its next change: pass it over iff there is nothing to send or nobody to send it to;
      put it aside iff there are connections but none is ready; send it iff one is. */
  lemma WorkerChoice(id: NodeID, s: Entry, k: nat, w: Netmap)
    requires AtChange(s.flow, k)
    ensures var some := NextOutcome(id, s, k, w).Respond?;
            && (ChangeEnabled(id, s, k, Skip(w)) <==> !some || s.net.conns == [])
            && (ChangeEnabled(id, s, k, Defer(w)) <==>
                  some && s.net.conns != [] && forall c :: c in s.net.conns ==> c !in s.net.ready)
            && (ChangeEnabled(id, s, k, Begin(w)) <==> some && exists c :: c in s.net.conns && c in s.net.ready)
  {
    var ready := s.net.ReadyConns();
    if ready != [] { assert ready[0] in ready; }
    if c :| c in s.net.conns && c in s.net.ready { assert c in ready; }
  }

  /** A broadcast policy change after another one. */
  ghost predicate Repeated(items: seq<Item>, x: Item)
  {
    exists i, j :: 0 <= i < j < |items| && items[j] == x
                   && items[i].change.IsBroadcastPolicyChange() && x.change.IsBroadcastPolicyChange()
  }

  /** The step gives the change up: a full update replaces it; a tick coalesces it with an earlier one; there is
      nothing to send for it, or nobody to send it to; or nobody took it. */
  ghost predicate GivesUp(id: NodeID, s: Entry, a: Action, x: Item)
  {
    match a
    case OnFeed(SubmitFull) => x in s.flow.pending
    case OnFeed(Tick) => Repeated(s.flow.pending, x)
    case OnChange(k, Skip(w)) =>
      AtChange(s.flow, k) && x == s.flow.jobs[k].todo[0] && (s.net.conns == [] || !NextOutcome(id, s, k, w).Respond?)
    case OnChange(k, Finish) =>
      IsSending(s.flow, k) && x == s.flow.jobs[k].sending.value.item && s.flow.jobs[k].sending.value.taken == {}
    case _ => false
  }

  /** Coalescing drops exactly the repeated ones. */
  lemma {:induction false} CoalescedIff(items: seq<Item>, x: Item)
    ensures multiset(DedupeItems(items))[x] < multiset(items)[x] <==> Repeated(items, x)
    ensures multiset(DedupeItems(items))[x] <= multiset(items)[x]
  {
    if items == [] {
    } else {
      var init, last := items[..|items| - 1], items[|items| - 1];
      CoalescedIff(init, x);
      assert items == init + [last];
      RepeatedStep(init, last, x);
    }
  }

  lemma RepeatedStep(init: seq<Item>, last: Item, x: Item)
    ensures Repeated(init + [last], x) <==>
            Repeated(init, x) || (last == x && last.change.IsBroadcastPolicyChange() && SeenPolicyItem(init))
  {
    var items := init + [last];
    if Repeated(init, x) {
      var i, j :| 0 <= i < j < |init| && init[j] == x
                  && init[i].change.IsBroadcastPolicyChange() && x.change.IsBroadcastPolicyChange();
      assert items[i] == init[i] && items[j] == x;
    }
    if last == x && last.change.IsBroadcastPolicyChange() && SeenPolicyItem(init) {
      var i :| 0 <= i < |init| && init[i].change.IsBroadcastPolicyChange();
      assert items[i] == init[i] && items[|init|] == x;
    }
  }

  lemma FeedGivesUp(id: NodeID, s: Entry, a: FeedAct, x: Item)
    requires FeedEnabled(s.flow, a)
    ensures x in NextFeed(s.flow, a).dropped <==> x in s.flow.dropped || GivesUp(id, s, OnFeed(a), x)
  {
    assert x in s.flow.pending <==> x in multiset(s.flow.pending);
    match a
    case Submit(cs) =>
    case SubmitFull =>
    case Tick => CoalescedIff(s.flow.pending, x);
  }

  lemma ChangeGivesUp(id: NodeID, s: Entry, k: nat, a: ChangeAct, x: Item)
    requires ChangeEnabled(id, s, k, a)
    ensures x in NextChange(id, s, k, a).flow.dropped <==> x in s.flow.dropped || GivesUp(id, s, OnChange(k, a), x)
  {
    match a
    case Skip(w) =>
    case Defer(w) =>
    case Begin(w) =>
    case Put(accept) =>
    case Finish =>
  }

  lemma StepGivesUp(id: NodeID, s: Entry, a: Action, x: Item)
    requires Able(id, s, a)
    ensures x in Next(id, s, a).flow.dropped <==> x in s.flow.dropped || GivesUp(id, s, a, x)
  {
    match a
    case OnConn(c, y) =>
    case OnFeed(y) => FeedGivesUp(id, s, y, x);
    case OnBundle(k, y) =>
    case OnChange(k, y) => ChangeGivesUp(id, s, k, y, x);
  }

  ghost predicate GivenUp(id: NodeID, run: Run, x: Item)
  {
    run.Then? && !run.event.Recreate? &&
    (GivenUp(id, run.before, x) || (run.event.Now? && GivesUp(id, run.before.Present(), run.event.a, x)))
  }

  /** In every history: a change was dropped iff there was such a reason. */
  lemma {:induction false} GivenUpIff(id: NodeID, run: Run, x: Item)
    requires IsRun(id, run)
    ensures x in run.Present().flow.dropped <==> GivenUp(id, run, x)
  {
    if run.Then? {
      GivenUpIff(id, run.before, x);
      if run.event.Now? { StepGivesUp(id, run.before.Present(), run.event.a, x); }
    }
  }
}
