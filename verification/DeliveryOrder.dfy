/**
 Bundle discipline: how many bundles of one node exist at a time, that no accepted change is
 lost silently, and in which order changes are delivered.
 */
module DeliveryOrder {
  import opened Basics
  import opened Changes
  import opened Delivery

  // ----- The in-flight flag ------------------------------------------------------------

  predicate JobOk(f: Flow, k: nat)
    requires k in f.jobs
  {
    var j := f.jobs[k];
    match j.stage
    case Waiting => j.retry == [] && j.sending.None?
    case Locked => f.workMu == Some(k)
    case Unlocked => j.todo == [] && j.sending.None?
    case Requeued => j.todo == [] && j.sending.None? && j.retry == []
  }

  /** The in-flight flag is set exactly while one bundle is queued or being processed, and then there
      is only that one. */
  ghost predicate OneBundle(f: Flow)
  {
    && (if f.inFlight then (|f.queue| == 1 && f.jobs == map[]) || (f.queue == [] && exists k :: f.jobs.Keys == {k})
        else f.queue == [] && f.jobs == map[])
    && (forall k :: k in f.jobs ==> JobOk(f, k))
    && (f.workMu.Some? ==> f.workMu.value in f.jobs && f.jobs[f.workMu.value].stage == Locked)
  }

  lemma BundleKeepsOne(f: Flow, k: nat, a: BundleAct)
    requires OneBundle(f) && BundleEnabled(f, k, a)
    ensures OneBundle(NextBundle(f, k, a))
  {
    var f' := NextBundle(f, k, a);
    match a
    case Take => assert f'.jobs.Keys == {k};
    case Lock => assert f'.jobs.Keys == f.jobs.Keys;
    case Unlock => assert f'.jobs.Keys == f.jobs.Keys;
    case Requeue => assert f'.jobs.Keys == f.jobs.Keys;
    case Clear =>
      assert f.jobs.Keys == {k};
      assert f'.jobs == map[];
  }

  lemma ChangeKeepsOne(id: NodeID, s: Entry, k: nat, a: ChangeAct)
    requires OneBundle(s.flow) && ChangeEnabled(id, s, k, a)
    ensures OneBundle(NextChange(id, s, k, a).flow)
  {
    assert NextChange(id, s, k, a).flow.jobs.Keys == s.flow.jobs.Keys;
    match a
    case Skip(w) =>
    case Defer(w) =>
    case Begin(w) =>
    case Put(accept) =>
    case Finish =>
  }

  lemma NextKeepsOne(id: NodeID, s: Entry, a: Action)
    requires OneBundle(s.flow) && Able(id, s, a)
    ensures OneBundle(Next(id, s, a).flow)
  {
    match a
    case OnConn(c, x) =>
    case OnFeed(x) =>
    case OnBundle(k, x) => BundleKeepsOne(s.flow, k, x);
    case OnChange(k, x) => ChangeKeepsOne(id, s, k, x);
  }

  /** Every new entry found no bundle of its predecessors in the work channel. */
  predicate CleanStart(w: World, e: Event) { e.Recreate? ==> e.lost == |w.now.flow.queue| }

  predicate CleanStarts(run: Run)
  {
    run.Then? ==> CleanStarts(run.before) && CleanStart(run.before.Last(), run.event)
  }

  /** One event keeps the flag in step with the bundles iff it is not a creation that inherits one. */
  lemma EventKeepsOneIff(id: NodeID, w: World, e: Event)
    requires OneBundle(w.now.flow) && Happens(id, w, e)
    ensures OneBundle(After(id, w, e).now.flow) <==> CleanStart(w, e)
  {
    match e
    case Now(a) => NextKeepsOne(id, w.now, a);
    case Old(i, a) =>
    case Recreate(lost) =>
  }

  ghost predicate AlwaysOne(run: Run) { OneBundle(run.Present().flow) && (run.Then? ==> AlwaysOne(run.before)) }

  /** In every history: the in-flight flag is at all times set exactly while one bundle is queued or being
      processed, and there is no other, iff no entry was created while a bundle of a deleted one was queued. */
  lemma {:induction false} AtMostOneBundle(id: NodeID, run: Run)
    requires IsRun(id, run)
    ensures AlwaysOne(run) <==> CleanStarts(run)
  {
    if run.Then? {
      AtMostOneBundle(id, run.before);
      if AlwaysOne(run.before) { EventKeepsOneIff(id, run.before.Last(), run.event); }
    }
  }

  // ----- The number of bundles ---------------------------------------------------------

  /** The bundles of the entry's node that are queued or being processed. */
  function Bundles(f: Flow): nat { |f.queue| + |f.jobs| }

  lemma SetJobCount(m: map<nat, Job>, k: nat, j: Job)
    ensures |m[k := j]| == if k in m then |m| else |m| + 1
  {
    if k in m { assert m[k := j].Keys == m.Keys; } else { assert m[k := j].Keys == m.Keys + {k}; }
  }

  lemma BundleCount(f: Flow, k: nat, a: BundleAct)
    requires BundleEnabled(f, k, a)
    ensures Bundles(NextBundle(f, k, a)) == if a.Clear? then Bundles(f) - 1 else Bundles(f)
  {
    match a
    case Take => SetJobCount(f.jobs, k, Job(Waiting, f.queue[0], [], None));
    case Lock => SetJobCount(f.jobs, k, f.jobs[k].(stage := Locked));
    case Unlock => SetJobCount(f.jobs, k, f.jobs[k].(stage := Unlocked));
    case Requeue => SetJobCount(f.jobs, k, f.jobs[k].(stage := Requeued, retry := []));
    case Clear => assert (f.jobs - {k}).Keys == f.jobs.Keys - {k};
  }

  lemma ChangeCount(id: NodeID, s: Entry, k: nat, a: ChangeAct)
    requires ChangeEnabled(id, s, k, a)
    ensures Bundles(NextChange(id, s, k, a).flow) == Bundles(s.flow)
  {
    assert NextChange(id, s, k, a).flow.jobs.Keys == s.flow.jobs.Keys;
  }

  /** A tick adds a bundle, a worker that is done removes one, a new entry starts with those still queued;
      nothing else changes their number. */
  lemma BundlesAfter(id: NodeID, w: World, e: Event)
    requires Happens(id, w, e)
    ensures var n := Bundles(w.now.flow);
            Bundles(After(id, w, e).now.flow) ==
            match e
            case Now(OnFeed(Tick)) => n + 1
            case Now(OnBundle(_, Clear)) => n - 1
            case Recreate(lost) => |w.now.flow.queue| - lost
            case _ => n
  {
    match e
    case Now(OnConn(c, x)) =>
    case Now(OnFeed(x)) =>
    case Now(OnBundle(k, x)) => BundleCount(w.now.flow, k, x);
    case Now(OnChange(k, x)) => ChangeCount(id, w.now, k, x);
    case Old(i, a) =>
    case Recreate(lost) =>
  }

  /** The ticker queues a bundle while another one of the node is on its way. */
  predicate BusyTick(w: World, e: Event) { e == Now(OnFeed(Tick)) && Bundles(w.now.flow) > 0 }

  predicate NoBusyTick(run: Run)
  {
    run.Then? ==> NoBusyTick(run.before) && !BusyTick(run.before.Last(), run.event)
  }

  predicate NeverTwo(run: Run) { Bundles(run.Present().flow) <= 1 && (run.Then? ==> NeverTwo(run.before)) }

  /** In every history: the node never has two bundles queued or being processed iff the ticker never
      queues one while another is on its way. */
  lemma {:induction false} NeverTwoBundlesIff(id: NodeID, run: Run)
    requires IsRun(id, run)
    ensures NeverTwo(run) <==> NoBusyTick(run)
  {
    if run.Then? {
      NeverTwoBundlesIff(id, run.before);
      BundlesAfter(id, run.before.Last(), run.event);
    }
  }

  lemma OneMeansOne(f: Flow)
    requires OneBundle(f)
    ensures Bundles(f) <= 1
  {
    if f.jobs != map[] {
      var k :| f.jobs.Keys == {k};
      assert |f.jobs| == |{k}|;
    }
  }

  /** Which it never does as long as no entry inherits a bundle. */
  lemma {:induction false} CleanStartsNeverTwo(id: NodeID, run: Run)
    requires IsRun(id, run) && CleanStarts(run)
    ensures NeverTwo(run) && NoBusyTick(run)
  {
    AtMostOneBundle(id, run);
    OneMeansOne(run.Present().flow);
    if run.Then? { CleanStartsNeverTwo(id, run.before); }
    NeverTwoBundlesIff(id, run);
  }

  // ----- The line of changes -----------------------------------------------------------

  /** What is left of the current bundle, in delivery order. */
  ghost function Bundle(f: Flow): seq<Item>
  {
    if f.queue != [] then f.queue[0]
    else if f.jobs != map[] then var k :| k in f.jobs; f.jobs[k].Items()
    else []
  }

  lemma BundleOfJob(f: Flow, k: nat)
    requires OneBundle(f) && k in f.jobs
    ensures f.jobs.Keys == {k} && Bundle(f) == f.jobs[k].Items()
  {
  }

  /** The bundle of a worker that has just set its job. */
  lemma BundleAfterSet(f: Flow, k: nat, j: Job, f': Flow)
    requires OneBundle(f) && k in f.jobs && f'.queue == f.queue && f'.jobs == f.jobs[k := j]
    ensures Bundle(f') == j.Items()
  {
    assert f'.jobs.Keys == {k};
  }

  /** Everything delivered, then everything still to be delivered, in the order it would be. */
  ghost function Line(f: Flow): seq<Item> { f.sent + Bundle(f) + f.pending }

  predicate Increasing(l: seq<Item>) { forall i, j :: 0 <= i < j < |l| ==> l[i].n < l[j].n }

  /** The changes in the line are accepted ones, in acceptance order. */
  ghost predicate InOrder(accepted: seq<Item>, l: seq<Item>)
  {
    && Increasing(l)
    && forall i :: 0 <= i < |l| ==> l[i].n < |accepted| && accepted[l[i].n] == l[i]
  }

  ghost predicate Ordered(f: Flow) { InOrder(f.accepted, Line(f)) }

  /** Every accepted change has been delivered, is still in line, or was given up; none twice. */
  ghost predicate Accounted(f: Flow) { Balanced(f.accepted, f.sent, f.dropped, Bundle(f) + f.pending) }

  predicate Balanced(accepted: seq<Item>, sent: seq<Item>, dropped: multiset<Item>, rest: seq<Item>)
  {
    multiset(accepted) == multiset(sent) + dropped + multiset(rest)
  }

  /** Both properties only look at what was accepted, sent and dropped, and at what is left in line. */
  lemma SameLine(f: Flow, f': Flow)
    requires f'.accepted == f.accepted && f'.sent == f.sent && f'.dropped == f.dropped
    requires Bundle(f') + f'.pending == Bundle(f) + f.pending
    ensures Accounted(f') == Accounted(f) && Ordered(f') == Ordered(f)
  {
    assert Line(f') == f'.sent + (Bundle(f') + f'.pending);
    assert Line(f) == f.sent + (Bundle(f) + f.pending);
  }

  // ----- Feeding -----------------------------------------------------------------------

  lemma InOrderAppend(accepted: seq<Item>, l: seq<Item>, cs: seq<Change>)
    requires InOrder(accepted, l)
    ensures var items := Number(|accepted|, cs); InOrder(accepted + items, l + items)
  {
  }

  lemma InOrderSubsequence(accepted: seq<Item>, a: seq<Item>, b: seq<Item>, b': seq<Item>, c: seq<Item>)
    requires InOrder(accepted, a + b + c) && IsSubsequence(b', b)
    ensures InOrder(accepted, a + b' + c)
    decreases |b|
  {
    if b == [] {
    } else if b' != [] && b'[|b'| - 1] == b[|b| - 1] && IsSubsequence(b'[..|b'| - 1], b[..|b| - 1]) {
      var x := b[|b| - 1];
      assert a + b + c == a + b[..|b| - 1] + ([x] + c);
      assert a + b' + c == a + b'[..|b'| - 1] + ([x] + c);
      InOrderSubsequence(accepted, a, b[..|b| - 1], b'[..|b'| - 1], [x] + c);
    } else {
      assert a + b + c == a + b[..|b| - 1] + [b[|b| - 1]] + c;
      InOrderDrop(accepted, a + b[..|b| - 1], b[|b| - 1], c);
      InOrderSubsequence(accepted, a, b[..|b| - 1], b', c);
    }
  }

  lemma InOrderDrop(accepted: seq<Item>, a: seq<Item>, x: Item, c: seq<Item>)
    requires InOrder(accepted, a + [x] + c)
    ensures InOrder(accepted, a + c)
  {
    var l, l' := a + [x] + c, a + c;
    forall i | 0 <= i < |l'| ensures l'[i] == l[if i < |a| then i else i + 1] { }
    forall i, j | 0 <= i < j < |l'| ensures l'[i].n < l'[j].n
    {
      assert l[if i < |a| then i else i + 1].n < l[if j < |a| then j else j + 1].n;
    }
  }

  predicate IsSubsequence(a: seq<Item>, b: seq<Item>)
  {
    || a == []
    || (b != [] && a[|a| - 1] == b[|b| - 1] && IsSubsequence(a[..|a| - 1], b[..|b| - 1]))
    || (b != [] && IsSubsequence(a, b[..|b| - 1]))
  }

  lemma {:induction false} DedupeIsSubsequence(items: seq<Item>)
    ensures IsSubsequence(DedupeItems(items), items)
  {
    if items != [] {
      var init, last := items[..|items| - 1], items[|items| - 1];
      DedupeIsSubsequence(init);
      var kept := DedupeItems(init);
      assert (kept + [last])[..|kept|] == kept;
      assert IsSubsequence(kept, items);
    }
  }

  lemma {:induction false} DedupeShrinks(items: seq<Item>)
    ensures multiset(DedupeItems(items)) <= multiset(items)
  {
    if items != [] {
      var init, last := items[..|items| - 1], items[|items| - 1];
      DedupeShrinks(init);
      assert items == init + [last];
    }
  }

  lemma OrderSubmit(accepted: seq<Item>, sent: seq<Item>, b: seq<Item>, pending: seq<Item>, cs: seq<Change>)
    requires InOrder(accepted, sent + b + pending)
    ensures var items := Number(|accepted|, cs); InOrder(accepted + items, sent + b + (pending + items))
  {
    var items := Number(|accepted|, cs);
    InOrderAppend(accepted, sent + b + pending, cs);
    assert sent + b + (pending + items) == (sent + b + pending) + items;
  }

  lemma OrderFull(accepted: seq<Item>, sent: seq<Item>, b: seq<Item>, pending: seq<Item>)
    requires InOrder(accepted, sent + b + pending)
    ensures var item := Item(|accepted|, FULL_UPDATE); InOrder(accepted + [item], sent + b + [item])
  {
    assert sent + b + pending == (sent + b) + pending + [];
    InOrderSubsequence(accepted, sent + b, pending, [], []);
    assert (sent + b) + [] + [] == sent + b;
    InOrderAppend(accepted, sent + b, [FULL_UPDATE]);
    assert Number(|accepted|, [FULL_UPDATE]) == [Item(|accepted|, FULL_UPDATE)];
  }

  lemma OrderTick(accepted: seq<Item>, sent: seq<Item>, pending: seq<Item>)
    requires InOrder(accepted, sent + [] + pending)
    ensures InOrder(accepted, sent + DedupeItems(pending) + [])
  {
    DedupeIsSubsequence(pending);
    assert sent + [] + pending == sent + pending + [];
    InOrderSubsequence(accepted, sent, pending, DedupeItems(pending), []);
  }

  lemma FeedKeepsOrder(f: Flow, a: FeedAct)
    requires OneBundle(f) && Ordered(f) && FeedEnabled(f, a)
    ensures Ordered(NextFeed(f, a))
  {
    FeedMovesBundle(f, a);
    match a
    case Submit(cs) => OrderSubmit(f.accepted, f.sent, Bundle(f), f.pending, cs);
    case SubmitFull => OrderFull(f.accepted, f.sent, Bundle(f), f.pending);
    case Tick => OrderTick(f.accepted, f.sent, f.pending);
  }

  lemma BalanceSubmit(accepted: seq<Item>, sent: seq<Item>, dropped: multiset<Item>, rest: seq<Item>, items: seq<Item>)
    requires Balanced(accepted, sent, dropped, rest)
    ensures Balanced(accepted + items, sent, dropped, rest + items)
  {
  }

  lemma BalanceFull(accepted: seq<Item>, sent: seq<Item>, dropped: multiset<Item>, b: seq<Item>, pending: seq<Item>,
                    x: Item)
    requires Balanced(accepted, sent, dropped, b + pending)
    ensures Balanced(accepted + [x], sent, dropped + multiset(pending), b + [x])
  {
  }

  lemma BalanceTick(accepted: seq<Item>, sent: seq<Item>, dropped: multiset<Item>, pending: seq<Item>,
                    bundle: seq<Item>)
    requires Balanced(accepted, sent, dropped, pending) && multiset(bundle) <= multiset(pending)
    ensures Balanced(accepted, sent, dropped + (multiset(pending) - multiset(bundle)), bundle)
  {
  }

  lemma FeedMovesBundle(f: Flow, a: FeedAct)
    requires OneBundle(f) && FeedEnabled(f, a)
    ensures Bundle(NextFeed(f, a)) == if a.Tick? then DedupeItems(f.pending) else Bundle(f)
    ensures a.Tick? ==> Bundle(f) == []
  {
  }

  lemma FeedKeepsAccount(f: Flow, a: FeedAct)
    requires OneBundle(f) && Accounted(f) && FeedEnabled(f, a)
    ensures Accounted(NextFeed(f, a))
  {
    var b := Bundle(f);
    FeedMovesBundle(f, a);
    match a
    case Submit(cs) =>
      var items := Number(|f.accepted|, cs);
      BalanceSubmit(f.accepted, f.sent, f.dropped, b + f.pending, items);
      assert b + (f.pending + items) == (b + f.pending) + items;
    case SubmitFull =>
      BalanceFull(f.accepted, f.sent, f.dropped, b, f.pending, Item(|f.accepted|, FULL_UPDATE));
    case Tick =>
      DedupeShrinks(f.pending);
      assert b + f.pending == f.pending && DedupeItems(f.pending) + [] == DedupeItems(f.pending);
      BalanceTick(f.accepted, f.sent, f.dropped, f.pending, DedupeItems(f.pending));
  }

  // ----- Workers -----------------------------------------------------------------------

  lemma BundleKeepsLine(f: Flow, k: nat, a: BundleAct)
    requires OneBundle(f) && BundleEnabled(f, k, a)
    ensures var f' := NextBundle(f, k, a);
            f'.accepted == f.accepted && f'.sent == f.sent && f'.dropped == f.dropped
            && Bundle(f') + f'.pending == Bundle(f) + f.pending
  {
    var f' := NextBundle(f, k, a);
    match a
    case Take =>
      assert f'.jobs.Keys == {k} && f'.queue == [];
      assert Bundle(f') == f.queue[0];
    case Lock =>
      BundleOfJob(f, k);
      BundleAfterSet(f, k, f.jobs[k].(stage := Locked), f');
    case Unlock =>
      BundleOfJob(f, k);
      BundleAfterSet(f, k, f.jobs[k].(stage := Unlocked), f');
    case Requeue =>
      BundleOfJob(f, k);
      assert JobOk(f, k);
      BundleAfterSet(f, k, f.jobs[k].(stage := Requeued, retry := []), f');
    case Clear =>
      BundleOfJob(f, k);
      assert JobOk(f, k);
      assert f'.jobs == map[] && f'.queue == [];
  }

  lemma BundleKeepsBoth(f: Flow, k: nat, a: BundleAct)
    requires OneBundle(f) && BundleEnabled(f, k, a)
    ensures Ordered(NextBundle(f, k, a)) == Ordered(f) && Accounted(NextBundle(f, k, a)) == Accounted(f)
  {
    BundleKeepsLine(f, k, a);
    SameLine(f, NextBundle(f, k, a));
  }

  /** A worker that skips its next change takes it out of the line; deferring it, or starting to send
      it, leaves the line as it is. */
  lemma ChangeMovesLine(id: NodeID, s: Entry, k: nat, a: ChangeAct)
    requires OneBundle(s.flow) && ChangeEnabled(id, s, k, a) && !a.Finish?
    ensures var f, f' := s.flow, NextChange(id, s, k, a).flow;
            && f'.accepted == f.accepted && f'.sent == f.sent && f'.pending == f.pending
            && (if a.Skip? then
                  var j := f.jobs[k];
                  Bundle(f) == j.retry + [j.todo[0]] + j.todo[1..] && Bundle(f') == j.retry + j.todo[1..]
                  && f'.dropped == f.dropped + multiset{j.todo[0]}
                else Bundle(f') == Bundle(f) && f'.dropped == f.dropped)
  {
    var f, f' := s.flow, NextChange(id, s, k, a).flow;
    BundleOfJob(f, k);
    BundleAfterSet(f, k, f'.jobs[k], f');
  }

  lemma FinishMovesLine(id: NodeID, s: Entry, k: nat)
    requires OneBundle(s.flow) && ChangeEnabled(id, s, k, Finish)
    ensures var f, f' := s.flow, NextChange(id, s, k, Finish).flow;
            var j := f.jobs[k];
            var d := j.sending.value;
            && f'.accepted == f.accepted && f'.pending == f.pending
            && Bundle(f) == j.retry + [d.item] + j.todo && Bundle(f') == j.retry + j.todo
            && f'.sent == (if d.Ok() then f.sent + [d.item] else f.sent)
            && f'.dropped == (if d.Ok() then f.dropped else f.dropped + multiset{d.item})
  {
    var f, f' := s.flow, NextChange(id, s, k, Finish).flow;
    BundleOfJob(f, k);
    BundleAfterSet(f, k, f'.jobs[k], f');
  }

  lemma ChangeKeepsAccount(id: NodeID, s: Entry, k: nat, a: ChangeAct)
    requires OneBundle(s.flow) && Accounted(s.flow) && ChangeEnabled(id, s, k, a)
    ensures Accounted(NextChange(id, s, k, a).flow)
  {
    if a.Finish? { FinishMovesLine(id, s, k); } else { ChangeMovesLine(id, s, k, a); }
  }

  lemma ChangeKeepsOrder(id: NodeID, s: Entry, k: nat, a: ChangeAct)
    requires OneBundle(s.flow) && Ordered(s.flow) && ChangeEnabled(id, s, k, a) && !a.Finish?
    ensures Ordered(NextChange(id, s, k, a).flow)
  {
    ChangeMovesLine(id, s, k, a);
    if a.Skip? {
      var f := s.flow;
      var j := f.jobs[k];
      assert Line(f) == (f.sent + j.retry) + [j.todo[0]] + (j.todo[1..] + f.pending);
      InOrderDrop(f.accepted, f.sent + j.retry, j.todo[0], j.todo[1..] + f.pending);
      assert Line(NextChange(id, s, k, a).flow) == f.sent + j.retry + (j.todo[1..] + f.pending);
    }
  }

  predicate Overtakes(f: Flow, k: nat)
    requires IsSending(f, k)
  {
    f.jobs[k].sending.value.Ok() && f.jobs[k].retry != []
  }

  /** Moving x in front of a non-empty stretch that came before it breaks the order. */
  lemma InOrderSwapIff(accepted: seq<Item>, a: seq<Item>, b: seq<Item>, x: Item, c: seq<Item>)
    requires InOrder(accepted, a + b + [x] + c)
    ensures InOrder(accepted, a + [x] + b + c) <==> b == []
  {
    var l, l' := a + b + [x] + c, a + [x] + b + c;
    if b == [] {
      assert l == l';
    } else {
      assert l[|a|] == b[0] && l[|a| + |b|] == x;
      assert l'[|a|] == x && l'[|a| + 1] == b[0];
    }
  }

  /** The order is lost exactly when a change is delivered although an earlier change of the same
      bundle has been put back for a retry. */
  lemma FinishKeepsOrderIff(id: NodeID, s: Entry, k: nat)
    requires OneBundle(s.flow) && Ordered(s.flow) && ChangeEnabled(id, s, k, Finish)
    ensures Ordered(NextChange(id, s, k, Finish).flow) <==> !Overtakes(s.flow, k)
  {
    FinishMovesLine(id, s, k);
    var f, f' := s.flow, NextChange(id, s, k, Finish).flow;
    var j := f.jobs[k];
    var x := j.sending.value.item;
    FinishLineIff(f.accepted, f.sent, j.retry, x, j.todo, f.pending);
  }

  lemma FinishLineIff(accepted: seq<Item>, sent: seq<Item>, retry: seq<Item>, x: Item, todo: seq<Item>,
                      pending: seq<Item>)
    requires InOrder(accepted, sent + (retry + [x] + todo) + pending)
    ensures InOrder(accepted, sent + (retry + todo) + pending)
    ensures InOrder(accepted, (sent + [x]) + (retry + todo) + pending) <==> retry == []
  {
    var tail := todo + pending;
    assert sent + (retry + [x] + todo) + pending == sent + retry + [x] + tail;
    InOrderDrop(accepted, sent + retry, x, tail);
    assert sent + (retry + todo) + pending == sent + retry + tail;
    InOrderSwapIff(accepted, sent, retry, x, tail);
    assert (sent + [x]) + (retry + todo) + pending == sent + [x] + retry + tail;
  }
}
