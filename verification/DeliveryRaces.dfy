/**
 Histories in which the promises fail: a change overtaken by a later one, two bundles of one node
 at once, and a second connection that misses an update.
 */
module DeliveryRaces {
  import opened Basics
  import opened Changes
  import opened PeerTracking
  import opened Delivery
  import opened DeliveryOrder
  import opened DeliveryConnections
  import opened DeliveryPeers

  const ID: NodeID := 1
  const ALONE := Netmap(true, true, true, true, {}, {})
  const EMPTY_MAP := Response(true, Some({}), {}, {}, {}, false)
  const WITH_PEER := Netmap(true, true, true, true, {7}, {})
  const PEER_MAP := Response(false, None, {7}, {}, {}, false)

  /** The tally of connection 1 along a history with clean changes and clean starts. */
  ghost predicate Reached(run: Run, s: Entry, t: Tally)
  {
    IsRun(ID, run) && CleanStarts(run) && CleanRun(run) && run.Present() == s && TallyOf(run, 1) == t
  }

  ghost predicate Reachable(s: Entry, t: Tally) { exists run :: Reached(run, s, t) }

  // A set of states that holds the initial one and that no step leaves.
  ghost predicate Closed(reach: (Entry, Tally) -> bool)
  {
    && reach(START, NO_TALLY)
    && forall s: Entry, t: Tally, a: Action {:trigger reach(s, t), Next(ID, s, a)} ::
         reach(s, t) && Enabled(ID, s, a) && CleanFeed(a) ==> reach(Next(ID, s, a), NextTally(t, s, Now(a), 1))
  }

  lemma ReachableIsClosed()
    ensures Closed((s, t) => Reachable(s, t))
  {
    assert Reached(Fresh, START, NO_TALLY);
    forall s: Entry, t: Tally, a: Action | Reachable(s, t) && Enabled(ID, s, a) && CleanFeed(a)
      ensures Reachable(Next(ID, s, a), NextTally(t, s, Now(a), 1))
    {
      var run :| Reached(run, s, t);
      var next := World(Next(ID, s, a), run.Last().past);
      assert Reached(Then(run, Now(a), next), Next(ID, s, a), NextTally(t, s, Now(a), 1));
    }
  }

  lemma GoConn(reach: (Entry, Tally) -> bool, n: Net, f: Flow, t: Tally, c: nat, a: ConnAct, n': Net)
    requires Closed(reach) && reach(Entry(n, f), t) && Enabled(ID, Entry(n, f), OnConn(c, a))
    requires n' == NextConn(ID, n, f.workMu.None?, c, a)
    ensures reach(Entry(n', f), NextTally(t, Entry(n, f), Now(OnConn(c, a)), 1))
  {
    assert Next(ID, Entry(n, f), OnConn(c, a)) == Entry(n', f);
  }

  lemma GoFeed(reach: (Entry, Tally) -> bool, n: Net, f: Flow, t: Tally, a: FeedAct, f': Flow)
    requires Closed(reach) && reach(Entry(n, f), t) && FeedEnabled(f, a) && CleanFeed(OnFeed(a)) && f' == NextFeed(f, a)
    ensures reach(Entry(n, f'), t)
  {
    assert Next(ID, Entry(n, f), OnFeed(a)) == Entry(n, f');
  }

  lemma GoBundle(reach: (Entry, Tally) -> bool, n: Net, f: Flow, t: Tally, k: nat, a: BundleAct, f': Flow)
    requires Closed(reach) && reach(Entry(n, f), t) && BundleEnabled(f, k, a) && f' == NextBundle(f, k, a)
    ensures reach(Entry(n, f'), t)
  {
    assert Next(ID, Entry(n, f), OnBundle(k, a)) == Entry(n, f');
  }

  lemma GoChange(reach: (Entry, Tally) -> bool, s: Entry, t: Tally, k: nat, a: ChangeAct, s': Entry)
    requires Closed(reach) && reach(s, t) && ChangeEnabled(ID, s, k, a) && s' == NextChange(ID, s, k, a)
    ensures reach(s', NextTally(t, s, Now(OnChange(k, a)), 1))
  {
    assert Next(ID, s, OnChange(k, a)) == s';
  }

  // ----- An overtaken change -----------------------------------------------------------

  function NetAt(p: Phase, frames: seq<Frame>): Net { Net([0], {}, map[0 := p], map[0 := frames], {}) }

  lemma InitialMap(tracked: set<NodeID>)
    requires tracked == {}
    ensures Generate(ID, tracked, ALONE, FullSelf(ID)) == Respond(EMPTY_MAP)
  {
    assert ALONE.Rendered() == {};
    assert FullSelf(ID).patches * ALONE.visible == {};
  }

  lemma HalfAdded(reach: (Entry, Tally) -> bool)
    requires Closed(reach)
    ensures reach(Entry(NetAt(Generated(EMPTY_MAP), []), START.flow), NO_TALLY)
  {
    InitialMap({});
    GoConn(reach, START.net, START.flow, NO_TALLY, 0, Register, NetAt(Registered, []));
    GoConn(reach, NetAt(Registered, []), START.flow, NO_TALLY, 0, GenerateInitial(ALONE, {}),
           NetAt(Generated(EMPTY_MAP), []));
  }

  /** A first connection up to the point where its peers are recorded. */
  lemma AlmostOpen(reach: (Entry, Tally) -> bool)
    requires Closed(reach)
    ensures reach(Entry(NetAt(Recorded, [Initial(EMPTY_MAP)]), START.flow), NO_TALLY)
  {
    HalfAdded(reach);
    var f, t, frames := START.flow, NO_TALLY, [Initial(EMPTY_MAP)];
    assert [] + frames == frames;
    GoConn(reach, NetAt(Generated(EMPTY_MAP), []), f, t, 0, DeliverInitial, NetAt(Delivered(EMPTY_MAP), frames));
    GoConn(reach, NetAt(Delivered(EMPTY_MAP), frames), f, t, 0, RecordInitial, NetAt(Recorded, frames));
  }

  function Batch(items: seq<Item>, todo: seq<Item>, retry: seq<Item>): Flow
  {
    Flow([], true, [], map[0 := Job(Locked, todo, retry, None)], Some(0), items, [], multiset{})
  }

  function Queued(items: seq<Item>): Flow { START.flow.(queue := [items], accepted := items, inFlight := true) }

  function Submitted(items: seq<Item>): Flow { START.flow.(pending := items, accepted := items) }

  lemma TickQueues(items: seq<Item>)
    requires items != [] && items == DedupeItems(items)
    ensures FeedEnabled(Submitted(items), Tick) && NextFeed(Submitted(items), Tick) == Queued(items)
  {
    assert multiset(items) - multiset(items) == multiset{};
  }

  lemma Ticks(reach: (Entry, Tally) -> bool, n: Net, t: Tally, cs: seq<Change>, items: seq<Item>)
    requires Closed(reach) && reach(Entry(n, START.flow), t) && items != [] && CleanFeed(OnFeed(Submit(cs)))
    requires FeedEnabled(START.flow, Submit(cs)) && items == Number(0, cs) == DedupeItems(items)
    ensures reach(Entry(n, Queued(items)), t)
  {
    assert [] + items == items;
    GoFeed(reach, n, START.flow, t, Submit(cs), Submitted(items));
    TickQueues(items);
    GoFeed(reach, n, Submitted(items), t, Tick, Queued(items));
  }

  /** Submitting changes, the tick, and a worker taking and locking the bundle. */
  lemma Locks(reach: (Entry, Tally) -> bool, n: Net, t: Tally, cs: seq<Change>, items: seq<Item>)
    requires Closed(reach) && reach(Entry(n, START.flow), t) && items != [] && CleanFeed(OnFeed(Submit(cs)))
    requires FeedEnabled(START.flow, Submit(cs)) && items == Number(0, cs) == DedupeItems(items)
    ensures reach(Entry(n, Batch(items, items, [])), t)
  {
    Ticks(reach, n, t, cs, items);
    var f := Queued(items).(queue := [], jobs := map[0 := Job(Waiting, items, [], None)]);
    GoBundle(reach, n, Queued(items), t, 0, Take, f);
    GoBundle(reach, n, f, t, 0, Lock, Batch(items, items, []));
  }

  function OneSending(items: seq<Item>, retry: seq<Item>, d: Sending): Flow
  {
    SetJob(Batch(items, [], retry), 0, Job(Locked, [], retry, Some(d)))
  }

  /** The change is generated for the ready connection 0. */
  lemma Begins(reach: (Entry, Tally) -> bool, n: Net, t: Tally, items: seq<Item>, d: Sending, retry: seq<Item>,
               w: Netmap)
    requires Closed(reach) && reach(Entry(n, Batch(items, [d.item], retry)), t)
    requires n.ReadyConns() == [0] && Generate(ID, n.tracked, w, d.item.change) == Respond(d.resp)
    requires d == Sending(d.item, d.resp, [0], [0], {}, {})
    ensures reach(Entry(n, OneSending(items, retry, d)),
                  if Adding(n.PhaseOf(1)) then t.(begun := t.begun + 1) else t)
  {
    assert [d.item][1..] == [];
    GoChange(reach, Entry(n, Batch(items, [d.item], retry)), t, 0, Begin(w), Entry(n, OneSending(items, retry, d)));
  }

  function Put0(n: Net, d: Sending): Net
    requires 0 in n.chan
  {
    n.(chan := n.chan[0 := n.chan[0] + [Delta(d.item, d.resp)]])
  }

  /** Connection 0 takes the change. */
  lemma Puts(reach: (Entry, Tally) -> bool, n: Net, t: Tally, items: seq<Item>, d: Sending, retry: seq<Item>)
    requires Closed(reach) && reach(Entry(n, OneSending(items, retry, d)), t) && 0 in n.chan
    requires d == Sending(d.item, d.resp, [0], [0], {}, {})
    ensures reach(Entry(Put0(n, d), OneSending(items, retry, d.(targets := [], taken := {0}))), t)
  {
    assert [0][1..] == [] && {} + {0} == {0};
    GoChange(reach, Entry(n, OneSending(items, retry, d)), t, 0, Put(true),
             Entry(Put0(n, d), OneSending(items, retry, d.(targets := [], taken := {0}))));
  }

  /** ... and its peers are recorded. */
  lemma Takes(reach: (Entry, Tally) -> bool, n: Net, t: Tally, items: seq<Item>, d: Sending, retry: seq<Item>, n': Net)
    requires Closed(reach) && reach(Entry(n, OneSending(items, retry, d)), t) && 0 in n.chan
    requires d == Sending(d.item, d.resp, [0], [0], {}, {})
    requires n' == Put0(n, d).(conns := Without(n.conns, {}), tracked := Track(n.tracked, d.resp))
    ensures reach(Entry(n', Batch(items, [], retry).(sent := [d.item])),
                  t.(sent := t.sent + [d.item], missed := t.missed + [d.item]))
  {
    Puts(reach, n, t, items, d, retry);
    var d' := d.(targets := [], taken := {0});
    GoChange(reach, Entry(Put0(n, d), OneSending(items, retry, d')), t, 0, Finish,
             Entry(n', Batch(items, [], retry).(sent := [d.item])));
  }

  /** Two changes are accepted while a connection is being added. The worker defers the first; the
      connection opens; the worker delivers the second. The first is now behind it. */
  lemma ChangeCanBeOvertaken(a: Item, b: Item)
    requires a == Item(0, PolicyChange()) && b == Item(1, NodeAdded(7))
    ensures exists s, t :: Reachable(s, t) && s.flow.accepted == [a, b] && s.flow.sent == [b] && !Ordered(s.flow)
  {
    ReachableIsClosed();
    var s, t := Overtaken((s, t) => Reachable(s, t), a, b);
    assert s.flow.jobs.Keys == {0};
    assert Bundle(s.flow) == s.flow.jobs[0].Items() == [a];
    assert Line(s.flow)[0] == b && Line(s.flow)[1] == a;
    assert Reachable(s, t);
  }

  lemma DedupeTwo(a: Item, b: Item)
    requires !b.change.IsBroadcastPolicyChange()
    ensures DedupeItems([a, b]) == [a, b]
  {
    assert [a, b][..1] == [a] && [a][..0] == [];
    assert !SeenPolicyItem([]);
    assert DedupeItems([a]) == [a];
  }

  lemma PeerResponse(x: Item)
    requires x.change == NodeAdded(7)
    ensures Generate(ID, {}, WITH_PEER, x.change) == Respond(PEER_MAP) && Track({}, PEER_MAP) == {7}
  {
    assert WITH_PEER.Rendered() == {7} && {7} * {7} == {7} && x.change.patches * {7} == {};
  }

  lemma Overtaken(reach: (Entry, Tally) -> bool, a: Item, b: Item) returns (s: Entry, t: Tally)
    requires Closed(reach) && a == Item(0, PolicyChange()) && b == Item(1, NodeAdded(7))
    ensures reach(s, t) && s.flow == Batch([a, b], [], [a]).(sent := [b])
  {
    var frames := [Initial(EMPTY_MAP)];
    Deferred(reach, a, b);
    var n := NetAt(Open, frames).(ready := {0});
    GoConn(reach, NetAt(Recorded, frames), Batch([a, b], [b], [a]), NO_TALLY, 0, OpenConn, n);
    WithoutOne(n.conns, (set c | c in n.conns && c !in n.ready));
    PeerResponse(b);
    var d := Sending(b, PEER_MAP, [0], [0], {}, {});
    Begins(reach, n, NO_TALLY, [a, b], d, [a], WITH_PEER);
    var n' := Put0(n, d).(conns := Without(n.conns, {}), tracked := {7});
    Takes(reach, n, NO_TALLY, [a, b], d, [a], n');
    s, t := Entry(n', Batch([a, b], [], [a]).(sent := [b])), NO_TALLY.(sent := [] + [b], missed := [] + [b]);
  }

  lemma Deferred(reach: (Entry, Tally) -> bool, a: Item, b: Item)
    requires Closed(reach) && a == Item(0, PolicyChange()) && b == Item(1, NodeAdded(7))
    ensures reach(Entry(NetAt(Recorded, [Initial(EMPTY_MAP)]), Batch([a, b], [b], [a])), NO_TALLY)
  {
    AlmostOpen(reach);
    var n := NetAt(Recorded, [Initial(EMPTY_MAP)]);
    DedupeTwo(a, b);
    assert Number(0, [a.change, b.change]) == [a, b];
    Locks(reach, n, NO_TALLY, [a.change, b.change], [a, b]);
    assert [a, b][1..] == [b] && [] + [a] == [a];
    WithoutOne(n.conns, (set c | c in n.conns && c !in n.ready));
    GoChange(reach, Entry(n, Batch([a, b], [a, b], [])), NO_TALLY, 0, Defer(ALONE), Entry(n, Batch([a, b], [b], [a])));
  }

  // ----- Two bundles -------------------------------------------------------------------

  /** One more event of a history. */
  ghost function Extend(run: Run, e: Event): (r: Run)
    requires IsRun(ID, run) && Happens(ID, run.Last(), e)
    ensures IsRun(ID, r) && r.Last() == After(ID, run.Last(), e)
  {
    Then(run, e, After(ID, run.Last(), e))
  }

  /** The deletion and recreation with a first connection, a submission and a tick, in any state. */
  function Doubled(id: NodeID, w: World, lost: nat): World
    requires lost <= |w.now.flow.queue|
  {
    var w1 := After(id, w, Recreate(lost));
    var w2 := After(id, w1, Now(OnConn(0, Register)));
    After(id, After(id, w2, Now(OnFeed(SubmitFull))), Now(OnFeed(Tick)))
  }

  /** In every state of every node: an entry created while bundles of its predecessor wait has, after its
      own first tick, all of those and one more, while an entry that found none has one. */
  lemma InheritedBundlesStay(id: NodeID, w: World, lost: nat)
    requires lost <= |w.now.flow.queue|
    ensures Bundles(Doubled(id, w, lost).now.flow) == |w.now.flow.queue| - lost + 1
    ensures OneBundle(Doubled(id, w, lost).now.flow) <==> lost == |w.now.flow.queue|
  {
  }

  /** A node with a connection is deleted while its bundle is queued, and added again. Its new entry has
      one bundle but not the flag. */
  lemma Recreated() returns (run: Run, w: World)
    ensures IsRun(ID, run) && !CleanStarts(run) && NeverTwo(run)
    ensures |w.now.flow.queue| == 1 && run.Last() == After(ID, w, Recreate(0))
  {
    var r1 := Extend(Fresh, Now(OnConn(0, Register)));
    var r2 := Extend(r1, Now(OnFeed(SubmitFull)));
    var r3 := Extend(r2, Now(OnFeed(Tick)));
    w := r3.Last();
    run := Extend(r3, Recreate(0));
  }

  /** ... so inheriting a bundle does not by itself mean having two, */
  lemma InheritedBundleAlone()
    ensures exists run :: IsRun(ID, run) && !CleanStarts(run) && NeverTwo(run)
  {
    var run, w := Recreated();
  }

  /** ... but after the new entry's first tick there are two. */
  lemma RecreateAllowsTwoBundles()
    ensures exists run :: IsRun(ID, run) && !NeverTwo(run) && |run.Present().flow.queue| == 2
  {
    var run, w := Recreated();
    var r1 := Extend(run, Now(OnConn(0, Register)));
    var r2 := Extend(r1, Now(OnFeed(SubmitFull)));
    var r3 := Extend(r2, Now(OnFeed(Tick)));
    assert r3.Last() == Doubled(ID, w, 0);
    InheritedBundlesStay(ID, w, 0);
  }

  // ----- A second connection -----------------------------------------------------------

  /** One opened connection and a second one in phase p. */
  function TwoConns(p: Phase, ready: set<nat>, f0: seq<Frame>, f1: seq<Frame>, tracked: set<NodeID>): Net
  {
    Net([0, 1], ready, map[0 := Open, 1 := p], map[0 := f0, 1 := f1], tracked)
  }

  lemma SecondGenerated(reach: (Entry, Tally) -> bool, f0: seq<Frame>)
    requires Closed(reach) && f0 == [Initial(EMPTY_MAP)]
    ensures reach(Entry(TwoConns(Generated(EMPTY_MAP), {0}, f0, [], {}), START.flow), NO_TALLY)
  {
    AlmostOpen(reach);
    InitialMap({});
    var f, t := START.flow, NO_TALLY;
    var n := NetAt(Open, f0).(ready := {0});
    GoConn(reach, NetAt(Recorded, f0), f, t, 0, OpenConn, n);
    GoConn(reach, n, f, t, 1, Register, TwoConns(Registered, {0}, f0, [], {}));
    GoConn(reach, TwoConns(Registered, {0}, f0, [], {}), f, t, 1, GenerateInitial(ALONE, {}),
           TwoConns(Generated(EMPTY_MAP), {0}, f0, [], {}));
  }

  lemma WithoutTwo(gone: set<nat>)
    ensures Without([0, 1], gone) == (if 0 in gone then [] else [0]) + (if 1 in gone then [] else [1])
  {
    assert [0, 1][1..] == [1] && [1][1..] == [];
    WithoutOne([1], gone);
  }

  lemma SecondLocked(reach: (Entry, Tally) -> bool, f0: seq<Frame>, x: Item)
    requires Closed(reach) && f0 == [Initial(EMPTY_MAP)] && x == Item(0, NodeAdded(7))
    ensures reach(Entry(TwoConns(Generated(EMPTY_MAP), {0}, f0, [], {}), Batch([x], [x], [])), NO_TALLY)
  {
    SecondGenerated(reach, f0);
    assert DedupeItems([x]) == [x] by { assert [x][..0] == []; }
    assert Number(0, [x.change]) == [x];
    Locks(reach, TwoConns(Generated(EMPTY_MAP), {0}, f0, [], {}), NO_TALLY, [x.change], [x]);
  }

  /** Connection 1 has missed x. */
  function MissedOne(x: Item): Tally { Tally([x], [x], [], 1, 0) }

  lemma FirstIsOffered(reach: (Entry, Tally) -> bool, f0: seq<Frame>, x: Item, d: Sending)
    requires Closed(reach) && f0 == [Initial(EMPTY_MAP)] && x == Item(0, NodeAdded(7))
    requires d == Sending(x, PEER_MAP, [0], [0], {}, {})
    ensures reach(Entry(TwoConns(Generated(EMPTY_MAP), {0}, f0, [], {}), OneSending([x], [], d)), NO_TALLY.(begun := 1))
  {
    SecondLocked(reach, f0, x);
    var n := TwoConns(Generated(EMPTY_MAP), {0}, f0, [], {});
    PeerResponse(x);
    WithoutTwo((set c | c in n.conns && c !in n.ready));
    Begins(reach, n, NO_TALLY, [x], d, [], WITH_PEER);
  }

  lemma FirstIsUpdated(reach: (Entry, Tally) -> bool, f0: seq<Frame>, x: Item)
    requires Closed(reach) && f0 == [Initial(EMPTY_MAP)] && x == Item(0, NodeAdded(7))
    ensures reach(Entry(TwoConns(Generated(EMPTY_MAP), {0}, f0 + [Delta(x, PEER_MAP)], [], {7}),
                        Batch([x], [], []).(sent := [x])), MissedOne(x))
  {
    var d := Sending(x, PEER_MAP, [0], [0], {}, {});
    FirstIsOffered(reach, f0, x, d);
    PeerResponse(x);
    WithoutTwo({});
    assert [] + [x] == [x];
    Takes(reach, TwoConns(Generated(EMPTY_MAP), {0}, f0, [], {}), NO_TALLY.(begun := 1), [x], d, [],
          TwoConns(Generated(EMPTY_MAP), {0}, f0 + [Delta(x, PEER_MAP)], [], {7}));
  }

  function Idle(x: Item): Flow { START.flow.(accepted := [x], sent := [x]) }

  lemma WorkerLeaves(reach: (Entry, Tally) -> bool, n: Net, t: Tally, x: Item)
    requires Closed(reach) && reach(Entry(n, Batch([x], [], []).(sent := [x])), t)
    ensures reach(Entry(n, Idle(x)), t)
  {
    var f := Batch([x], [], []).(sent := [x]);
    var f1 := SetJob(f, 0, Job(Unlocked, [], [], None)).(workMu := None);
    GoBundle(reach, n, f, t, 0, Unlock, f1);
    var f2 := SetJob(f1, 0, Job(Requeued, [], [], None));
    assert [] + f1.pending == [];
    GoBundle(reach, n, f1, t, 0, Requeue, f2);
    assert f2.jobs - {0} == map[];
    GoBundle(reach, n, f2, t, 0, Clear, Idle(x));
  }

  lemma SecondOpens(reach: (Entry, Tally) -> bool, t: Tally, f0: seq<Frame>, f: Flow)
    requires Closed(reach) && f.workMu.None?
    requires reach(Entry(TwoConns(Generated(EMPTY_MAP), {0}, f0, [], {7}), f), t)
    ensures reach(Entry(TwoConns(Open, {0, 1}, f0, [Initial(EMPTY_MAP)], {}), f), t)
  {
    var f1 := [Initial(EMPTY_MAP)];
    assert [] + f1 == f1;
    GoConn(reach, TwoConns(Generated(EMPTY_MAP), {0}, f0, [], {7}), f, t, 1, DeliverInitial,
           TwoConns(Delivered(EMPTY_MAP), {0}, f0, f1, {7}));
    assert Track({7}, EMPTY_MAP) == {};
    GoConn(reach, TwoConns(Delivered(EMPTY_MAP), {0}, f0, f1, {7}), f, t, 1, RecordInitial,
           TwoConns(Recorded, {0}, f0, f1, {}));
    GoConn(reach, TwoConns(Recorded, {0}, f0, f1, {}), f, t, 1, OpenConn, TwoConns(Open, {0, 1}, f0, f1, {}));
  }

  lemma SecondReached(x: Item, f0: seq<Frame>)
    requires x == Item(0, NodeAdded(7)) && f0 == [Initial(EMPTY_MAP)]
    ensures Reachable(Entry(TwoConns(Open, {0, 1}, f0 + [Delta(x, PEER_MAP)], f0, {}), Idle(x)), MissedOne(x))
  {
    ReachableIsClosed();
    var f0' := f0 + [Delta(x, PEER_MAP)];
    FirstIsUpdated((s, t) => Reachable(s, t), f0, x);
    WorkerLeaves((s, t) => Reachable(s, t), TwoConns(Generated(EMPTY_MAP), {0}, f0', [], {7}), MissedOne(x), x);
    SecondOpens((s, t) => Reachable(s, t), MissedOne(x), f0', Idle(x));
  }

  /** A history at rest in which a second connection, whose initial map was generated before a change and
      which opened after the change was delivered to the first, has missed that change, and recording its
      initial map has made the record forget what the first one knows. */
  lemma SecondConnectionMissesUpdate(x: Item)
    requires x == Item(0, NodeAdded(7))
    ensures exists run :: IsRun(ID, run) && run.Present().flow == Idle(x) && {0, 1} <= run.Present().net.ready
                          && TallyOf(run, 1) == MissedOne(x) && Deltas(run.Present().net.ChanOf(1)) == []
                          && !NeverDisturbed(run, 0) && !AgreesNow(run.Present(), 0)
  {
    var f0 := [Initial(EMPTY_MAP)];
    var s := Entry(TwoConns(Open, {0, 1}, f0 + [Delta(x, PEER_MAP)], f0, {}), Idle(x));
    SecondReached(x, f0);
    var run :| Reached(run, s, MissedOne(x));
    ViewOfInitial(EMPTY_MAP);
    ViewAppend(f0, Delta(x, PEER_MAP));
    assert View(s.net.ChanOf(0)) == {7} && !AgreesNow(s, 0);
    MissesNothingIff(ID, run, 1);
    assert |Deltas(s.net.ChanOf(1))| == 0;
    AgreesIffUndisturbed(ID, run, 0);
  }
}
