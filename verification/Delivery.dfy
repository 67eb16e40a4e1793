/**
 The delivery protocol of a node, step by step: connections being added while the worker pool
 delivers bundles of pending changes, and the node's entry being deleted and created again. A step
 is one critical section or one channel operation of the source, and steps of different goroutines
 interleave freely. What the mapper reads differs from step to step, so it is a parameter of the
 step.

 A tick is one step although the source loads the in-flight flag, drains, stores the flag and sends
 on the work channel one after the other. Only the ticker sets the flag and only it drains, and a
 worker clears the flag only for a bundle the ticker has queued before, so nobody but submitters
 acts on the entry in between, unless the entry inherited a bundle of a deleted one. A submission
 before the drain is drained, a later one stays pending: the drain decides, and the other three
 operations commute with everything around them. The worker of an inherited bundle may also put its
 retries back and clear the flag between the drain and the store; those interleavings are not
 distinguished here.
 */
module Delivery {
  import opened Basics
  import opened Changes
  import opened PeerTracking

  /** An accepted change with its acceptance number. */
  datatype Item = Item(n: nat, change: Change)

  datatype Frame = Initial(resp: Response) | Delta(item: Item, resp: Response)

  /** How far adding a connection has come. */
  datatype Phase =
    | Registered               // in the connection list, not ready
    | Generated(f: Response)   // the initial map has been built
    | Delivered(f: Response)   // ... and put on the channel
    | Recorded                 // ... and its peers recorded
    | Open                     // ready for broadcasts
    | Gone                     // removed

  /** The connections of the node, and the peers last sent to it. */
  datatype Net = Net(
    conns: seq<nat>,             // registered connections
    ready: set<nat>,             // connections whose pending-initial flag is cleared
    phase: map<nat, Phase>,
    chan: map<nat, seq<Frame>>,  // everything ever put on a connection's channel
    tracked: set<NodeID>)
  {
    function ChanOf(c: nat): seq<Frame> { if c in chan then chan[c] else [] }

    function PhaseOf(c: nat): Phase { if c in phase then phase[c] else Gone }

    /** The connections that take broadcasts, in list order. */
    function ReadyConns(): (r: seq<nat>)
      ensures forall c :: c in r <==> c in conns && c in ready
    {
      Without(conns, (set c | c in conns && c !in ready))
    }
  }

  /** A response on its way to the connections that were ready when it was generated: the snapshot of
      them, those still to be offered it, those that failed, and those that took it. */
  datatype Sending =
    Sending(item: Item, resp: Response, snapshot: seq<nat>, targets: seq<nat>, failed: set<nat>, taken: set<nat>)
  {
    predicate Ok() { taken != {} }
  }

  datatype Stage = Waiting | Locked | Unlocked | Requeued

  /** A bundle in the hands of a worker. */
  datatype Job = Job(stage: Stage, todo: seq<Item>, retry: seq<Item>, sending: Option<Sending>)
  {
    /** The changes of the bundle that are still to be delivered, in the order they would be. */
    function Items(): seq<Item>
    {
      retry + (if sending.Some? then [sending.value.item] else []) + todo
    }
  }

  /** Pending changes, bundles on their way, and what became of the changes accepted so far. */
  datatype Flow = Flow(
    pending: seq<Item>,
    inFlight: bool,
    queue: seq<seq<Item>>,       // this node's bundles in the work channel
    jobs: map<nat, Job>,         // by worker
    workMu: Option<nat>,         // the worker holding the node's work lock
    accepted: seq<Item>,
    sent: seq<Item>,             // delivered and recorded
    dropped: multiset<Item>)     // given up

  datatype Entry = Entry(net: Net, flow: Flow)

  const START := Entry(Net([], {}, map[], map[], {}), Flow([], false, [], map[], None, [], [], multiset{}))

  /** Adding and removing connection c. */
  datatype ConnAct =
    | Register
    | GenerateInitial(w: Netmap, record: set<NodeID>)  // record: the peer record the worker reads
    | DeliverInitial
    | RecordInitial
    | OpenConn
    | AbortAdd
    | Disconnect

  /** Feeding the pending queue, and the batch tick. */
  datatype FeedAct = Submit(changes: seq<Change>) | SubmitFull | Tick

  /** A worker's handling of a bundle as a whole. */
  datatype BundleAct = Take | Lock | Unlock | Requeue | Clear

  /** A worker's handling of the next change of its bundle. */
  datatype ChangeAct = Skip(w: Netmap) | Defer(w: Netmap) | Begin(w: Netmap) | Put(accept: bool) | Finish

  datatype Action =
    | OnConn(c: nat, conn: ConnAct)
    | OnFeed(feed: FeedAct)
    | OnBundle(k: nat, bundle: BundleAct)
    | OnChange(k: nat, change: ChangeAct)

  // ----- Connections -------------------------------------------------------------------

  function Without(cs: seq<nat>, gone: set<nat>): (r: seq<nat>)
    ensures forall c :: c in r <==> c in cs && c !in gone
  {
    if cs == [] then []
    else if cs[0] in gone then Without(cs[1..], gone)
    else [cs[0]] + Without(cs[1..], gone)
  }

  predicate ConnEnabled(id: NodeID, n: Net, unlocked: bool, c: nat, a: ConnAct)
  {
    match a
    case Register => c !in n.phase
    case GenerateInitial(w, record) => n.PhaseOf(c) == Registered && Generate(id, record, w, FullSelf(id)).Respond?
    case DeliverInitial => n.PhaseOf(c).Generated?
    case RecordInitial => n.PhaseOf(c).Delivered? && unlocked
    case OpenConn => n.PhaseOf(c) == Recorded
    case AbortAdd => n.PhaseOf(c) == Registered || n.PhaseOf(c).Generated?
    case Disconnect => n.PhaseOf(c) == Open
  }

  function NextConn(id: NodeID, n: Net, unlocked: bool, c: nat, a: ConnAct): Net
    requires ConnEnabled(id, n, unlocked, c, a)
  {
    match a
    case Register => n.(conns := n.conns + [c], phase := n.phase[c := Registered], chan := n.chan[c := []])
    case GenerateInitial(w, record) =>
      n.(phase := n.phase[c := Generated(Generate(id, record, w, FullSelf(id)).resp)])
    case DeliverInitial =>
      var f := n.PhaseOf(c).f;
      n.(chan := n.chan[c := n.ChanOf(c) + [Initial(f)]], phase := n.phase[c := Delivered(f)])
    case RecordInitial =>
      n.(tracked := Track(n.tracked, n.PhaseOf(c).f), phase := n.phase[c := Recorded])
    case OpenConn => n.(ready := n.ready + {c}, phase := n.phase[c := Open])
    case AbortAdd => n.(conns := Without(n.conns, {c}), phase := n.phase[c := Gone])
    case Disconnect => n.(conns := Without(n.conns, {c}), phase := n.phase[c := Gone])
  }

  // ----- Pending changes ---------------------------------------------------------------

  function Number(from: nat, cs: seq<Change>): seq<Item>
  {
    seq(|cs|, i requires 0 <= i < |cs| => Item(from + i, cs[i]))
  }

  function ChangesOf(items: seq<Item>): seq<Change>
  {
    seq(|items|, i requires 0 <= i < |items| => items[i].change)
  }

  predicate SeenPolicyItem(items: seq<Item>)
  {
    exists i :: 0 <= i < |items| && items[i].change.IsBroadcastPolicyChange()
  }

  /** Coalescing of policy recomputes, on numbered changes. */
  function DedupeItems(items: seq<Item>): seq<Item>
  {
    if items == [] then []
    else
      var init, last := items[..|items| - 1], items[|items| - 1];
      if last.change.IsBroadcastPolicyChange() && SeenPolicyItem(init) then DedupeItems(init)
      else DedupeItems(init) + [last]
  }

  predicate FeedEnabled(f: Flow, a: FeedAct)
  {
    match a
    case Submit(cs) => !HasFull(cs)
    case SubmitFull => true
    case Tick => !f.inFlight && f.pending != []
  }

  function NextFeed(f: Flow, a: FeedAct): Flow
    requires FeedEnabled(f, a)
  {
    match a
    case Submit(cs) =>
      var items := Number(|f.accepted|, cs);
      f.(pending := f.pending + items, accepted := f.accepted + items)
    case SubmitFull =>
      var item := Item(|f.accepted|, FULL_UPDATE);
      f.(pending := [item], accepted := f.accepted + [item], dropped := f.dropped + multiset(f.pending))
    case Tick =>
      var bundle := DedupeItems(f.pending);
      f.(pending := [], queue := f.queue + [bundle], inFlight := true,
         dropped := f.dropped + (multiset(f.pending) - multiset(bundle)))
  }

  // ----- Workers -----------------------------------------------------------------------

  function SetJob(f: Flow, k: nat, j: Job): Flow { f.(jobs := f.jobs[k := j]) }

  predicate Holds(f: Flow, k: nat) { k in f.jobs && f.jobs[k].stage == Locked && f.workMu == Some(k) }

  predicate BundleEnabled(f: Flow, k: nat, a: BundleAct)
  {
    match a
    case Take => k !in f.jobs && f.queue != []
    case Lock => k in f.jobs && f.jobs[k].stage == Waiting && f.workMu.None?
    case Unlock => Holds(f, k) && f.jobs[k].sending.None? && f.jobs[k].todo == []
    case Requeue => k in f.jobs && f.jobs[k].stage == Unlocked
    case Clear => k in f.jobs && f.jobs[k].stage == Requeued
  }

  function NextBundle(f: Flow, k: nat, a: BundleAct): Flow
    requires BundleEnabled(f, k, a)
  {
    match a
    case Take => SetJob(f, k, Job(Waiting, f.queue[0], [], None)).(queue := f.queue[1..])
    case Lock => SetJob(f, k, f.jobs[k].(stage := Locked)).(workMu := Some(k))
    case Unlock => SetJob(f, k, f.jobs[k].(stage := Unlocked)).(workMu := None)
    case Requeue =>
      SetJob(f, k, f.jobs[k].(stage := Requeued, retry := [])).(pending := f.jobs[k].retry + f.pending)
    case Clear => f.(jobs := f.jobs - {k}, inFlight := false)
  }

  /** The worker holding the lock is about to handle its next change. */
  predicate AtChange(f: Flow, k: nat) { Holds(f, k) && f.jobs[k].sending.None? && f.jobs[k].todo != [] }

  predicate IsSending(f: Flow, k: nat) { Holds(f, k) && f.jobs[k].sending.Some? }

  function NextOutcome(id: NodeID, s: Entry, k: nat, w: Netmap): Outcome
    requires AtChange(s.flow, k)
  {
    Generate(id, s.net.tracked, w, s.flow.jobs[k].todo[0].change)
  }

  predicate ChangeEnabled(id: NodeID, s: Entry, k: nat, a: ChangeAct)
  {
    match a
    case Skip(w) => AtChange(s.flow, k) && (!NextOutcome(id, s, k, w).Respond? || s.net.conns == [])
    case Defer(w) =>
      AtChange(s.flow, k) && NextOutcome(id, s, k, w).Respond? && s.net.conns != [] && s.net.ReadyConns() == []
    case Begin(w) => AtChange(s.flow, k) && NextOutcome(id, s, k, w).Respond? && s.net.ReadyConns() != []
    case Put(accept) => IsSending(s.flow, k) && s.flow.jobs[k].sending.value.targets != []
    case Finish => IsSending(s.flow, k) && s.flow.jobs[k].sending.value.targets == []
  }

  function NextChange(id: NodeID, s: Entry, k: nat, a: ChangeAct): Entry
    requires ChangeEnabled(id, s, k, a)
  {
    var f, j := s.flow, s.flow.jobs[k];
    match a
    case Skip(w) =>
      s.(flow := SetJob(f, k, j.(todo := j.todo[1..])).(dropped := f.dropped + multiset{j.todo[0]}))
    case Defer(w) =>
      s.(flow := SetJob(f, k, j.(todo := j.todo[1..], retry := j.retry + [j.todo[0]])))
    case Begin(w) =>
      var d := Sending(j.todo[0], NextOutcome(id, s, k, w).resp, s.net.ReadyConns(), s.net.ReadyConns(), {}, {});
      s.(flow := SetJob(f, k, j.(todo := j.todo[1..], sending := Some(d))))
    case Put(accept) =>
      var d := j.sending.value;
      var c := d.targets[0];
      if accept then
        Entry(s.net.(chan := s.net.chan[c := s.net.ChanOf(c) + [Delta(d.item, d.resp)]]),
              SetJob(f, k, j.(sending := Some(d.(targets := d.targets[1..], taken := d.taken + {c})))))
      else
        s.(flow := SetJob(f, k, j.(sending := Some(d.(targets := d.targets[1..], failed := d.failed + {c})))))
    case Finish =>
      var d := j.sending.value;
      var f' := SetJob(f, k, j.(sending := None));
      var conns := Without(s.net.conns, d.failed);
      if d.Ok() then
        Entry(s.net.(conns := conns, tracked := Track(s.net.tracked, d.resp)), f'.(sent := f.sent + [d.item]))
      else Entry(s.net.(conns := conns), f'.(dropped := f.dropped + multiset{d.item}))
  }

  // ----- An entry ----------------------------------------------------------------------

  predicate Able(id: NodeID, s: Entry, a: Action)
  {
    match a
    case OnConn(c, x) => ConnEnabled(id, s.net, s.flow.workMu.None?, c, x)
    case OnFeed(x) => FeedEnabled(s.flow, x)
    case OnBundle(k, x) => BundleEnabled(s.flow, k, x)
    case OnChange(k, x) => ChangeEnabled(id, s, k, x)
  }

  /** An initial map is generated under the work lock of the node's present entry, from its record. */
  predicate Reads(present: Entry, a: Action)
  {
    a.OnConn? && a.conn.GenerateInitial? ==> present.flow.workMu.None? && a.conn.record == present.net.tracked
  }

  predicate Enabled(id: NodeID, s: Entry, a: Action) { Able(id, s, a) && Reads(s, a) }

  function Next(id: NodeID, s: Entry, a: Action): Entry
    requires Able(id, s, a)
  {
    match a
    case OnConn(c, x) => s.(net := NextConn(id, s.net, s.flow.workMu.None?, c, x))
    case OnFeed(x) => s.(flow := NextFeed(s.flow, x))
    case OnBundle(k, x) => s.(flow := NextBundle(s.flow, k, x))
    case OnChange(k, x) => NextChange(id, s, k, x)
  }

  // ----- The node ----------------------------------------------------------------------

  /** The present entry, and those deleted before it. A deleted entry is still driven by the goroutines
      that hold it: connections being added to it, and workers in the middle of one of its bundles. */
  datatype World = World(now: Entry, past: seq<Entry>)

  /** A step of the present entry, a step of a deleted one, or the deletion of the present entry at any
      time followed by the creation of a new one. Bundles of the node wait in the work channel under
      its identifier, so the new entry inherits those that no worker took while there was no entry. */
  datatype Event = Now(a: Action) | Old(i: nat, a: Action) | Recreate(lost: nat)

  /** No connection is added to a deleted entry, nothing is submitted to it, and no bundle taken for it. */
  predicate Orphaned(a: Action)
  {
    match a
    case OnConn(c, x) => !x.Register?
    case OnFeed(x) => false
    case OnBundle(k, x) => !x.Take?
    case OnChange(k, x) => true
  }

  predicate Happens(id: NodeID, w: World, e: Event)
  {
    match e
    case Now(a) => Enabled(id, w.now, a)
    case Old(i, a) => i < |w.past| && Orphaned(a) && Able(id, w.past[i], a) && Reads(w.now, a)
    case Recreate(lost) => lost <= |w.now.flow.queue|
  }

  function After(id: NodeID, w: World, e: Event): World
    requires Happens(id, w, e)
  {
    match e
    case Now(a) => w.(now := Next(id, w.now, a))
    case Old(i, a) => w.(past := w.past[i := Next(id, w.past[i], a)])
    case Recreate(lost) =>
      World(START.(flow := START.flow.(queue := w.now.flow.queue[lost..])),
            w.past + [w.now.(flow := w.now.flow.(queue := []))])
  }

  /** A history of the node. */
  datatype Run = Fresh | Then(before: Run, event: Event, state: World)
  {
    function Last(): World { if Fresh? then World(START, []) else state }

    function Present(): Entry { Last().now }
  }

  ghost predicate IsRun(id: NodeID, run: Run)
  {
    run.Then? ==>
      && IsRun(id, run.before) && Happens(id, run.before.Last(), run.event)
      && run.state == After(id, run.before.Last(), run.event)
  }
}
