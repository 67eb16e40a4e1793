/**
 The collector of disconnected ephemeral nodes: one timer and one watcher goroutine for every
 scheduling, a bounded channel of due deletions, and a consumer. Watchers, timers and the consumer
 step independently. A scheduling is named by its generation.
 */
module EphemeralGC {
  import opened Basics

  const CAPACITY := 10

  datatype Timer = Armed | Fired | Stopped

  datatype Phase = Waiting | Sending | Ended

  /** The timer of a scheduling, and the goroutine that watches it. */
  datatype Watcher = Watcher(node: NodeID, timer: Timer, phase: Phase)

  datatype Pending = Pending(node: NodeID, gen: nat)

  datatype State = State(
    entries: map<NodeID, nat>,      // scheduled nodes and the generation of their scheduling
    gen: nat,
    watchers: map<nat, Watcher>,    // by generation
    done: multiset<nat>,            // how often each scheduling's done channel has been closed
    queue: seq<Pending>,            // due deletions: the one the consumer has received, then the channel
    held: bool,                     // the consumer has received the first of them
    closed: bool,
    running: bool,                  // the consumer
    issued: multiset<Pending>,      // deletions started
    panicked: bool)                 // a closed channel was closed again

  const START := State(map[], 0, map[], multiset{}, [], false, false, true, multiset{}, false)

  datatype Action =
    | Schedule(node: NodeID)
    | Cancel(node: NodeID)
    | Close
    | Expire(g: nat)    // the timer runs out
    | Wake(g: nat)      // the watcher sees it
    | Enqueue(g: nat)   // and queues the deletion
    | Quit(g: nat)      // or leaves, because it was superseded or the collector closed
    | Receive           // the consumer receives a due deletion
    | Check             // and starts it, unless it is stale
    | Exit              // the consumer sees the collector closed

  /** How many deletions the channel holds. */
  function Buffered(s: State): int { if s.held then |s.queue| - 1 else |s.queue| }

  predicate Live(s: State, g: nat) { g in s.watchers && !s.watchers[g].phase.Ended? }

  predicate Enabled(s: State, a: Action)
  {
    match a
    case Schedule(n) => true
    case Cancel(n) => true
    case Close => true
    case Expire(g) => g in s.watchers && s.watchers[g].timer.Armed?
    case Wake(g) => g in s.watchers && s.watchers[g].phase.Waiting? && s.watchers[g].timer.Fired?
    case Enqueue(g) => g in s.watchers && s.watchers[g].phase.Sending? && Buffered(s) < CAPACITY
    case Quit(g) => Live(s, g) && (s.closed || g in s.done)
    case Receive => s.running && !s.held && s.queue != []
    case Check => s.running && s.held && s.queue != []
    case Exit => s.running && !s.held && s.closed
  }

  function Stop(w: Watcher): Watcher { if w.timer.Armed? then w.(timer := Stopped) else w }

  /** Stops the timer of a node's current scheduling and releases its watcher. */
  function Reap(s: State, n: NodeID): State
  {
    if n !in s.entries then s
    else
      var g := s.entries[n];
      s.(watchers := if g in s.watchers then s.watchers[g := Stop(s.watchers[g])] else s.watchers,
         done := s.done + multiset{g},
         panicked := s.panicked || g in s.done)
  }

  /** A new generation with a running timer. */
  function Arm(s: State, n: NodeID): State
  {
    var g := s.gen + 1;
    SetWatcher(s, g, Watcher(n, Armed, Waiting)).(gen := g, entries := s.entries[n := g])
  }

  function SetWatcher(s: State, g: nat, w: Watcher): State { s.(watchers := s.watchers[g := w]) }

  /** The watchers after the timers of the current schedulings, except those of rest, were stopped. */
  function StoppedExcept(s: State, rest: set<NodeID>): map<nat, Watcher>
  {
    map g | g in s.watchers :: if Scheduled(s, g)
        && s.watchers[g].node !in rest then Stop(s.watchers[g]) else s.watchers[g]
  }

  function Next(s: State, a: Action): State
    requires Enabled(s, a)
  {
    match a
    case Schedule(n) =>
      if s.closed then s
      else
        Arm(Reap(s, n), n)
    case Cancel(n) => Reap(s, n).(entries := s.entries - {n})
    case Close =>
      s.(watchers := StoppedExcept(s, {}), closed := true, panicked := s.panicked || s.closed)
    case Expire(g) => SetWatcher(s, g, s.watchers[g].(timer := Fired))
    case Wake(g) => SetWatcher(s, g, s.watchers[g].(phase := Sending))
    case Enqueue(g) =>
      SetWatcher(s, g, s.watchers[g].(phase := Ended)).(queue := s.queue + [Pending(s.watchers[g].node, g)])
    case Quit(g) => SetWatcher(s, g, s.watchers[g].(phase := Ended))
    case Receive => s.(held := true)
    case Check =>
      var p := s.queue[0];
      var s' := s.(queue := s.queue[1..], held := false);
      if p.node in s.entries && s.entries[p.node] == p.gen
      then s'.(entries := s.entries - {p.node}, issued := s.issued + multiset{p})
      else s'
    case Exit => s.(running := false)
  }

  /** The scheduling is some node's current one. */
  predicate Scheduled(s: State, g: nat) { g in s.watchers && Current(s, s.watchers[g].node, g) }

  predicate Current(s: State, n: NodeID, g: nat) { n in s.entries && s.entries[n] == g }

  datatype Run = Fresh | Then(before: Run, action: Action, state: State)
  {
    function Last(): State { if Fresh? then START else state }
  }

  ghost predicate IsRun(run: Run)
  {
    run.Then? ==>
      && IsRun(run.before) && Enabled(run.before.Last(), run.action)
      && run.state == Next(run.before.Last(), run.action)
  }

  // ----- One scheduling ----------------------------------------------------------------

  predicate Queued(s: State, g: nat) { exists i :: 0 <= i < |s.queue| && s.queue[i].gen == g }

  /** Where a scheduling stands. As long as it is current its done channel is open, its deletion has not
      been issued, and, while the collector is open, its watcher is alive or its deletion queued. A
      deletion that was issued had its timer run out and was never cancelled or superseded. */
  ghost predicate GenOk(s: State, g: nat)
  {
    g in s.watchers ==>
      var w := s.watchers[g];
      && 1 <= g <= s.gen && s.done[g] <= 1 && s.issued[Pending(w.node, g)] <= 1
      && (w.phase.Sending? ==> w.timer.Fired?)
      && (Queued(s, g) ==> w.phase.Ended? && w.timer.Fired? && Pending(w.node, g) !in s.issued)
      && (Current(s, w.node, g) ==> g !in s.done && Pending(w.node, g) !in s.issued)
      && (Current(s, w.node, g) && !s.closed ==> Queued(s, g) || (!w.phase.Ended? && !w.timer.Stopped?))
      && (Pending(w.node, g) in s.issued ==> w.timer.Fired? && w.phase.Ended? && g !in s.done)
  }

  /** Once a scheduling is not current, or the collector closed, its timer does not run any more and
      its watcher has left or is told to leave. */
  ghost predicate Tidy(s: State, g: nat)
  {
    g in s.watchers ==>
      var w := s.watchers[g];
      && (!Current(s, w.node, g) ==> !w.timer.Armed? && (w.phase.Ended? || g in s.done))
      && (s.closed ==> !w.timer.Armed?)
  }

  ghost predicate Known(s: State)
  {
    && (forall g :: g in s.watchers <==> 1 <= g <= s.gen)
    && (forall n :: n in s.entries ==> s.entries[n] in s.watchers && s.watchers[s.entries[n]].node == n)
    && (forall p :: p in s.issued ==> p.gen in s.watchers && s.watchers[p.gen].node == p.node)
    && (forall g :: g in s.done ==> g in s.watchers)
  }

  ghost predicate QueueOk(s: State)
  {
    && Buffered(s) <= CAPACITY && (s.held ==> s.queue != [])
    && (forall i :: 0 <= i < |s.queue| ==>
          s.queue[i].gen in s.watchers && s.watchers[s.queue[i].gen].node == s.queue[i].node)
    && (forall i, j :: 0 <= i < j < |s.queue| ==> s.queue[i].gen != s.queue[j].gen)
  }

  ghost predicate Inv(s: State) { Known(s) && QueueOk(s) && (forall g :: GenOk(s, g)) && forall g :: Tidy(s, g) }

  // ----- Every step keeps the invariant ------------------------------------------------

  predicate Internal(a: Action) { a.Expire? || a.Wake? || a.Quit? || a.Receive? || a.Exit? }

  lemma InternalKeepsKnown(s: State, a: Action)
    requires Known(s) && QueueOk(s) && Enabled(s, a) && Internal(a)
    ensures Known(Next(s, a))
  {
    match a
    case Expire(g) =>
    case Wake(g) =>
    case Quit(g) =>
    case Receive =>
    case Exit =>
  }

  lemma ReapKeepsKnown(s: State, n: NodeID)
    requires Known(s) && QueueOk(s)
    ensures Known(Reap(s, n))
  {
  }

  lemma ArmKeepsKnown(s: State, n: NodeID)
    requires Known(s) && QueueOk(s)
    ensures Known(Arm(s, n))
  {
  }

  lemma ScheduleKeepsKnown(s: State, n: NodeID)
    requires Known(s) && QueueOk(s)
    ensures Known(Next(s, Schedule(n)))
  {
    ReapKeepsKnown(s, n);
    ReapKeepsQueue(s, n);
    ArmKeepsKnown(Reap(s, n), n);
  }

  lemma CancelKeepsKnown(s: State, n: NodeID)
    requires Known(s) && QueueOk(s)
    ensures Known(Next(s, Cancel(n)))
  {
  }

  lemma CloseKeepsKnown(s: State)
    requires Known(s) && QueueOk(s)
    ensures Known(Next(s, Close))
  {
  }

  lemma EnqueueKeepsKnown(s: State, g: nat)
    requires Known(s) && QueueOk(s) && Enabled(s, Enqueue(g))
    ensures Known(Next(s, Enqueue(g)))
  {
  }

  lemma CheckKeepsKnown(s: State)
    requires Known(s) && QueueOk(s) && Enabled(s, Check)
    ensures Known(Next(s, Check))
  {
  }

  lemma InternalKeepsQueue(s: State, a: Action)
    requires Known(s) && QueueOk(s) && Enabled(s, a) && Internal(a)
    ensures QueueOk(Next(s, a))
  {
    match a
    case Expire(g) =>
    case Wake(g) =>
    case Quit(g) =>
    case Receive =>
    case Exit =>
  }

  lemma ReapKeepsQueue(s: State, n: NodeID)
    requires Known(s) && QueueOk(s)
    ensures QueueOk(Reap(s, n))
  {
  }

  lemma ArmKeepsQueue(s: State, n: NodeID)
    requires Known(s) && QueueOk(s)
    ensures QueueOk(Arm(s, n))
  {
  }

  lemma ScheduleKeepsQueue(s: State, n: NodeID)
    requires Known(s) && QueueOk(s)
    ensures QueueOk(Next(s, Schedule(n)))
  {
    ReapKeepsKnown(s, n);
    ReapKeepsQueue(s, n);
    ArmKeepsQueue(Reap(s, n), n);
  }

  lemma CancelKeepsQueue(s: State, n: NodeID)
    requires Known(s) && QueueOk(s)
    ensures QueueOk(Next(s, Cancel(n)))
  {
  }

  lemma CloseKeepsQueue(s: State)
    requires Known(s) && QueueOk(s)
    ensures QueueOk(Next(s, Close))
  {
  }

  lemma EnqueueKeepsQueue(s: State, g: nat)
    requires Known(s) && QueueOk(s) && GenOk(s, g) && Enabled(s, Enqueue(g))
    ensures QueueOk(Next(s, Enqueue(g)))
  {
  }

  lemma CheckKeepsQueue(s: State)
    requires Known(s) && QueueOk(s) && Enabled(s, Check)
    ensures QueueOk(Next(s, Check))
  {
  }

  lemma InternalKeepsGen(s: State, a: Action, x: nat)
    requires Known(s) && QueueOk(s) && GenOk(s, x) && Enabled(s, a) && Internal(a)
    ensures GenOk(Next(s, a), x)
  {
    match a
    case Expire(g) =>
    case Wake(g) =>
    case Quit(g) =>
    case Receive =>
    case Exit =>
  }

  lemma ScheduleKeepsGen(s: State, n: NodeID, x: nat)
    requires Known(s) && QueueOk(s) && GenOk(s, x)
    ensures GenOk(Next(s, Schedule(n)), x)
  {
    var s' := Next(s, Schedule(n));
    assert s'.queue == s.queue && s'.issued == s.issued;
    assert Queued(s', x) <==> Queued(s, x);
  }

  lemma CancelKeepsGen(s: State, n: NodeID, x: nat)
    requires Known(s) && QueueOk(s) && GenOk(s, x)
    ensures GenOk(Next(s, Cancel(n)), x)
  {
  }

  lemma CloseKeepsGen(s: State, x: nat)
    requires Known(s) && QueueOk(s) && GenOk(s, x)
    ensures GenOk(Next(s, Close), x)
  {
  }

  lemma EnqueueKeepsGen(s: State, g: nat, x: nat)
    requires Known(s) && QueueOk(s) && GenOk(s, x) && Enabled(s, Enqueue(g))
    ensures GenOk(Next(s, Enqueue(g)), x)
  {
    var s' := Next(s, Enqueue(g));
    assert s'.queue[|s.queue|].gen == g;
    assert forall i :: 0 <= i < |s.queue| ==> s'.queue[i] == s.queue[i];
  }

  lemma CheckKeepsGen(s: State, x: nat)
    requires Known(s) && QueueOk(s) && GenOk(s, x) && Enabled(s, Check)
    ensures GenOk(Next(s, Check), x)
  {
  }

  lemma NextKeepsKnown(s: State, a: Action)
    requires Known(s) && QueueOk(s) && Enabled(s, a)
    ensures Known(Next(s, a))
  {
    match a
    case Schedule(n) => ScheduleKeepsKnown(s, n);
    case Cancel(n) => CancelKeepsKnown(s, n);
    case Close => CloseKeepsKnown(s);
    case Enqueue(g) => EnqueueKeepsKnown(s, g);
    case Check => CheckKeepsKnown(s);
    case _ => InternalKeepsKnown(s, a);
  }

  lemma NextKeepsQueue(s: State, a: Action)
    requires Known(s) && QueueOk(s) && Enabled(s, a) && (a.Enqueue? ==> GenOk(s, a.g))
    ensures QueueOk(Next(s, a))
  {
    match a
    case Schedule(n) => ScheduleKeepsQueue(s, n);
    case Cancel(n) => CancelKeepsQueue(s, n);
    case Close => CloseKeepsQueue(s);
    case Enqueue(g) => EnqueueKeepsQueue(s, g);
    case Check => CheckKeepsQueue(s);
    case _ => InternalKeepsQueue(s, a);
  }

  lemma NextKeepsGen(s: State, a: Action, x: nat)
    requires Known(s) && QueueOk(s) && GenOk(s, x) && Enabled(s, a)
    ensures GenOk(Next(s, a), x)
  {
    match a
    case Schedule(n) => ScheduleKeepsGen(s, n, x);
    case Cancel(n) => CancelKeepsGen(s, n, x);
    case Close => CloseKeepsGen(s, x);
    case Enqueue(g) => EnqueueKeepsGen(s, g, x);
    case Check => CheckKeepsGen(s, x);
    case _ => InternalKeepsGen(s, a, x);
  }

  lemma ScheduleKeepsTidy(s: State, n: NodeID, x: nat)
    requires Known(s) && Tidy(s, x)
    ensures Tidy(Next(s, Schedule(n)), x)
  {
  }

  lemma CancelKeepsTidy(s: State, n: NodeID, x: nat)
    requires Known(s) && Tidy(s, x)
    ensures Tidy(Next(s, Cancel(n)), x)
  {
  }

  lemma CheckKeepsTidy(s: State, x: nat)
    requires Known(s) && GenOk(s, x) && Tidy(s, x) && Enabled(s, Check)
    ensures Tidy(Next(s, Check), x)
  {
    assert s.queue[0].gen == x ==> Queued(s, x);
  }

  lemma InternalKeepsTidy(s: State, a: Action, x: nat)
    requires Tidy(s, x) && Enabled(s, a) && (Internal(a) || a.Enqueue? || a.Close?)
    ensures Tidy(Next(s, a), x)
  {
    match a
    case Close =>
    case Expire(g) =>
    case Wake(g) =>
    case Enqueue(g) =>
    case Quit(g) =>
    case Receive =>
    case Exit =>
  }

  lemma NextKeepsTidy(s: State, a: Action, x: nat)
    requires Known(s) && GenOk(s, x) && Tidy(s, x) && Enabled(s, a)
    ensures Tidy(Next(s, a), x)
  {
    match a
    case Schedule(n) => ScheduleKeepsTidy(s, n, x);
    case Cancel(n) => CancelKeepsTidy(s, n, x);
    case Check => CheckKeepsTidy(s, x);
    case _ => InternalKeepsTidy(s, a, x);
  }

  lemma NextKeepsInv(s: State, a: Action)
    requires Inv(s) && Enabled(s, a)
    ensures Inv(Next(s, a))
  {
    forall x ensures Tidy(Next(s, a), x) { assert GenOk(s, x); NextKeepsTidy(s, a, x); }
    NextKeepsKnown(s, a);
    NextKeepsQueue(s, a);
    forall x ensures GenOk(Next(s, a), x) { NextKeepsGen(s, a, x); }
  }

  /** Nothing stale is deleted, nothing is deleted twice, nothing scheduled is lost, and nothing leaks. */
  lemma {:induction false} CollectorInvariant(run: Run)
    requires IsRun(run)
    ensures Inv(run.Last())
  {
    if run.Then? {
      CollectorInvariant(run.before);
      NextKeepsInv(run.before.Last(), run.action);
    }
  }

  // ----- Panics ------------------------------------------------------------------------

  function Closes(run: Run): nat
  {
    if run.Fresh? then 0 else Closes(run.before) + if run.action.Close? then 1 else 0
  }

  /** The only channel that can be closed twice is the collector's own: a history panics iff Close was
      called more than once. */
  lemma {:induction false} PanicsIffClosedTwice(run: Run)
    requires IsRun(run)
    ensures run.Last().panicked <==> Closes(run) >= 2
    ensures run.Last().closed <==> Closes(run) >= 1
  {
    if run.Then? {
      PanicsIffClosedTwice(run.before);
      CollectorInvariant(run.before);
      ReapNeverPanics(run.before.Last(), run.action);
    }
  }

  lemma ReapNeverPanics(s: State, a: Action)
    requires Inv(s) && Enabled(s, a)
    ensures Next(s, a).panicked <==> s.panicked || (a.Close? && s.closed)
    ensures Next(s, a).closed <==> s.closed || a.Close?
  {
    if (a.Schedule? || a.Cancel?) && a.node in s.entries { assert GenOk(s, s.entries[a.node]); }
  }

  // ----- Progress ----------------------------------------------------------------------

  /** The steps of timers, watchers and the open collector's consumer. */
  predicate Helpful(a: Action) { a.Expire? || a.Wake? || a.Enqueue? || a.Quit? || a.Receive? || a.Check? }

  ghost predicate CanAct(s: State) { exists a :: Helpful(a) && Enabled(s, a) }

  /** A sequence of helpful steps from a given state. */
  datatype Path = Here | Step(before: Path, a: Action, state: State)
  {
    function End(start: State): State { if Here? then start else state }

    function Length(): nat { if Here? then 0 else before.Length() + 1 }
  }

  ghost predicate IsPath(start: State, path: Path)
  {
    path.Step? ==>
      && IsPath(start, path.before) && Helpful(path.a) && Enabled(path.before.End(start), path.a)
      && path.state == Next(path.before.End(start), path.a)
  }

  /** The helpful steps a watcher and its timer have before them, the consumer's included. */
  function Weight(w: Watcher): nat
  {
    (if w.timer.Armed? then 1 else 0) + (if w.phase.Waiting? then 4 else if w.phase.Sending? then 3 else 0)
  }

  function WeightAt(ws: map<nat, Watcher>, g: nat): nat { if g in ws then Weight(ws[g]) else 0 }

  function Weights(ws: map<nat, Watcher>, n: nat): nat { if n == 0 then 0 else WeightAt(ws, n) + Weights(ws, n - 1) }

  lemma {:induction false} WeightsUpdate(ws: map<nat, Watcher>, n: nat, g: nat, w: Watcher)
    requires g in ws && 1 <= g
    ensures Weights(ws[g := w], n) == if g <= n then Weights(ws, n) - Weight(ws[g]) + Weight(w) else Weights(ws, n)
  {
    if n > 0 { WeightsUpdate(ws, n - 1, g, w); }
  }

  function StepsLeft(s: State): int { Weights(s.watchers, s.gen) + 2 * |s.queue| - if s.held then 1 else 0 }

  lemma HelpfulHelps(s: State, a: Action)
    requires Known(s) && QueueOk(s) && Helpful(a) && Enabled(s, a)
    ensures StepsLeft(Next(s, a)) < StepsLeft(s)
  {
    match a
    case Expire(g) => WeightsUpdate(s.watchers, s.gen, g, s.watchers[g].(timer := Fired));
    case Wake(g) => WeightsUpdate(s.watchers, s.gen, g, s.watchers[g].(phase := Sending));
    case Enqueue(g) => WeightsUpdate(s.watchers, s.gen, g, s.watchers[g].(phase := Ended));
    case Quit(g) => WeightsUpdate(s.watchers, s.gen, g, s.watchers[g].(phase := Ended));
    case Receive =>
    case Check =>
  }

  lemma CurrentCanAct(s: State, n: NodeID)
    requires Known(s) && QueueOk(s) && !s.closed && s.running && n in s.entries && GenOk(s, s.entries[n])
    ensures CanAct(s)
  {
    var g := s.entries[n];
    var w := s.watchers[g];
    var a := if s.held then Check else if s.queue != [] then Receive
             else if w.phase.Sending? then Enqueue(g) else if w.timer.Fired? then Wake(g) else Expire(g);
    assert s.queue == [] ==> !Queued(s, g);
    assert Helpful(a) && Enabled(s, a);
  }

  /** The deletion has been issued, or its scheduling is current and the collector open and running. */
  predicate OnItsWay(s: State, p: Pending)
  {
    p in s.issued || (Current(s, p.node, p.gen) && !s.closed && s.running)
  }

  lemma HelpfulKeepsOnItsWay(s: State, a: Action, p: Pending)
    requires OnItsWay(s, p) && Helpful(a) && Enabled(s, a)
    ensures OnItsWay(Next(s, a), p)
  {
  }

  lemma {:induction false} PathsAreShort(start: State, path: Path, p: Pending)
    requires Inv(start) && OnItsWay(start, p) && IsPath(start, path)
    ensures Inv(path.End(start)) && OnItsWay(path.End(start), p)
    ensures path.Length() + StepsLeft(path.End(start)) <= StepsLeft(start)
  {
    if path.Step? {
      var s := path.before.End(start);
      PathsAreShort(start, path.before, p);
      NextKeepsInv(s, path.a);
      HelpfulHelps(s, path.a);
      HelpfulKeepsOnItsWay(s, path.a, p);
    }
  }

  lemma StepConsumer(s: State, a: Action)
    requires Enabled(s, a)
    ensures Next(s, a).running == (s.running && !a.Exit?)
    ensures Next(s, a).held == (a.Receive? || (s.held && !a.Check?))
  {
    match a
    case Schedule(n) =>
    case Cancel(n) =>
    case Close =>
    case Expire(x) =>
    case Wake(x) =>
    case Enqueue(x) =>
    case Quit(x) =>
    case Receive =>
    case Check =>
    case Exit =>
  }

  /** The consumer leaves only after the collector was closed. */
  lemma {:induction false} OpenMeansRunning(run: Run)
    requires IsRun(run) && Closes(run) == 0
    ensures run.Last().running
  {
    if run.Then? {
      OpenMeansRunning(run.before);
      PanicsIffClosedTwice(run.before);
      StepConsumer(run.before.Last(), run.action);
    }
  }

  /** Neither a full channel nor anything else can keep a scheduled deletion back: while the collector is
      open, every sequence of timer, watcher and consumer steps is at most as long
      as a bound known beforehand, and one that cannot go on has issued the deletion. */
  lemma ScheduledGetsDeleted(run: Run, n: NodeID, path: Path)
    requires IsRun(run) && Closes(run) == 0 && n in run.Last().entries
    requires IsPath(run.Last(), path)
    ensures path.Length() <= StepsLeft(run.Last())
    ensures CanAct(path.End(run.Last())) || Pending(n, run.Last().entries[n]) in path.End(run.Last()).issued
  {
    var p := Pending(n, run.Last().entries[n]);
    CollectorInvariant(run);
    PanicsIffClosedTwice(run);
    OpenMeansRunning(run);
    PathsAreShort(run.Last(), path, p);
    var s := path.End(run.Last());
    assert QueueOk(s) ==> StepsLeft(s) >= 0;
    if p !in s.issued {
      assert GenOk(s, p.gen);
      CurrentCanAct(s, n);
    }
  }

  // ----- The collector -----------------------------------------------------------------

  lemma StopOne(s: State, rest: set<NodeID>, n: NodeID)
    requires Known(s) && n in rest && n in s.entries
    ensures var g, m := s.entries[n], StoppedExcept(s, rest);
            g in m && StoppedExcept(s, rest - {n}) == m[g := Stop(m[g])]
  {
  }

  /** The collector's methods, each under its mutex, and one round of the consumer. */
  class EphemeralGarbageCollector {
    var entries: map<NodeID, nat>
    var gen: nat
    var watchers: map<nat, Watcher>
    var done: multiset<nat>
    var queue: seq<Pending>
    var held: bool
    var closed: bool
    var running: bool
    var issued: multiset<Pending>
    var panicked: bool

    ghost function Value(): State
      reads this
    {
      State(entries, gen, watchers, done, queue, held, closed, running, issued, panicked)
    }

    constructor ()
      ensures Value() == START
    {
      entries, gen, watchers, done, queue := map[], 0, map[], multiset{}, [];
      held, closed, running, issued, panicked := false, false, true, multiset{}, false;
    }

    method CloseDone(g: nat)
      modifies this`done, this`panicked
      ensures done == old(done) + multiset{g} && panicked == (old(panicked) || g in old(done))
    {
      if g in done { panicked := true; }
      done := done + multiset{g};
    }

    method StopTimer(g: nat)
      modifies this`watchers
      ensures watchers == if g in old(watchers) then old(watchers)[g := Stop(old(watchers)[g])] else old(watchers)
    {
      if g in watchers && watchers[g].timer.Armed? { watchers := watchers[g := watchers[g].(timer := Stopped)]; }
    }

    method ReapEntry(n: NodeID)
      modifies this`watchers, this`done, this`panicked
      ensures Value() == Reap(old(Value()), n)
    {
      if n in entries {
        StopTimer(entries[n]);
        CloseDone(entries[n]);
      }
    }

    method Schedule(n: NodeID)
      modifies this
      ensures Value() == Next(old(Value()), Action.Schedule(n))
    {
      if closed { return; }
      ReapEntry(n);
      gen := gen + 1;
      entries := entries[n := gen];
      watchers := watchers[gen := Watcher(n, Armed, Waiting)];
    }

    method Cancel(n: NodeID)
      modifies this
      ensures Value() == Next(old(Value()), Action.Cancel(n))
    {
      ReapEntry(n);
      entries := entries - {n};
    }

    method StopAll()
      requires Known(Value())
      modifies this`watchers
      ensures watchers == StoppedExcept(old(Value()), {})
    {
      ghost var s := Value();
      var rest := entries.Keys;
      assert watchers == StoppedExcept(s, rest);
      while rest != {}
        invariant rest <= entries.Keys && watchers == StoppedExcept(s, rest)
      {
        var n :| n in rest;
        StopOne(s, rest, n);
        StopTimer(entries[n]);
        rest := rest - {n};
      }
    }

    method Close()
      requires Known(Value())
      modifies this
      ensures Value() == Next(old(Value()), Action.Close)
    {
      StopAll();
      if closed { panicked := true; }
      closed := true;
    }

    method IsScheduled(n: NodeID) returns (r: bool)
      ensures r <==> exists g :: Current(Value(), n, g)
    {
      assert n in entries ==> Current(Value(), n, entries[n]);
      return n in entries;
    }

    method ReceiveDue()
      requires Enabled(Value(), Receive)
      modifies this`held
      ensures Value() == Next(old(Value()), Receive)
    {
      held := true;
    }

    /** The consumer starts the deletion it has received, or drops it if it is stale. */
    method StartDue() returns (started: bool)
      requires Enabled(Value(), Check)
      modifies this
      ensures Value() == Next(old(Value()), Check)
      ensures started <==> Current(old(Value()), old(queue)[0].node, old(queue)[0].gen)
    {
      var p := queue[0];
      queue, held := queue[1..], false;
      if p.node !in entries || entries[p.node] != p.gen { return false; }
      entries := entries - {p.node};
      issued := issued + multiset{p};
      return true;
    }
  }
}
