/**
 What the collector of ephemeral nodes has done, in terms of the calls and steps of its history alone:
 which nodes are scheduled, what is queued, and which deletions are issued and when.
 */
module CollectorHistory {
  import opened Basics
  import opened EphemeralGC

  // ----- Reading a history -------------------------------------------------------------

  /** The step is a scheduling that takes effect. */
  predicate Schedules(run: Run) { run.Then? && run.action.Schedule? && Closes(run.before) == 0 }

  function Schedulings(run: Run): nat
  {
    if run.Fresh? then 0 else Schedulings(run.before) + if Schedules(run) then 1 else 0
  }

  /** The node of the g-th scheduling. */
  function NodeOf(run: Run, g: nat): Option<NodeID>
  {
    if run.Fresh? then None
    else if Schedules(run) && Schedulings(run) == g then Some(run.action.node)
    else NodeOf(run.before, g)
  }

  /** The node's last scheduling, unless it was cancelled since. */
  function LastScheduling(run: Run, n: NodeID): Option<nat>
  {
    if run.Fresh? then None
    else if Schedules(run) && run.action.node == n then Some(Schedulings(run))
    else if run.action == Cancel(n) then None
    else LastScheduling(run.before, n)
  }

  /** The deletions queued and not yet looked at. */
  function Due(run: Run): seq<Pending>
  {
    if run.Fresh? then []
    else
      var before := Due(run.before);
      match run.action
      case Enqueue(g) =>
        var n := NodeOf(run.before, g);
        if n.Some? then before + [Pending(n.value, g)] else before
      case Check => if before != [] then before[1..] else []
      case _ => before
  }

  predicate Did(run: Run, a: Action) { run.Then? && (run.action == a || Did(run.before, a)) }

  /** The consumer has a deletion in hand. */
  predicate InHand(run: Run) { run.Then? && (run.action.Receive? || (!run.action.Check? && InHand(run.before))) }

  // ----- Single steps ------------------------------------------------------------------

  predicate TakesEffect(s: State, a: Action) { a.Schedule? && !s.closed }

  lemma ReapKeeps(s: State, n: NodeID, g: nat)
    ensures var s' := Reap(s, n);
            && s'.gen == s.gen && (g in s'.watchers <==> g in s.watchers)
            && (g in s.watchers ==> s'.watchers[g].node == s.watchers[g].node
                                    && (s'.watchers[g].timer.Fired? <==> s.watchers[g].timer.Fired?))
  {
  }

  lemma StepGenerations(s: State, a: Action, g: nat)
    requires Enabled(s, a)
    ensures var s' := Next(s, a);
            && s'.gen == (if TakesEffect(s, a) then s.gen + 1 else s.gen)
            && (g in s'.watchers <==> g in s.watchers || (TakesEffect(s, a) && g == s.gen + 1))
            && (g in s'.watchers ==>
                  s'.watchers[g].node == if TakesEffect(s, a) && g == s.gen + 1 then a.node else s.watchers[g].node)
  {
    match a
    case Schedule(n) => ReapKeeps(s, n, g);
    case Cancel(n) => ReapKeeps(s, n, g);
    case Close =>
    case Expire(x) =>
    case Wake(x) =>
    case Enqueue(x) =>
    case Quit(x) =>
    case Receive =>
    case Check =>
    case Exit =>
  }

  lemma StepTimer(s: State, a: Action, g: nat)
    requires s.gen + 1 !in s.watchers && Enabled(s, a) && g in Next(s, a).watchers
    ensures Next(s, a).watchers[g].timer.Fired? <==> a == Expire(g) || (g in s.watchers && s.watchers[g].timer.Fired?)
  {
    match a
    case Schedule(n) => ReapKeeps(s, n, g);
    case Cancel(n) => ReapKeeps(s, n, g);
    case Close =>
    case Expire(x) =>
    case Wake(x) =>
    case Enqueue(x) =>
    case Quit(x) =>
    case Receive =>
    case Check =>
    case Exit =>
  }

  /** The scheduling a node has after a step. */
  lemma StepEntry(s: State, a: Action, n: NodeID)
    requires Enabled(s, a)
    ensures var s' := Next(s, a);
            (if n in s'.entries then Some(s'.entries[n]) else None) ==
            if TakesEffect(s, a) && a.node == n then Some(s.gen + 1)
            else if a == Cancel(n) || n !in s.entries then None
            else if a.Check? && s.queue[0] == Pending(n, s.entries[n]) then None
            else Some(s.entries[n])
  {
    match a
    case Schedule(m) =>
    case Cancel(m) =>
    case Close =>
    case Expire(x) =>
    case Wake(x) =>
    case Enqueue(x) =>
    case Quit(x) =>
    case Receive =>
    case Check =>
    case Exit =>
  }

  lemma StepQueue(s: State, a: Action)
    requires Enabled(s, a)
    ensures Next(s, a).queue ==
            match a
            case Enqueue(g) => s.queue + [Pending(s.watchers[g].node, g)]
            case Check => s.queue[1..]
            case _ => s.queue
  {
    match a
    case Schedule(n) =>
    case Cancel(n) =>
    case Close =>
    case Expire(x) =>
    case Wake(x) =>
    case Enqueue(x) =>
    case Quit(x) =>
    case Receive =>
    case Check =>
    case Exit =>
  }

  lemma StepIssued(s: State, a: Action)
    requires Enabled(s, a)
    ensures Next(s, a).issued ==
            s.issued +
            if a.Check? && Current(s, s.queue[0].node, s.queue[0].gen) then multiset{s.queue[0]} else multiset{}
  {
    match a
    case Schedule(m) =>
    case Cancel(m) =>
    case Close =>
    case Expire(x) =>
    case Wake(x) =>
    case Enqueue(x) =>
    case Quit(x) =>
    case Receive =>
    case Check =>
    case Exit =>
  }

  // ----- The state follows -------------------------------------------------------------

  lemma {:induction false} GenerationsExact(run: Run, g: nat)
    requires IsRun(run)
    ensures run.Last().gen == Schedulings(run)
    ensures (g in run.Last().watchers <==> NodeOf(run, g).Some?)
    ensures g in run.Last().watchers ==> run.Last().watchers[g].node == NodeOf(run, g).value
  {
    if run.Then? {
      GenerationsExact(run.before, g);
      PanicsIffClosedTwice(run.before);
      StepGenerations(run.before.Last(), run.action, g);
    }
  }

  lemma {:induction false} ConsumerExact(run: Run)
    requires IsRun(run)
    ensures (run.Last().running <==> !Did(run, Exit)) && (run.Last().held <==> InHand(run))
  {
    if run.Then? {
      ConsumerExact(run.before);
      StepConsumer(run.before.Last(), run.action);
    }
  }

  /** Due deletions are looked at in the order their watchers queued them. */
  lemma {:induction false} QueueExact(run: Run)
    requires IsRun(run)
    ensures run.Last().queue == Due(run)
  {
    if run.Then? {
      QueueExact(run.before);
      StepQueue(run.before.Last(), run.action);
      if run.action.Enqueue? { GenerationsExact(run.before, run.action.g); }
    }
  }

  /** The scheduling, unless its deletion has been issued. */
  function Unless(s: State, n: NodeID, g: Option<nat>): Option<nat>
  {
    if g.Some? && Pending(n, g.value) !in s.issued then g else None
  }

  /** The node's last scheduling, unless it was cancelled, or its deletion issued. */
  function Outstanding(run: Run, n: NodeID): Option<nat>
  {
    Unless(run.Last(), n, LastScheduling(run, n))
  }

  lemma {:induction false} LastSchedulingKnown(run: Run, n: NodeID)
    requires IsRun(run)
    ensures LastScheduling(run, n).Some? ==> LastScheduling(run, n).value <= Schedulings(run)
  {
    if run.Then? { LastSchedulingKnown(run.before, n); }
  }

  predicate EntryIs(s: State, n: NodeID, g: Option<nat>)
  {
    (if n in s.entries then Some(s.entries[n]) else None) == g
  }

  lemma NewIsNotIssued(run: Run, n: NodeID)
    requires IsRun(run)
    ensures Pending(n, run.Last().gen + 1) !in run.Last().issued
  {
    CollectorInvariant(run);
  }

  /** One step, given the node's last scheduling before it. */
  lemma OutstandingStep(s: State, a: Action, n: NodeID, g: Option<nat>)
    requires Enabled(s, a) && EntryIs(s, n, Unless(s, n, g))
    requires Pending(n, s.gen + 1) !in s.issued && (g.Some? ==> g.value <= s.gen)
    ensures var g' := if TakesEffect(s, a) && a.node == n then Some(s.gen + 1) else if a == Cancel(n) then None else g;
            EntryIs(Next(s, a), n, Unless(Next(s, a), n, g'))
  {
    StepEntry(s, a, n);
    StepIssued(s, a);
  }

  /** In every history: a node is scheduled iff it has been scheduled while the collector was open, has not been
      cancelled since, and the deletion of that scheduling has not been issued. */
  lemma {:induction false} ScheduledIff(run: Run, n: NodeID)
    requires IsRun(run)
    ensures EntryIs(run.Last(), n, Outstanding(run, n))
  {
    if run.Then? {
      var s := run.before.Last();
      ScheduledIff(run.before, n);
      PanicsIffClosedTwice(run.before);
      GenerationsExact(run.before, 0);
      LastSchedulingKnown(run.before, n);
      NewIsNotIssued(run.before, n);
      OutstandingStep(s, run.action, n, LastScheduling(run.before, n));
    }
  }

  /** The step issues the deletion: the consumer looks at it, and its scheduling is the last one of the node, not
      cancelled or repeated since. */
  predicate Issues(run: Run, p: Pending)
  {
    run.Then? && run.action.Check? && Due(run.before) != [] && Due(run.before)[0] == p
    && LastScheduling(run.before, p.node) == Some(p.gen)
  }

  function TimesIssued(run: Run, p: Pending): nat
  {
    if run.Fresh? then 0 else TimesIssued(run.before, p) + if Issues(run, p) then 1 else 0
  }

  /** In every history a deletion is issued exactly by the steps above. */
  lemma {:induction false} IssuedExactly(run: Run, p: Pending)
    requires IsRun(run)
    ensures run.Last().issued[p] == TimesIssued(run, p)
  {
    if run.Then? {
      var s := run.before.Last();
      IssuedExactly(run.before, p);
      QueueExact(run.before);
      ScheduledIff(run.before, p.node);
      StepIssued(s, run.action);
      if run.action.Check? { QueuedNotIssued(run.before); }
    }
  }

  lemma QueuedNotIssued(run: Run)
    requires IsRun(run) && run.Last().queue != []
    ensures run.Last().queue[0] !in run.Last().issued
  {
    CollectorInvariant(run);
    var s := run.Last();
    assert GenOk(s, s.queue[0].gen) && Queued(s, s.queue[0].gen);
  }

  lemma {:induction false} ExpiredIff(run: Run, g: nat)
    requires IsRun(run)
    ensures Did(run, Expire(g)) <==> g in run.Last().watchers && run.Last().watchers[g].timer.Fired?
  {
    if run.Then? {
      ExpiredIff(run.before, g);
      CollectorInvariant(run.before);
      StepGenerations(run.before.Last(), run.action, g);
      if g in run.Last().watchers { StepTimer(run.before.Last(), run.action, g); }
    }
  }

  /** Each scheduling yields at most one deletion, and only after its timer has run out. */
  lemma IssuedOnceExpired(run: Run, p: Pending)
    requires IsRun(run)
    ensures TimesIssued(run, p) <= 1
    ensures TimesIssued(run, p) == 1 ==> NodeOf(run, p.gen) == Some(p.node) && Did(run, Expire(p.gen))
  {
    CollectorInvariant(run);
    IssuedExactly(run, p);
    ExpiredIff(run, p.gen);
    GenerationsExact(run, p.gen);
    assert GenOk(run.Last(), p.gen);
  }
}
