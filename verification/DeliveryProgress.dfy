/**
 Nothing gets stuck: as long as every registered connection is ready, ticks and workers alone
 bring the entry to rest, with nothing pending, queued or in a worker's hands.
 */
module DeliveryProgress {
  import opened Basics
  import opened PeerTracking
  import opened Delivery
  import opened DeliveryOrder

  predicate AtRest(f: Flow) { f.pending == [] && f.queue == [] && f.jobs == map[] }

  predicate AllReady(n: Net) { forall c :: c in n.conns ==> c in n.ready }

  /** Steps of the batch ticker and the workers, whether or not connections take what they are offered. */
  predicate Helpful(a: Action)
  {
    match a
    case OnFeed(x) => x.Tick?
    case OnBundle(k, x) => true
    case OnChange(k, x) => true
    case _ => false
  }

  ghost predicate CanAct(id: NodeID, s: Entry) { exists a :: Helpful(a) && Able(id, s, a) }

  /** A sequence of helpful steps from a given state. */
  datatype Path = Here | Step(before: Path, a: Action, state: Entry)
  {
    function End(start: Entry): Entry { if Here? then start else state }

    function Length(): nat { if Here? then 0 else before.Length() + 1 }
  }

  ghost predicate IsPath(id: NodeID, start: Entry, path: Path)
  {
    path.Step? ==>
      && IsPath(id, start, path.before) && Helpful(path.a) && Able(id, path.before.End(start), path.a)
      && path.state == Next(id, path.before.End(start), path.a)
  }

  // ----- A measure ---------------------------------------------------------------------

  /** Changes not yet delivered or given up. */
  ghost function Left(f: Flow): nat { |Bundle(f) + f.pending| }

  /** Steps until the next change is settled, n bounding the connections. */
  function JobRank(j: Job, n: nat): nat
  {
    match j.stage
    case Waiting => n + if j.todo != [] then 4 else 10
    case Locked => if j.sending.Some? then |j.sending.value.targets| + 1 else n + if j.todo != [] then 3 else 9
    case Unlocked => n + 8
    case Requeued => n + 7
  }

  ghost function Rank(s: Entry): nat
  {
    var f, n := s.flow, |s.net.conns|;
    if f.queue != [] then n + (if f.queue[0] != [] then 5 else 11)
    else if f.jobs != map[] then var k :| k in f.jobs; JobRank(f.jobs[k], n)
    else n + 6
  }

  lemma RankOfJob(s: Entry, k: nat)
    requires OneBundle(s.flow) && k in s.flow.jobs
    ensures s.flow.jobs.Keys == {k} && Rank(s) == JobRank(s.flow.jobs[k], |s.net.conns|)
  {
  }

  /** Fewer changes left, or as many and closer to settling one. A step that settles a change leaves the
      worker between two changes. */
  ghost predicate Smaller(s': Entry, s: Entry)
  {
    && |s'.net.conns| <= |s.net.conns|
    && if Left(s'.flow) < Left(s.flow) then Rank(s') <= |s'.net.conns| + 11
       else Left(s'.flow) == Left(s.flow) && Rank(s') < Rank(s)
  }

  /** l rounds of m steps. */
  function Rounds(l: nat, m: nat): nat { if l == 0 then 0 else m + Rounds(l - 1, m) }

  lemma {:induction false} RoundsMonotone(l: nat, l': nat, m: nat, m': nat)
    requires l' <= l && m' <= m
    ensures Rounds(l', m') <= Rounds(l, m)
  {
    if l' > 0 { RoundsMonotone(l - 1, l' - 1, m, m'); }
  }

  ghost function MaxSteps(s: Entry): nat { Rounds(Left(s.flow), |s.net.conns| + 12) + Rank(s) }

  lemma SmallerBounds(s': Entry, s: Entry)
    requires Smaller(s', s)
    ensures MaxSteps(s') < MaxSteps(s)
  {
    var l, l', m, m' := Left(s.flow), Left(s'.flow), |s.net.conns| + 12, |s'.net.conns| + 12;
    RoundsMonotone(if l' < l then l - 1 else l, l', m, m');
  }

  lemma {:induction false} WithoutShorter(cs: seq<nat>, gone: set<nat>)
    ensures |Without(cs, gone)| <= |cs|
  {
    if cs != [] { WithoutShorter(cs[1..], gone); }
  }

  // ----- Every step gets closer --------------------------------------------------------

  lemma TickHelps(id: NodeID, s: Entry)
    requires OneBundle(s.flow) && s.flow.queue == [] && s.flow.jobs == map[] && s.flow.pending != []
    ensures Able(id, s, OnFeed(Tick)) && Smaller(Next(id, s, OnFeed(Tick)), s)
  {
    var f, f' := s.flow, NextFeed(s.flow, Tick);
    FeedMovesBundle(f, Tick);
    DedupeShorter(f.pending);
  }

  lemma {:induction false} DedupeShorter(items: seq<Item>)
    ensures |DedupeItems(items)| <= |items|
    ensures items != [] ==> DedupeItems(items) != []
  {
    if items != [] {
      DedupeShorter(items[..|items| - 1]);
      var init := items[..|items| - 1];
      if init == [] { assert !SeenPolicyItem(init); }
    }
  }

  lemma BundleHelps(id: NodeID, s: Entry, k: nat, a: BundleAct)
    requires OneBundle(s.flow) && BundleEnabled(s.flow, k, a)
    ensures Smaller(Next(id, s, OnBundle(k, a)), s)
  {
    BundleKeepsLine(s.flow, k, a);
    BundleKeepsOne(s.flow, k, a);
    var s' := Next(id, s, OnBundle(k, a));
    match a
    case Take => RankOfJob(s', k);
    case Lock => RankOfJob(s, k); RankOfJob(s', k);
    case Unlock => RankOfJob(s, k); RankOfJob(s', k);
    case Requeue => RankOfJob(s, k); RankOfJob(s', k);
    case Clear => RankOfJob(s, k); assert s'.flow.jobs == map[];
  }

  lemma ChangeHelps(id: NodeID, s: Entry, k: nat, a: ChangeAct)
    requires OneBundle(s.flow) && ChangeEnabled(id, s, k, a) && !a.Defer?
    ensures Smaller(Next(id, s, OnChange(k, a)), s)
  {
    ChangeKeepsOne(id, s, k, a);
    var s' := Next(id, s, OnChange(k, a));
    RankOfJob(s, k);
    RankOfJob(s', k);
    if a.Finish? { FinishMovesLine(id, s, k); } else { ChangeMovesLine(id, s, k, a); }
    if a.Begin? { WithoutShorter(s.net.conns, (set c | c in s.net.conns && c !in s.net.ready)); }
    if a.Finish? { WithoutShorter(s.net.conns, s.flow.jobs[k].sending.value.failed); }
  }

  lemma HelpfulKeepsReady(id: NodeID, s: Entry, a: Action)
    requires AllReady(s.net) && Able(id, s, a) && Helpful(a)
    ensures AllReady(Next(id, s, a).net)
  {
    match a
    case OnFeed(x) =>
    case OnBundle(k, x) =>
    case OnChange(k, x) =>
  }

  /** With every connection ready a worker never defers. */
  lemma NeverDefers(id: NodeID, s: Entry, k: nat, a: ChangeAct)
    requires AllReady(s.net) && ChangeEnabled(id, s, k, a)
    ensures !a.Defer?
  {
    assert s.net.conns != [] ==> s.net.conns[0] in s.net.ReadyConns();
  }

  /** Every helpful step gets closer to rest. */
  lemma HelpfulHelps(id: NodeID, s: Entry, a: Action)
    requires OneBundle(s.flow) && AllReady(s.net) && Helpful(a) && Able(id, s, a)
    ensures Smaller(Next(id, s, a), s)
  {
    match a
    case OnFeed(x) => TickHelps(id, s);
    case OnBundle(k, x) => BundleHelps(id, s, k, x);
    case OnChange(k, x) =>
      NeverDefers(id, s, k, x);
      ChangeHelps(id, s, k, x);
  }

  // ----- Something can always be done --------------------------------------------------

  lemma WorkerActs(id: NodeID, s: Entry, k: nat, w: Netmap) returns (a: ChangeAct)
    requires AllReady(s.net) && (AtChange(s.flow, k) || IsSending(s.flow, k))
    ensures ChangeEnabled(id, s, k, a)
  {
    if IsSending(s.flow, k) {
      a := if s.flow.jobs[k].sending.value.targets == [] then Finish else Put(true);
    } else if !NextOutcome(id, s, k, w).Respond? || s.net.conns == [] {
      a := Skip(w);
    } else {
      a := Begin(w);
      assert s.net.conns[0] in s.net.ReadyConns();
    }
  }

  lemma JobActs(id: NodeID, s: Entry, k: nat)
    requires OneBundle(s.flow) && AllReady(s.net) && k in s.flow.jobs
    ensures CanAct(id, s)
  {
    var j := s.flow.jobs[k];
    assert JobOk(s.flow, k) && s.flow.jobs.Keys == {k};
    if j.stage == Locked && (j.todo != [] || j.sending.Some?) {
      var x := WorkerActs(id, s, k, Netmap(true, true, true, true, {}, {}));
      assert Helpful(OnChange(k, x)) && Able(id, s, OnChange(k, x));
    } else {
      var x := match j.stage case Waiting => Lock case Locked => Unlock case Unlocked => Requeue case Requeued => Clear;
      assert Helpful(OnBundle(k, x)) && Able(id, s, OnBundle(k, x));
    }
  }

  lemma NotAtRestCanAct(id: NodeID, s: Entry)
    requires OneBundle(s.flow) && AllReady(s.net) && !AtRest(s.flow)
    ensures CanAct(id, s)
  {
    if s.flow.queue != [] {
      assert Helpful(OnBundle(0, Take)) && Able(id, s, OnBundle(0, Take));
    } else if s.flow.jobs != map[] {
      var k :| k in s.flow.jobs;
      JobActs(id, s, k);
    } else {
      assert Helpful(OnFeed(Tick)) && Able(id, s, OnFeed(Tick));
    }
  }

  lemma HelpfulStep(id: NodeID, s: Entry, a: Action)
    requires OneBundle(s.flow) && AllReady(s.net) && Helpful(a) && Able(id, s, a)
    ensures var s' := Next(id, s, a); OneBundle(s'.flow) && AllReady(s'.net) && MaxSteps(s') < MaxSteps(s)
  {
    HelpfulHelps(id, s, a);
    SmallerBounds(Next(id, s, a), s);
    NextKeepsOne(id, s, a);
    HelpfulKeepsReady(id, s, a);
  }

  lemma {:induction false} PathsAreShort(id: NodeID, start: Entry, path: Path)
    requires OneBundle(start.flow) && AllReady(start.net) && IsPath(id, start, path)
    ensures OneBundle(path.End(start).flow) && AllReady(path.End(start).net)
    ensures path.Length() + MaxSteps(path.End(start)) <= MaxSteps(start)
  {
    if path.Step? {
      PathsAreShort(id, start, path.before);
      HelpfulStep(id, path.before.End(start), path.a);
    }
  }

  /** Whatever happened before, once the connections of an entry are ready, ticks and workers bring it to
      rest whichever way they are scheduled: every sequence of their steps is at most as long as a bound
      known beforehand, and one that cannot go on has come to rest. No lock, flag or retry blocks them. */
  lemma NothingGetsStuck(id: NodeID, run: Run, path: Path)
    requires IsRun(id, run) && CleanStarts(run) && AllReady(run.Present().net) && IsPath(id, run.Present(), path)
    ensures path.Length() <= MaxSteps(run.Present())
    ensures CanAct(id, path.End(run.Present())) || AtRest(path.End(run.Present()).flow)
  {
    AtMostOneBundle(id, run);
    PathsAreShort(id, run.Present(), path);
    if !AtRest(path.End(run.Present()).flow) { NotAtRestCanAct(id, path.End(run.Present())); }
  }
}
