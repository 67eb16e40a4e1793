/**
 Several connections of one entry: which of the changes delivered since a connection's initial map
 was generated are on its channel, and which it has missed.
 */
module DeliveryConnections {
  import opened Basics
  import opened PeerTracking
  import opened Delivery

  // ----- The lock ----------------------------------------------------------------------

  /** Only the worker that holds the entry's lock has a response on its way. */
  ghost predicate LockOk(f: Flow)
  {
    && (f.workMu.Some? ==> f.workMu.value in f.jobs)
    && forall k :: k in f.jobs ==> LockOkAt(f, k)
  }

  predicate LockOkAt(f: Flow, k: nat)
    requires k in f.jobs
  {
    (f.jobs[k].stage == Locked <==> f.workMu == Some(k)) && (f.jobs[k].sending.Some? ==> f.jobs[k].stage == Locked)
  }

  function Current(f: Flow): Option<Sending>
  {
    if f.workMu.Some? && f.workMu.value in f.jobs then f.jobs[f.workMu.value].sending else None
  }

  lemma BundleKeepsLock(f: Flow, k: nat, a: BundleAct)
    requires LockOk(f) && BundleEnabled(f, k, a)
    ensures LockOk(NextBundle(f, k, a)) && Current(NextBundle(f, k, a)) == Current(f)
  {
    match a
    case Take =>
    case Lock =>
    case Unlock =>
    case Requeue =>
    case Clear =>
  }

  lemma ChangeKeepsLock(id: NodeID, s: Entry, k: nat, a: ChangeAct)
    requires LockOk(s.flow) && ChangeEnabled(id, s, k, a)
    ensures var f' := NextChange(id, s, k, a).flow;
            && LockOk(f') && f'.workMu == Some(k) && k in f'.jobs && Current(f') == f'.jobs[k].sending
            && Current(s.flow) == s.flow.jobs[k].sending
  {
    match a
    case Skip(w) =>
    case Defer(w) =>
    case Begin(w) =>
    case Put(accept) =>
    case Finish =>
  }

  // ----- Connections -------------------------------------------------------------------

  predicate Adding(p: Phase) { p.Registered? || p.Generated? || p.Delivered? || p.Recorded? }

  /** A listed connection is being added or open; one that is ready has been opened, and every open one
      is ready. Nothing is put on a channel before the initial map. */
  predicate ConnFit(n: Net, c: nat)
  {
    && (c in n.conns ==> c in n.phase && !n.phase[c].Gone?)
    && (c in n.ready ==> c in n.phase && !Adding(n.phase[c]))
    && (n.PhaseOf(c).Open? ==> c in n.ready)
    && (n.PhaseOf(c).Registered? || n.PhaseOf(c).Generated? ==> n.ChanOf(c) == [])
    && (n.PhaseOf(c).Delivered? ==> n.ChanOf(c) == [Initial(n.phase[c].f)])
  }

  ghost predicate NetFit(n: Net) { NoDuplicates(n.conns) && forall c :: ConnFit(n, c) }

  /** A connection of the snapshot is still to be offered the response, has failed, or has taken it. */
  predicate SendFitAt(n: Net, d: Sending, c: nat)
  {
    && (c in d.snapshot <==> c in d.targets || c in d.failed || c in d.taken)
    && !(c in d.targets && c in d.failed) && !(c in d.targets && c in d.taken) && !(c in d.failed && c in d.taken)
    && (c in d.snapshot ==> c in n.ready)
  }

  ghost predicate SendFit(n: Net, d: Option<Sending>)
  {
    d.Some? ==> NoDuplicates(d.value.targets) && forall c :: SendFitAt(n, d.value, c)
  }

  ghost predicate Fit(s: Entry) { LockOk(s.flow) && NetFit(s.net) && SendFit(s.net, Current(s.flow)) }

  lemma {:induction false} WithoutNoDuplicates(cs: seq<nat>, gone: set<nat>)
    requires NoDuplicates(cs)
    ensures NoDuplicates(Without(cs, gone))
  {
    if cs != [] {
      WithoutNoDuplicates(cs[1..], gone);
      assert cs[0] !in cs[1..];
    }
  }

  lemma ConnKeepsFitAt(id: NodeID, n: Net, unlocked: bool, c: nat, a: ConnAct, x: nat)
    requires ConnFit(n, x) && ConnFit(n, c) && ConnEnabled(id, n, unlocked, c, a)
    ensures ConnFit(NextConn(id, n, unlocked, c, a), x)
  {
    match a
    case Register =>
    case GenerateInitial(w, record) =>
    case DeliverInitial =>
    case RecordInitial =>
    case OpenConn =>
    case AbortAdd =>
    case Disconnect =>
  }

  lemma ConnKeepsNetFit(id: NodeID, n: Net, unlocked: bool, c: nat, a: ConnAct)
    requires NetFit(n) && ConnEnabled(id, n, unlocked, c, a)
    ensures var n' := NextConn(id, n, unlocked, c, a); NetFit(n') && n.ready <= n'.ready
  {
    var n' := NextConn(id, n, unlocked, c, a);
    assert ConnFit(n, c);
    forall x ensures ConnFit(n', x) { assert ConnFit(n, x); ConnKeepsFitAt(id, n, unlocked, c, a, x); }
    if a.AbortAdd? || a.Disconnect? { WithoutNoDuplicates(n.conns, {c}); }
  }

  // ----- One delivery ------------------------------------------------------------------

  function AfterPut(d: Sending, accept: bool): Sending
    requires d.targets != []
  {
    if accept then d.(targets := d.targets[1..], taken := d.taken + {d.targets[0]})
    else d.(targets := d.targets[1..], failed := d.failed + {d.targets[0]})
  }

  function PutFrame(n: Net, d: Sending, accept: bool): Net
    requires d.targets != []
  {
    if accept then n.(chan := n.chan[d.targets[0] := n.ChanOf(d.targets[0]) + [Delta(d.item, d.resp)]]) else n
  }

  lemma PutIs(id: NodeID, s: Entry, k: nat, accept: bool)
    requires ChangeEnabled(id, s, k, Put(accept))
    ensures var d, s' := s.flow.jobs[k].sending.value, NextChange(id, s, k, Put(accept));
            s'.net == PutFrame(s.net, d, accept) && s'.flow.jobs[k].sending == Some(AfterPut(d, accept))
  {
  }

  lemma PutKeepsFit(n: Net, d: Sending, accept: bool)
    requires NetFit(n) && SendFit(n, Some(d)) && d.targets != []
    ensures NetFit(PutFrame(n, d, accept)) && SendFit(PutFrame(n, d, accept), Some(AfterPut(d, accept)))
  {
    var n', d', t := PutFrame(n, d, accept), AfterPut(d, accept), d.targets[0];
    assert t !in d.targets[1..];
    assert SendFitAt(n, d, t) && ConnFit(n, t);
    forall x ensures ConnFit(n', x) { assert ConnFit(n, x); }
    forall x ensures SendFitAt(n', d', x) { assert SendFitAt(n, d, x); }
  }

  lemma BeginKeepsFit(id: NodeID, s: Entry, k: nat, w: Netmap)
    requires NetFit(s.net) && ChangeEnabled(id, s, k, Begin(w))
    ensures var s' := NextChange(id, s, k, Begin(w)); s'.net == s.net && SendFit(s.net, s'.flow.jobs[k].sending)
  {
    WithoutNoDuplicates(s.net.conns, (set c | c in s.net.conns && c !in s.net.ready));
  }

  lemma FinishKeepsFit(id: NodeID, s: Entry, k: nat)
    requires NetFit(s.net) && ChangeEnabled(id, s, k, Finish)
    ensures NetFit(NextChange(id, s, k, Finish).net)
  {
    var n, n' := s.net, NextChange(id, s, k, Finish).net;
    WithoutNoDuplicates(n.conns, s.flow.jobs[k].sending.value.failed);
    forall x ensures ConnFit(n', x) { assert ConnFit(n, x); }
  }

  lemma ChangeKeepsFit(id: NodeID, s: Entry, k: nat, a: ChangeAct)
    requires Fit(s) && ChangeEnabled(id, s, k, a)
    ensures Fit(NextChange(id, s, k, a))
  {
    ChangeKeepsLock(id, s, k, a);
    match a
    case Skip(w) =>
    case Defer(w) =>
    case Begin(w) => BeginKeepsFit(id, s, k, w);
    case Put(accept) =>
      PutIs(id, s, k, accept);
      PutKeepsFit(s.net, s.flow.jobs[k].sending.value, accept);
    case Finish => FinishKeepsFit(id, s, k);
  }

  lemma SendFitGrows(n: Net, n': Net, d: Option<Sending>)
    requires SendFit(n, d) && n.ready <= n'.ready
    ensures SendFit(n', d)
  {
    if d.Some? {
      forall c ensures SendFitAt(n', d.value, c) { assert SendFitAt(n, d.value, c); }
    }
  }

  lemma ConnKeepsFit(id: NodeID, s: Entry, c: nat, a: ConnAct)
    requires Fit(s) && ConnEnabled(id, s.net, s.flow.workMu.None?, c, a)
    ensures Fit(s.(net := NextConn(id, s.net, s.flow.workMu.None?, c, a)))
  {
    ConnKeepsNetFit(id, s.net, s.flow.workMu.None?, c, a);
    SendFitGrows(s.net, NextConn(id, s.net, s.flow.workMu.None?, c, a), Current(s.flow));
  }

  lemma FeedKeepsLock(f: Flow, a: FeedAct)
    requires LockOk(f) && FeedEnabled(f, a)
    ensures LockOk(NextFeed(f, a)) && Current(NextFeed(f, a)) == Current(f)
  {
    forall k | k in f.jobs ensures LockOkAt(NextFeed(f, a), k) { assert LockOkAt(f, k); }
  }

  lemma NextKeepsFit(id: NodeID, s: Entry, a: Action)
    requires Fit(s) && Able(id, s, a)
    ensures Fit(Next(id, s, a))
  {
    match a
    case OnConn(c, x) => ConnKeepsFit(id, s, c, x);
    case OnFeed(x) => FeedKeepsLock(s.flow, x);
    case OnBundle(k, x) => BundleKeepsLock(s.flow, k, x);
    case OnChange(k, x) => ChangeKeepsFit(id, s, k, x);
  }

  lemma {:induction false} AlwaysFit(id: NodeID, run: Run)
    requires IsRun(id, run)
    ensures Fit(run.Present())
  {
    if run.Then? {
      AlwaysFit(id, run.before);
      if run.event.Now? { NextKeepsFit(id, run.before.Present(), run.event.a); }
    }
  }

  // ----- What a connection has missed --------------------------------------------------

  /** The changes on a channel. */
  function Deltas(frames: seq<Frame>): seq<Item>
  {
    if frames == [] then []
    else
      var init, last := frames[..|frames| - 1], frames[|frames| - 1];
      if last.Delta? then Deltas(init) + [last.item] else Deltas(init)
  }

  lemma DeltasAppend(frames: seq<Frame>, x: Frame)
    ensures Deltas(frames + [x]) == if x.Delta? then Deltas(frames) + [x.item] else Deltas(frames)
  {
    assert (frames + [x])[..|frames|] == frames;
  }

  /** What happened since the connection's initial map was generated: the changes delivered to the node,
      those whose broadcast left the connection out, those whose broadcast did not; how many broadcasts
      began while the connection was being added, and how many of those nobody took. */
  datatype Tally = Tally(sent: seq<Item>, missed: seq<Item>, offered: seq<Item>, begun: nat, vain: nat)

  const NO_TALLY := Tally([], [], [], 0, 0)

  predicate IsBegin(e: Event) { e.Now? && e.a.OnChange? && e.a.change.Begin? }

  predicate IsFinish(s: Entry, e: Event) { e.Now? && e.a.OnChange? && e.a.change.Finish? && IsSending(s.flow, e.a.k) }

  function NextTally(t: Tally, s: Entry, e: Event, c: nat): Tally
  {
    if e.Recreate? then NO_TALLY
    else if e.Now? && e.a.OnConn? && e.a.c == c && (e.a.conn.Register? || e.a.conn.GenerateInitial?) then NO_TALLY
    else if IsBegin(e) && Adding(s.net.PhaseOf(c)) then t.(begun := t.begun + 1)
    else if IsFinish(s, e) then Settled(t, s.flow.jobs[e.a.k].sending.value, c)
    else t
  }

  /** A broadcast has come to its end. */
  function Settled(t: Tally, d: Sending, c: nat): Tally
  {
    if d.Ok() then
      if c in d.snapshot then t.(sent := t.sent + [d.item], offered := t.offered + [d.item])
      else t.(sent := t.sent + [d.item], missed := t.missed + [d.item])
    else if c in d.snapshot then t else t.(vain := t.vain + 1)
  }

  function TallyOf(run: Run, c: nat): Tally
  {
    if run.Fresh? then NO_TALLY else NextTally(TallyOf(run.before, c), run.before.Present(), run.event, c)
  }

  /** The connection is listed and its initial map has been generated. */
  predicate Started(n: Net, c: nat) { c in n.conns && !n.PhaseOf(c).Registered? }

  ghost predicate TallyOk(n: Net, d: Option<Sending>, t: Tally, c: nat)
  {
    Started(n, c) ==>
      && t.sent == t.missed + t.offered
      && Deltas(n.ChanOf(c)) == (if d.Some? && c in d.value.taken then t.offered + [d.value.item] else t.offered)
      && (!n.PhaseOf(c).Open? ==> t.offered == [])
      && (t.offered != [] && d.Some? ==> c in d.value.snapshot)
      && t.begun == |t.missed| + t.vain + (if d.Some? && c !in d.value.snapshot then 1 else 0)
  }

  lemma ConnKeepsTally(id: NodeID, s: Entry, x: nat, a: ConnAct, t: Tally, c: nat)
    requires Fit(s) && Enabled(id, s, OnConn(x, a)) && TallyOk(s.net, Current(s.flow), t, c)
    ensures TallyOk(Next(id, s, OnConn(x, a)).net, Current(s.flow), NextTally(t, s, Now(OnConn(x, a)), c), c)
  {
    var n, d := s.net, Current(s.flow);
    assert ConnFit(n, c);
    if d.Some? { assert SendFitAt(n, d.value, c); }
    match a
    case Register =>
    case GenerateInitial(w, record) =>
    case DeliverInitial => if x == c { DeltasAppend(n.ChanOf(c), Initial(n.PhaseOf(c).f)); }
    case RecordInitial =>
    case OpenConn =>
    case AbortAdd =>
    case Disconnect =>
  }

  lemma PutKeepsTally(n: Net, d: Sending, accept: bool, t: Tally, c: nat)
    requires d.targets != [] && SendFitAt(n, d, c) && TallyOk(n, Some(d), t, c)
    ensures TallyOk(PutFrame(n, d, accept), Some(AfterPut(d, accept)), t, c)
  {
    var n', d' := PutFrame(n, d, accept), AfterPut(d, accept);
    if accept && c == d.targets[0] {
      DeltasAppend(n.ChanOf(c), Delta(d.item, d.resp));
      assert c !in d.taken && c in d'.taken;
    } else {
      assert n'.ChanOf(c) == n.ChanOf(c) && (c in d'.taken <==> c in d.taken);
    }
  }

  lemma BeginKeepsTally(id: NodeID, s: Entry, k: nat, w: Netmap, t: Tally, c: nat)
    requires NetFit(s.net) && ChangeEnabled(id, s, k, Begin(w)) && TallyOk(s.net, None, t, c)
    ensures var s' := NextChange(id, s, k, Begin(w));
            TallyOk(s'.net, s'.flow.jobs[k].sending, NextTally(t, s, Now(OnChange(k, Begin(w))), c), c)
  {
    assert ConnFit(s.net, c);
  }

  lemma FinishKeepsTally(id: NodeID, s: Entry, k: nat, t: Tally, c: nat)
    requires NetFit(s.net) && ChangeEnabled(id, s, k, Finish)
    requires SendFit(s.net, s.flow.jobs[k].sending) && TallyOk(s.net, s.flow.jobs[k].sending, t, c)
    ensures var d := s.flow.jobs[k].sending.value;
            TallyOk(NextChange(id, s, k, Finish).net, None, Settled(t, d, c), c)
  {
    var d := s.flow.jobs[k].sending.value;
    assert SendFitAt(s.net, d, c) && ConnFit(s.net, c);
    if Started(s.net, c) && c !in d.snapshot && d.Ok() { assert t.missed + [] + [d.item] == t.missed + [d.item] + []; }
    assert t.missed + (t.offered + [d.item]) == (t.missed + t.offered) + [d.item];
  }

  lemma ChangeKeepsTally(id: NodeID, s: Entry, k: nat, a: ChangeAct, t: Tally, c: nat)
    requires Fit(s) && ChangeEnabled(id, s, k, a) && TallyOk(s.net, Current(s.flow), t, c)
    ensures var s' := NextChange(id, s, k, a);
            TallyOk(s'.net, Current(s'.flow), NextTally(t, s, Now(OnChange(k, a)), c), c)
  {
    ChangeKeepsLock(id, s, k, a);
    match a
    case Skip(w) =>
    case Defer(w) =>
    case Begin(w) => BeginKeepsTally(id, s, k, w, t, c);
    case Put(accept) =>
      PutIs(id, s, k, accept);
      assert SendFitAt(s.net, s.flow.jobs[k].sending.value, c);
      PutKeepsTally(s.net, s.flow.jobs[k].sending.value, accept, t, c);
    case Finish => FinishKeepsTally(id, s, k, t, c);
  }

  lemma NextKeepsTally(id: NodeID, s: Entry, a: Action, t: Tally, c: nat)
    requires Fit(s) && Enabled(id, s, a) && TallyOk(s.net, Current(s.flow), t, c)
    ensures var s' := Next(id, s, a); TallyOk(s'.net, Current(s'.flow), NextTally(t, s, Now(a), c), c)
  {
    match a
    case OnConn(x, y) => ConnKeepsTally(id, s, x, y, t, c);
    case OnFeed(x) =>
    case OnBundle(k, x) => BundleKeepsLock(s.flow, k, x);
    case OnChange(k, x) => ChangeKeepsTally(id, s, k, x, t, c);
  }

  lemma {:induction false} TallyInvariant(id: NodeID, run: Run, c: nat)
    requires IsRun(id, run)
    ensures TallyOk(run.Present().net, Current(run.Present().flow), TallyOf(run, c), c)
  {
    if run.Then? {
      TallyInvariant(id, run.before, c);
      AlwaysFit(id, run.before);
      if run.event.Now? { NextKeepsTally(id, run.before.Present(), run.event.a, TallyOf(run.before, c), c); }
    }
  }

  lemma TallyAtRest(n: Net, t: Tally, c: nat)
    requires Started(n, c) && TallyOk(n, None, t, c)
    ensures var got := Deltas(n.ChanOf(c));
            && t.sent == t.missed + got && |t.missed| == t.begun - t.vain
            && (got == t.sent <==> t.begun == t.vain)
  {
    if t.missed == [] { assert t.sent == t.offered; }
    if t.offered == t.sent { assert |t.sent| == |t.missed| + |t.offered|; }
  }

  /** In every history, for every connection in use and no response on its way: the changes delivered to
      the node since the connection's initial map was generated are those it missed followed by those on
      its channel. It misses one change for each broadcast that began while it was being added and that
      somebody took; so it misses nothing iff there was none. */
  lemma MissesNothingIff(id: NodeID, run: Run, c: nat)
    requires IsRun(id, run) && Started(run.Present().net, c) && Current(run.Present().flow).None?
    ensures var t, got := TallyOf(run, c), Deltas(run.Present().net.ChanOf(c));
            && t.sent == t.missed + got && |t.missed| == t.begun - t.vain
            && (got == t.sent <==> t.begun == t.vain)
  {
    TallyInvariant(id, run, c);
    TallyAtRest(run.Present().net, TallyOf(run, c), c);
  }

  /** A broadcast leaves a listed connection out iff it began while the connection was being added. */
  lemma LeftOutIff(id: NodeID, run: Run, k: nat, w: Netmap, c: nat)
    requires IsRun(id, run) && ChangeEnabled(id, run.Present(), k, Begin(w)) && c in run.Present().net.conns
    ensures var s := run.Present();
            c !in NextChange(id, s, k, Begin(w)).flow.jobs[k].sending.value.snapshot <==> Adding(s.net.PhaseOf(c))
  {
    AlwaysFit(id, run);
    assert ConnFit(run.Present().net, c);
  }
}
