/**
 First-frame safety: no interleaving of additions, ticks and workers lets a delta overtake the
 initial map of a connection.
 */
module FirstFrame {
  import opened Basics
  import opened PeerTracking
  import opened Delivery

  // ----- The first frame is the initial map --------------------------------------------

  /** Something has been put on the channel, and it began with the initial map. */
  predicate Begun(n: Net, c: nat) { n.ChanOf(c) != [] && n.ChanOf(c)[0].Initial? }

  predicate ChannelOk(n: Net, c: nat)
  {
    && (n.ChanOf(c) != [] ==> c in n.phase && Begun(n, c))
    && (n.PhaseOf(c).Delivered? || n.PhaseOf(c).Recorded? || n.PhaseOf(c).Open? ==> Begun(n, c))
    && (c in n.ready ==> Begun(n, c))
    && (n.PhaseOf(c).Registered? || n.PhaseOf(c).Generated? ==> n.ChanOf(c) == [])
    && (forall i :: 1 <= i < |n.ChanOf(c)| ==> n.ChanOf(c)[i].Delta?)
  }

  ghost predicate ChannelsOk(n: Net) { forall c :: ChannelOk(n, c) }

  ghost predicate TargetsBegun(s: Entry)
  {
    forall k :: k in s.flow.jobs && s.flow.jobs[k].sending.Some? ==>
        AllBegun(s.net, s.flow.jobs[k].sending.value.targets)
  }

  ghost predicate AllBegun(n: Net, cs: seq<nat>)
  {
    forall i :: 0 <= i < |cs| ==> Begun(n, cs[i])
  }

  lemma ConnKeepsChannel(id: NodeID, n: Net, unlocked: bool, c: nat, a: ConnAct, x: nat)
    requires ChannelOk(n, x) && ConnEnabled(id, n, unlocked, c, a)
    ensures var n' := NextConn(id, n, unlocked, c, a);
            ChannelOk(n', x) && (Begun(n, x) ==> Begun(n', x))
  {
    match a
    case Register =>
    case GenerateInitial(w, record) =>
    case DeliverInitial =>
    case RecordInitial =>
    case OpenConn =>
    case AbortAdd =>
    case Disconnect =>
  }

  lemma ConnKeepsFirstFrames(id: NodeID, s: Entry, c: nat, a: ConnAct)
    requires ChannelsOk(s.net) && TargetsBegun(s) && Able(id, s, OnConn(c, a))
    ensures var s' := Next(id, s, OnConn(c, a)); ChannelsOk(s'.net) && TargetsBegun(s')
  {
    var s' := Next(id, s, OnConn(c, a));
    forall x ensures ChannelOk(s'.net, x) && (Begun(s.net, x) ==> Begun(s'.net, x))
    {
      assert ChannelOk(s.net, x);
      ConnKeepsChannel(id, s.net, s.flow.workMu.None?, c, a, x);
    }
  }

  lemma ReadyBegun(n: Net)
    requires ChannelsOk(n)
    ensures AllBegun(n, n.ReadyConns())
  {
    forall i | 0 <= i < |n.ReadyConns()| ensures Begun(n, n.ReadyConns()[i])
    {
      assert n.ReadyConns()[i] in n.ReadyConns();
      assert ChannelOk(n, n.ReadyConns()[i]);
    }
  }

  lemma PutKeepsFirstFrames(id: NodeID, s: Entry, k: nat, accept: bool)
    requires ChannelsOk(s.net) && TargetsBegun(s) && ChangeEnabled(id, s, k, Put(accept))
    ensures var s' := NextChange(id, s, k, Put(accept)); ChannelsOk(s'.net) && TargetsBegun(s')
  {
    var s' := NextChange(id, s, k, Put(accept));
    var targets := s.flow.jobs[k].sending.value.targets;
    assert AllBegun(s.net, targets) && Begun(s.net, targets[0]);
    forall x ensures ChannelOk(s'.net, x) && (Begun(s.net, x) ==> Begun(s'.net, x)) { assert ChannelOk(s.net, x); }
  }

  lemma FinishKeepsFirstFrames(id: NodeID, s: Entry, k: nat)
    requires ChannelsOk(s.net) && TargetsBegun(s) && ChangeEnabled(id, s, k, Finish)
    ensures var s' := NextChange(id, s, k, Finish); ChannelsOk(s'.net) && TargetsBegun(s')
  {
    forall x ensures ChannelOk(NextChange(id, s, k, Finish).net, x) { assert ChannelOk(s.net, x); }
  }

  lemma BeginKeepsFirstFrames(id: NodeID, s: Entry, k: nat, w: Netmap)
    requires ChannelsOk(s.net) && TargetsBegun(s) && ChangeEnabled(id, s, k, Begin(w))
    ensures var s' := NextChange(id, s, k, Begin(w)); s'.net == s.net && TargetsBegun(s')
  {
    ReadyBegun(s.net);
  }

  lemma ChangeKeepsFirstFrames(id: NodeID, s: Entry, k: nat, a: ChangeAct)
    requires ChannelsOk(s.net) && TargetsBegun(s) && ChangeEnabled(id, s, k, a)
    ensures var s' := NextChange(id, s, k, a); ChannelsOk(s'.net) && TargetsBegun(s')
  {
    match a
    case Put(accept) => PutKeepsFirstFrames(id, s, k, accept);
    case Begin(w) => BeginKeepsFirstFrames(id, s, k, w);
    case Skip(w) =>
    case Defer(w) =>
    case Finish => FinishKeepsFirstFrames(id, s, k);
  }

  lemma NextKeepsFirstFrames(id: NodeID, s: Entry, a: Action)
    requires ChannelsOk(s.net) && TargetsBegun(s) && Able(id, s, a)
    ensures var s' := Next(id, s, a); ChannelsOk(s'.net) && TargetsBegun(s')
  {
    match a
    case OnConn(c, x) => ConnKeepsFirstFrames(id, s, c, x);
    case OnFeed(x) =>
    case OnBundle(k, x) =>
    case OnChange(k, x) => ChangeKeepsFirstFrames(id, s, k, x);
  }

  ghost predicate EntryOk(s: Entry) { ChannelsOk(s.net) && TargetsBegun(s) }

  /** The first frame put on the channel of any connection, of the present entry or a deleted one, is
      that connection's initial map, and it is put there only once; deletions may come at any time. */
  lemma {:induction false} FirstFrameSafety(id: NodeID, run: Run)
    requires IsRun(id, run)
    ensures EntryOk(run.Last().now)
    ensures forall i :: 0 <= i < |run.Last().past| ==> EntryOk(run.Last().past[i])
  {
    if run.Then? {
      FirstFrameSafety(id, run.before);
      var w := run.before.Last();
      match run.event
      case Now(a) => NextKeepsFirstFrames(id, w.now, a);
      case Old(i, a) => NextKeepsFirstFrames(id, w.past[i], a);
      case Recreate(lost) =>
        assert EntryOk(w.now.(flow := w.now.flow.(queue := [])));
    }
  }
}
