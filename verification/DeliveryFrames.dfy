/**
 What is on the channels: every frame is what the mapper generated for its change, so no client is ever
 shown what it may not see; and what adding a connection amounts to.
 */
module DeliveryFrames {
  import opened Basics
  import opened Changes
  import opened PeerTracking
  import opened Responses
  import opened Delivery

  // ----- Where frames come from --------------------------------------------------------

  /** The change a frame is about. */
  function About(id: NodeID, x: Frame): Change { if x.Initial? then FullSelf(id) else x.item.change }

  predicate GeneratedFrom(id: NodeID, r: Change, resp: Response, tracked: set<NodeID>, w: Netmap)
  {
    Generate(id, tracked, w, r) == Respond(resp)
  }

  /** The response was generated for the change, from some record and what the mapper then read. */
  ghost predicate Genuine(id: NodeID, r: Change, resp: Response)
  {
    exists tracked, w :: GeneratedFrom(id, r, resp, tracked, w)
  }

  ghost predicate AllGenuine(id: NodeID, frames: seq<Frame>)
  {
    forall i :: 0 <= i < |frames| ==> Genuine(id, About(id, frames[i]), frames[i].resp)
  }

  ghost predicate ConnGenuine(id: NodeID, n: Net, c: nat)
  {
    && AllGenuine(id, n.ChanOf(c))
    && (n.PhaseOf(c).Generated? || n.PhaseOf(c).Delivered? ==> Genuine(id, FullSelf(id), n.PhaseOf(c).f))
  }

  ghost predicate JobGenuine(id: NodeID, j: Job)
  {
    j.sending.Some? ==> Genuine(id, j.sending.value.item.change, j.sending.value.resp)
  }

  ghost predicate EntryGenuine(id: NodeID, s: Entry)
  {
    (forall c :: ConnGenuine(id, s.net, c)) && forall k :: k in s.flow.jobs ==> JobGenuine(id, s.flow.jobs[k])
  }

  lemma ConnKeepsGenuine(id: NodeID, n: Net, unlocked: bool, c: nat, a: ConnAct, x: nat)
    requires ConnGenuine(id, n, x) && ConnEnabled(id, n, unlocked, c, a)
    ensures ConnGenuine(id, NextConn(id, n, unlocked, c, a), x)
  {
    match a
    case Register =>
    case GenerateInitial(w, record) =>
      assert GeneratedFrom(id, FullSelf(id), Generate(id, record, w, FullSelf(id)).resp, record, w);
    case DeliverInitial =>
    case RecordInitial =>
    case OpenConn =>
    case AbortAdd =>
    case Disconnect =>
  }

  lemma BeginIsGenuine(id: NodeID, s: Entry, k: nat, w: Netmap)
    requires ChangeEnabled(id, s, k, Begin(w))
    ensures JobGenuine(id, NextChange(id, s, k, Begin(w)).flow.jobs[k])
  {
    var x := s.flow.jobs[k].todo[0];
    assert GeneratedFrom(id, x.change, NextOutcome(id, s, k, w).resp, s.net.tracked, w);
  }

  lemma PutKeepsGenuine(id: NodeID, s: Entry, k: nat, accept: bool, c: nat)
    requires ChangeEnabled(id, s, k, Put(accept)) && ConnGenuine(id, s.net, c) && JobGenuine(id, s.flow.jobs[k])
    ensures ConnGenuine(id, NextChange(id, s, k, Put(accept)).net, c)
    ensures JobGenuine(id, NextChange(id, s, k, Put(accept)).flow.jobs[k])
  {
  }

  lemma ChangeKeepsGenuine(id: NodeID, s: Entry, k: nat, a: ChangeAct)
    requires EntryGenuine(id, s) && ChangeEnabled(id, s, k, a)
    ensures EntryGenuine(id, NextChange(id, s, k, a))
  {
    var s' := NextChange(id, s, k, a);
    assert JobGenuine(id, s.flow.jobs[k]);
    if a.Begin? { BeginIsGenuine(id, s, k, a.w); }
    forall c ensures ConnGenuine(id, s'.net, c)
    {
      assert ConnGenuine(id, s.net, c);
      if a.Put? { PutKeepsGenuine(id, s, k, a.accept, c); }
    }
    forall j | j in s'.flow.jobs ensures JobGenuine(id, s'.flow.jobs[j])
    {
      if j != k { assert s'.flow.jobs[j] == s.flow.jobs[j]; }
    }
  }

  lemma NextKeepsGenuine(id: NodeID, s: Entry, a: Action)
    requires EntryGenuine(id, s) && Able(id, s, a)
    ensures EntryGenuine(id, Next(id, s, a))
  {
    match a
    case OnConn(c, x) =>
      forall y ensures ConnGenuine(id, Next(id, s, a).net, y)
      {
        assert ConnGenuine(id, s.net, y);
        ConnKeepsGenuine(id, s.net, s.flow.workMu.None?, c, x, y);
      }
    case OnFeed(x) =>
    case OnBundle(k, x) =>
    case OnChange(k, x) => ChangeKeepsGenuine(id, s, k, x);
  }

  /** In every history, on every channel of the present entry and of deleted ones: each frame is the response the
      mapper generated for the frame's change, an initial map being the full update of the recipient. */
  lemma {:induction false} FramesGenuine(id: NodeID, run: Run)
    requires IsRun(id, run)
    ensures EntryGenuine(id, run.Last().now)
    ensures forall i :: 0 <= i < |run.Last().past| ==> EntryGenuine(id, run.Last().past[i])
  {
    if run.Then? {
      FramesGenuine(id, run.before);
      var w := run.before.Last();
      match run.event
      case Now(a) => NextKeepsGenuine(id, w.now, a);
      case Old(i, a) => NextKeepsGenuine(id, w.past[i], a);
      case Recreate(lost) => assert EntryGenuine(id, w.now.(flow := w.now.flow.(queue := [])));
    }
  }

  /** So whatever a client receives was visible to it when the frame was generated. */
  lemma ClientsSeeOnlyTheirs(id: NodeID, run: Run, c: nat, i: nat)
    requires IsRun(id, run) && i < |run.Present().net.ChanOf(c)|
    ensures var x := run.Present().net.ChanOf(c)[i];
            exists tracked, w :: GeneratedFrom(id, About(id, x), x.resp, tracked, w)
                                 && x.resp.patches <= w.visible && x.resp.changed <= w.visible
                                 && (x.resp.peers.Some? ==> x.resp.peers.value <= w.visible)
  {
    FramesGenuine(id, run);
    var x := run.Present().net.ChanOf(c)[i];
    assert ConnGenuine(id, run.Present().net, c) && Genuine(id, About(id, x), x.resp);
    var tracked, w :| GeneratedFrom(id, About(id, x), x.resp, tracked, w);
    NothingHiddenIsSent(id, tracked, w, About(id, x));
  }

  // ----- Adding a connection -----------------------------------------------------------

  /** The connection is added without interference. */
  ghost function Added(id: NodeID, s: Entry, c: nat, w: Netmap): (s': Entry)
    requires c !in s.net.phase && s.flow.workMu.None? && Generate(id, s.net.tracked, w, FullSelf(id)).Respond?
  {
    var s1 := Next(id, s, OnConn(c, Register));
    var s2 := Next(id, s1, OnConn(c, GenerateInitial(w, s1.net.tracked)));
    var s3 := Next(id, s2, OnConn(c, DeliverInitial));
    var s4 := Next(id, s3, OnConn(c, RecordInitial));
    Next(id, s4, OnConn(c, OpenConn))
  }

  /** The connection is registered, its initial map fails, and it is removed again. */
  ghost function AddFailed(id: NodeID, s: Entry, c: nat): (s': Entry)
    requires c !in s.net.phase
  {
    Next(id, Next(id, s, OnConn(c, Register)), OnConn(c, AbortAdd))
  }

  /** Added alone, a connection is last in the list, takes broadcasts, and has got exactly its initial map; the record
      is then the peers that map shows; and nothing else of the entry has changed. */
  lemma AdditionExact(id: NodeID, s: Entry, c: nat, w: Netmap)
    requires c !in s.net.phase && s.flow.workMu.None? && Generate(id, s.net.tracked, w, FullSelf(id)).Respond?
    ensures var s', resp := Added(id, s, c, w), Generate(id, s.net.tracked, w, FullSelf(id)).resp;
            && s'.flow == s.flow
            && s'.net.conns == s.net.conns + [c] && s'.net.ready == s.net.ready + {c}
            && s'.net.ChanOf(c) == [Initial(resp)] && resp.peers == Some(w.Rendered()) && resp.node
            && s'.net.tracked == w.Rendered()
            && forall o :: o != c ==> s'.net.ChanOf(o) == s.net.ChanOf(o) && s'.net.PhaseOf(o) == s.net.PhaseOf(o)
  {
    InitialMapSynchronises(id, s.net.tracked, w);
    ListShape(id, s.net.tracked, w, FullSelf(id));
  }

  /** If the initial map cannot be generated, the list of connections is what it was. */
  lemma FailedAdditionExact(id: NodeID, s: Entry, c: nat)
    requires c !in s.net.phase && c !in s.net.conns
    ensures var s' := AddFailed(id, s, c);
            && s'.flow == s.flow && s'.net.conns == s.net.conns && s'.net.ready == s.net.ready
            && s'.net.tracked == s.net.tracked && s'.net.ChanOf(c) == []
  {
    WithoutLast(s.net.conns, c);
  }

  lemma {:induction false} WithoutLast(cs: seq<nat>, c: nat)
    requires c !in cs
    ensures Without(cs + [c], {c}) == cs
  {
    if cs == [] {
      assert ([] + [c])[1..] == [];
    } else {
      assert (cs + [c])[1..] == cs[1..] + [c] && cs == [cs[0]] + cs[1..];
      WithoutLast(cs[1..], c);
    }
  }
}
