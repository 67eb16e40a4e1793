/**
 The connections of one node as the batcher's workers drive them: snapshotting the ready ones,
 broadcasting, dropping those that fail, recording sent peers, and processing a bundle. The methods
 are proved against functions on values, and those are proved to be runs of the delivery protocol.
 */
module NodeConns {
  import opened Basics
  import opened Changes
  import opened PeerTracking
  import opened Delivery

  datatype Status = NothingToSend | GenerateFailed | NoActive | NotReady | AllFailed | Sent

  /** The connections, and those whose owning session has been stopped. */
  datatype Link = Link(net: Net, closed: set<nat>)

  function PutOn(chan: map<nat, seq<Frame>>, c: nat, x: Frame): map<nat, seq<Frame>>
  {
    chan[c := (if c in chan then chan[c] else []) + [x]]
  }

  /** The channels after the frame has been put on each of the given ones. */
  function DeliverAll(chan: map<nat, seq<Frame>>, cs: seq<nat>, x: Frame): map<nat, seq<Frame>>
    decreases |cs|
  {
    if cs == [] then chan else DeliverAll(PutOn(chan, cs[0], x), cs[1..], x)
  }

  lemma {:induction false} DeliverAppend(chan: map<nat, seq<Frame>>, cs: seq<nat>, c: nat, x: Frame)
    ensures DeliverAll(chan, cs + [c], x) == PutOn(DeliverAll(chan, cs, x), c, x)
    decreases |cs|
  {
    if cs == [] {
      assert ([] + [c])[1..] == [];
    } else {
      assert (cs + [c])[1..] == cs[1..] + [c];
      DeliverAppend(PutOn(chan, cs[0], x), cs[1..], c, x);
    }
  }

  /** Broadcasting a frame when the connections in refuse do not take it. */
  function Broadcast(l: Link, x: Frame, refuse: set<nat>): Link
  {
    var n := l.net;
    Link(n.(conns := Without(n.conns, FailedConns(l, refuse)),
            chan := DeliverAll(n.chan, Without(n.ReadyConns(), refuse + l.closed), x)),
         l.closed + FailedConns(l, refuse))
  }

  function Refusing(cs: seq<nat>, refuse: set<nat>): set<nat> { set c | c in cs && c in refuse }

  function FailedConns(l: Link, refuse: set<nat>): set<nat>
  {
    Refusing(l.net.ReadyConns(), refuse + l.closed)
  }

  function SendStatus(l: Link, refuse: set<nat>): Status
  {
    if l.net.conns == [] then NoActive
    else if l.net.ReadyConns() == [] then NotReady
    else if Without(l.net.ReadyConns(), refuse + l.closed) == [] then AllFailed
    else Sent
  }

  function HandleStatus(id: NodeID, l: Link, w: Netmap, refuse: set<nat>, x: Item): Status
  {
    match Generate(id, l.net.tracked, w, x.change)
    case Nothing => NothingToSend
    case Failed => GenerateFailed
    case Respond(resp) => SendStatus(l, refuse)
  }

  /** Peers are recorded only if somebody got the frame. */
  function Handle(id: NodeID, l: Link, w: Netmap, refuse: set<nat>, x: Item): Link
  {
    var out := Generate(id, l.net.tracked, w, x.change);
    match HandleStatus(id, l, w, refuse, x)
    case Sent =>
      var l' := Broadcast(l, Delta(x, out.resp), refuse);
      l'.(net := l'.net.(tracked := Track(l.net.tracked, out.resp)))
    case AllFailed => Broadcast(l, Delta(x, out.resp), refuse)
    case _ => l
  }

  /** What the outside world contributes to one change: what the mapper reads, and who does not take
      the frame in time. */
  datatype Outside = Outside(w: Netmap, refuse: set<nat>)

  function HandleAll(id: NodeID, l: Link, xs: seq<Item>, out: seq<Outside>): Link
    requires |xs| == |out|
  {
    if xs == [] then l
    else
      var last := |xs| - 1;
      Handle(id, HandleAll(id, l, xs[..last], out[..last]), out[last].w, out[last].refuse, xs[last])
  }

  /** The changes that found only connections still waiting for their initial map. */
  function Retried(id: NodeID, l: Link, xs: seq<Item>, out: seq<Outside>): seq<Item>
    requires |xs| == |out|
  {
    if xs == [] then []
    else
      var last := |xs| - 1;
      var before := HandleAll(id, l, xs[..last], out[..last]);
      Retried(id, l, xs[..last], out[..last])
      + (if HandleStatus(id, before, out[last].w, out[last].refuse, xs[last]) == NotReady then [xs[last]] else [])
  }

  lemma {:induction false} WithoutAppend(cs: seq<nat>, c: nat, gone: set<nat>)
    ensures Without(cs + [c], gone) == if c in gone then Without(cs, gone) else Without(cs, gone) + [c]
  {
    if cs == [] {
      assert ([] + [c])[1..] == [];
    } else {
      assert (cs + [c])[1..] == cs[1..] + [c];
      WithoutAppend(cs[1..], c, gone);
    }
  }

  lemma OfferStep(chan: map<nat, seq<Frame>>, snapshot: seq<nat>, i: nat, bad: set<nat>, x: Frame)
    requires i < |snapshot|
    ensures var c, before, after := snapshot[i], Without(snapshot[..i], bad), Without(snapshot[..i + 1], bad);
            if c in bad then
              after == before && Refusing(snapshot[..i + 1], bad) == Refusing(snapshot[..i], bad) + {c}
            else
              && |after| == |before| + 1 && Refusing(snapshot[..i + 1], bad) == Refusing(snapshot[..i], bad)
              && DeliverAll(chan, after, x) == PutOn(DeliverAll(chan, before, x), c, x)
  {
    assert snapshot[..i + 1] == snapshot[..i] + [snapshot[i]];
    WithoutAppend(snapshot[..i], snapshot[i], bad);
    if snapshot[i] !in bad { DeliverAppend(chan, Without(snapshot[..i], bad), snapshot[i], x); }
  }

  /** The list without the first occurrence of c, the others in order. */
  function WithoutFirst(cs: seq<nat>, c: nat): seq<nat>
  {
    if cs == [] then [] else if cs[0] == c then cs[1..] else [cs[0]] + WithoutFirst(cs[1..], c)
  }

  lemma {:induction false} WithoutFirstAt(cs: seq<nat>, c: nat, i: nat)
    requires i <= |cs| && c !in cs[..i] && (i < |cs| ==> cs[i] == c)
    ensures WithoutFirst(cs, c) == if i < |cs| then cs[..i] + cs[i + 1..] else cs
  {
    if i > 0 {
      var rest := cs[1..];
      assert cs[0] in cs[..i] && rest[..i - 1] == cs[..i][1..];
      WithoutFirstAt(rest, c, i - 1);
      if i < |cs| {
        assert [cs[0]] + (rest[..i - 1] + rest[i..]) == cs[..i] + cs[i + 1..];
      } else {
        assert [cs[0]] + rest == cs;
      }
    }
  }

  class NodeConnection {
    const id: NodeID
    var conns: seq<nat>
    var ready: set<nat>
    var chan: map<nat, seq<Frame>>
    var tracked: set<NodeID>
    var closed: set<nat>
    var stops: multiset<nat>       // calls of the sessions' stop functions
    var pending: seq<Item>
    var inFlight: bool

    ghost function Value(): Link
      reads this
    {
      Link(Net(conns, ready, map[], chan, tracked), closed)
    }

    /** No session is ever stopped twice, and exactly the closed ones have been stopped. */
    ghost predicate Valid()
      reads this
    {
      forall c :: stops[c] == if c in closed then 1 else 0
    }

    constructor (id: NodeID)
      ensures Valid() && this.id == id && pending == [] && !inFlight
      ensures Value() == Link(Net([], {}, map[], map[], {}), {})
    {
      this.id := id;
      conns, ready, chan, tracked, closed, stops := [], {}, map[], {}, {}, multiset{};
      pending, inFlight := [], false;
    }

    method StopConnection(c: nat)
      requires Valid()
      modifies this`closed, this`stops
      ensures Valid() && closed == old(closed) + {c}
    {
      if c !in closed {
        closed := closed + {c};
        stops := stops + multiset{c};
      }
    }

    /** Stops every session of a node that is gone for good. */
    method Close()
      requires Valid()
      modifies this`closed, this`stops
      ensures Valid() && closed == old(closed) + set c | c in conns
    {
      for i := 0 to |conns|
        invariant Valid() && closed == old(closed) + set c | c in conns[..i]
      {
        StopConnection(conns[i]);
        assert conns[..i + 1] == conns[..i] + [conns[i]];
      }
      assert conns[..|conns|] == conns;
    }

    /** Removes the first connection with this channel, without stopping its session. */
    method RemoveConnection(c: nat) returns (found: bool)
      modifies this`conns
      ensures found <==> c in old(conns)
      ensures conns == WithoutFirst(old(conns), c)
    {
      var i := 0;
      while i < |conns|
        invariant 0 <= i <= |conns| && conns == old(conns)
        invariant c !in conns[..i]
      {
        if conns[i] == c {
          WithoutFirstAt(conns, c, i);
          conns := conns[..i] + conns[i + 1..];
          return true;
        }
        i := i + 1;
      }
      WithoutFirstAt(conns, c, |conns|);
      return false;
    }

    /** The connections that take broadcasts. */
    method Snapshot() returns (snapshot: seq<nat>)
      ensures snapshot == Value().net.ReadyConns()
    {
      snapshot := [];
      ghost var gone := set c | c in conns && c !in ready;
      for i := 0 to |conns|
        invariant snapshot == Without(conns[..i], gone)
      {
        WithoutAppend(conns[..i], conns[i], gone);
        assert conns[..i + 1] == conns[..i] + [conns[i]];
        if conns[i] in ready { snapshot := snapshot + [conns[i]]; }
      }
      assert conns[..|conns|] == conns;
    }

    /** Offers the frame to every connection of the snapshot. */
    method Offer(snapshot: seq<nat>, x: Frame, refuse: set<nat>) returns (failed: set<nat>, successes: nat)
      modifies this`chan
      ensures chan == DeliverAll(old(chan), Without(snapshot, refuse + closed), x)
      ensures failed == Refusing(snapshot, refuse + closed)
      ensures successes == |Without(snapshot, refuse + closed)|
    {
      failed, successes := {}, 0;
      ghost var bad := refuse + closed;
      for i := 0 to |snapshot|
        invariant chan == DeliverAll(old(chan), Without(snapshot[..i], bad), x)
        invariant failed == Refusing(snapshot[..i], bad) && successes == |Without(snapshot[..i], bad)|
      {
        var c := snapshot[i];
        OfferStep(old(chan), snapshot, i, bad, x);
        if c in closed || c in refuse {
          failed := failed + {c};
        } else {
          chan := PutOn(chan, c, x);
          successes := successes + 1;
        }
      }
      assert snapshot[..|snapshot|] == snapshot;
    }

    /** Drops the failed connections and stops their sessions. */
    method Discard(failed: set<nat>)
      requires Valid()
      modifies this`conns, this`closed, this`stops
      ensures Valid() && conns == Without(old(conns), failed)
      ensures closed == old(closed) + set c | c in old(conns) && c in failed
    {
      var clean := [];
      for i := 0 to |conns|
        invariant conns == old(conns) && Valid()
        invariant clean == Without(conns[..i], failed)
        invariant closed == old(closed) + set c | c in conns[..i] && c in failed
      {
        assert conns[..i + 1] == conns[..i] + [conns[i]];
        WithoutAppend(conns[..i], conns[i], failed);
        if conns[i] in failed { StopConnection(conns[i]); } else { clean := clean + [conns[i]]; }
      }
      assert conns[..|conns|] == conns;
      conns := clean;
    }

    method Send(x: Frame, refuse: set<nat>) returns (st: Status)
      requires Valid()
      modifies this`conns, this`chan, this`closed, this`stops
      ensures Valid() && st == old(SendStatus(Value(), refuse)) && tracked == old(tracked)
      ensures Value() == if st == Sent || st == AllFailed then old(Broadcast(Value(), x, refuse)) else old(Value())
    {
      ghost var l := Value();
      if |conns| == 0 { return NoActive; }
      var snapshot := Snapshot();
      if |snapshot| == 0 { return NotReady; }
      var failed, successes := Offer(snapshot, x, refuse);
      assert failed == FailedConns(l, refuse);
      if failed != {} { Discard(failed); } else { WithoutNobody(conns); }
      assert closed == l.closed + failed;
      st := if successes > 0 then Sent else AllFailed;
    }

    method UpdateSentPeers(resp: Response)
      modifies this`tracked
      ensures tracked == Track(old(tracked), resp)
    {
      if resp.peers.Some? {
        tracked := {};
        StoreAll(resp.peers.value);
      }
      StoreAll(resp.changed);
      DeleteAll(resp.removed);
    }

    method StoreAll(ids: set<NodeID>)
      modifies this`tracked
      ensures tracked == old(tracked) + ids
    {
      var rest := ids;
      while rest != {}
        invariant rest <= ids && tracked == old(tracked) + (ids - rest)
      {
        var p :| p in rest;
        tracked := tracked + {p};
        rest := rest - {p};
      }
    }

    method DeleteAll(ids: set<NodeID>)
      modifies this`tracked
      ensures tracked == old(tracked) - ids
    {
      var rest := ids;
      while rest != {}
        invariant rest <= ids && tracked == old(tracked) - (ids - rest)
      {
        var p :| p in rest;
        tracked := tracked - {p};
        rest := rest - {p};
      }
    }

    /** Peers last sent to the node that are not current any more. */
    method ComputePeerDiff(current: set<NodeID>) returns (removed: set<NodeID>)
      ensures removed == PeerDiff(tracked, current)
    {
      removed := {};
      var rest := tracked;
      while rest != {}
        invariant rest <= tracked && removed == (tracked - rest) - current
      {
        var p :| p in rest;
        if p !in current { removed := removed + {p}; }
        rest := rest - {p};
      }
    }

    method GenerateMapResponse(w: Netmap, r: Change) returns (out: Outcome)
      ensures out == Generate(id, tracked, w, r)
    {
      if r.IsEmpty() { return Nothing; }
      if id == 0 { return Failed; }
      if r.IsSelfOnly() && r.target != id { return Nothing; }
      if r.runtime {
        var removed := ComputePeerDiff(w.visible);
        out := PolicyChangeResponse(w, removed, IsSelfUpdate(id, r));
      } else if IsSelfUpdate(id, r) {
        out := SelfMapResponse(w);
      } else {
        out := BuildFromChange(w, r);
      }
      if out.Respond? && r.all && (out.resp.peers.None? || out.resp.peers.value == {}) {
        var removed := ComputePeerDiff({});
        if removed != {} { out := Respond(out.resp.(removed := removed)); }
      }
    }

    /** Generates and sends the response for one change, and records the peers only if somebody got it. */
    method HandleNodeChange(x: Item, w: Netmap, refuse: set<nat>) returns (st: Status)
      requires Valid()
      modifies this`conns, this`chan, this`closed, this`stops, this`tracked
      ensures Valid() && st == old(HandleStatus(id, Value(), w, refuse, x))
      ensures Value() == old(Handle(id, Value(), w, refuse, x))
    {
      var out := GenerateMapResponse(w, x.change);
      if out.Failed? { return GenerateFailed; }
      if out.Nothing? { return NothingToSend; }
      st := Send(Delta(x, out.resp), refuse);
      if st == Sent { UpdateSentPeers(out.resp); }
    }

    /** A worker processing one bundle: changes that cannot be delivered yet go back to the head of the
        pending list, in order. */
    method ProcessBundle(xs: seq<Item>, out: seq<Outside>)
      requires Valid() && |xs| == |out|
      modifies this`conns, this`chan, this`closed, this`stops, this`tracked, this`pending, this`inFlight
      ensures Valid() && Value() == HandleAll(id, old(Value()), xs, out)
      ensures pending == Retried(id, old(Value()), xs, out) + old(pending) && !inFlight
    {
      var retry := [];
      ghost var start := Value();
      for i := 0 to |xs|
        invariant Valid() && pending == old(pending)
        invariant Value() == HandleAll(id, start, xs[..i], out[..i])
        invariant retry == Retried(id, start, xs[..i], out[..i])
      {
        assert xs[..i + 1][..i] == xs[..i] && out[..i + 1][..i] == out[..i];
        var st := HandleNodeChange(xs[i], out[i].w, out[i].refuse);
        if st == NotReady { retry := retry + [xs[i]]; }
      }
      assert xs[..|xs|] == xs && out[..|out|] == out;
      if |retry| > 0 { pending := retry + pending; }
      inFlight := false;
    }
  }

  lemma {:induction false} WithoutNobody(cs: seq<nat>)
    ensures Without(cs, {}) == cs
  {
    if cs != [] { WithoutNobody(cs[1..]); }
  }

  // ----- The protocol ------------------------------------------------------------------

  /** A worker offering the response to each remaining target in turn. */
  function PutAll(id: NodeID, s: Entry, k: nat, refuse: set<nat>): Entry
    requires IsSending(s.flow, k)
    decreases |s.flow.jobs[k].sending.value.targets|
  {
    var targets := s.flow.jobs[k].sending.value.targets;
    if targets == [] then s else PutAll(id, NextChange(id, s, k, Put(targets[0] !in refuse)), k, refuse)
  }

  function Offered(d: Sending, refuse: set<nat>): Sending
  {
    d.(targets := [],
       failed := d.failed + Refusing(d.targets, refuse),
       taken := d.taken + Takers(d.targets, refuse))
  }

  lemma OfferedStep(d: Sending, refuse: set<nat>)
    requires d.targets != []
    ensures var c := d.targets[0];
            var d' := if c in refuse then d.(targets := d.targets[1..], failed := d.failed + {c})
                      else d.(targets := d.targets[1..], taken := d.taken + {c});
            Offered(d', refuse) == Offered(d, refuse)
  {
    assert d.targets == [d.targets[0]] + d.targets[1..];
    assert Refusing(d.targets, refuse)
      == (if d.targets[0] in refuse then {d.targets[0]} else {}) + Refusing(d.targets[1..], refuse);
    assert Takers(d.targets, refuse)
      == (if d.targets[0] in refuse then {} else {d.targets[0]}) + Takers(d.targets[1..], refuse);
  }

  lemma PutStep(id: NodeID, s: Entry, k: nat, refuse: set<nat>) returns (s': Entry, d': Sending)
    requires IsSending(s.flow, k) && s.flow.jobs[k].sending.value.targets != []
    ensures var d := s.flow.jobs[k].sending.value;
            var c := d.targets[0];
            && s' == NextChange(id, s, k, Put(c !in refuse))
            && s'.flow == SetJob(s.flow, k, s.flow.jobs[k].(sending := Some(d')))
            && Offered(d', refuse) == Offered(d, refuse)
            && d'.item == d.item && d'.resp == d.resp && d'.targets == d.targets[1..]
            && s'.net == s.net.(chan := if c in refuse then s.net.chan else PutOn(s.net.chan, c, Delta(d.item, d.resp)))
  {
    OfferedStep(s.flow.jobs[k].sending.value, refuse);
    s' := NextChange(id, s, k, Put(s.flow.jobs[k].sending.value.targets[0] !in refuse));
    d' := s'.flow.jobs[k].sending.value;
  }

  lemma {:induction false} PutAllResult(id: NodeID, s: Entry, k: nat, refuse: set<nat>)
    requires IsSending(s.flow, k)
    ensures var d, s' := s.flow.jobs[k].sending.value, PutAll(id, s, k, refuse);
            && s'.flow == SetJob(s.flow, k, s.flow.jobs[k].(sending := Some(Offered(d, refuse))))
            && s'.net == s.net.(chan := DeliverAll(s.net.chan, Without(d.targets, refuse), Delta(d.item, d.resp)))
    decreases |s.flow.jobs[k].sending.value.targets|
  {
    var d := s.flow.jobs[k].sending.value;
    if d.targets == [] {
      assert Offered(d, refuse) == d;
    } else {
      var s1, d1 := PutStep(id, s, k, refuse);
      PutAllResult(id, s1, k, refuse);
      SetTwice(s.flow, k, s1.flow.jobs[k], s.flow.jobs[k].(sending := Some(Offered(d, refuse))));
      DeliverFirst(s.net.chan, d.targets, refuse, Delta(d.item, d.resp));
    }
  }

  lemma SetTwice(f: Flow, k: nat, a: Job, b: Job)
    ensures SetJob(SetJob(f, k, a), k, b) == SetJob(f, k, b)
  {
  }

  lemma DeliverFirst(chan: map<nat, seq<Frame>>, cs: seq<nat>, refuse: set<nat>, x: Frame)
    requires cs != []
    ensures DeliverAll(chan, Without(cs, refuse), x)
            == DeliverAll(if cs[0] in refuse then chan else PutOn(chan, cs[0], x), Without(cs[1..], refuse), x)
  {
    if cs[0] !in refuse { assert ([cs[0]] + Without(cs[1..], refuse))[1..] == Without(cs[1..], refuse); }
  }

  /** The protocol steps of a worker that handles its next change without interference. */
  function HandleSteps(id: NodeID, s: Entry, k: nat, w: Netmap, refuse: set<nat>): Entry
    requires AtChange(s.flow, k)
  {
    if ChangeEnabled(id, s, k, Skip(w)) then NextChange(id, s, k, Skip(w))
    else if ChangeEnabled(id, s, k, Defer(w)) then NextChange(id, s, k, Defer(w))
    else
      var s1 := NextChange(id, s, k, Begin(w));
      PutAllResult(id, s1, k, refuse);
      NextChange(id, PutAll(id, s1, k, refuse), k, Finish)
  }

  function Takers(cs: seq<nat>, refuse: set<nat>): set<nat> { set c | c in cs && c !in refuse }

  lemma TakersIff(cs: seq<nat>, refuse: set<nat>)
    ensures Takers(cs, refuse) != {} <==> Without(cs, refuse) != []
  {
    if Without(cs, refuse) != [] {
      var c := Without(cs, refuse)[0];
      assert c in Without(cs, refuse);
      assert c in Takers(cs, refuse);
    } else {
      assert forall c :: c in Takers(cs, refuse) ==> c in Without(cs, refuse);
    }
  }

  /** Where the worker's next change goes. */
  function HandledFlow(f: Flow, k: nat, st: Status): Flow
    requires AtChange(f, k)
  {
    var j := f.jobs[k];
    var x := j.todo[0];
    match st
    case NotReady => SetJob(f, k, j.(todo := j.todo[1..], retry := j.retry + [x]))
    case Sent => SetJob(f, k, j.(todo := j.todo[1..])).(sent := f.sent + [x])
    case _ => SetJob(f, k, j.(todo := j.todo[1..])).(dropped := f.dropped + multiset{x})
  }

  /** The end of a broadcast that offered everyone in the snapshot. */
  lemma FinishRun(id: NodeID, s: Entry, k: nat, j: Job, d: Sending)
    requires ChangeEnabled(id, s, k, Finish) && s.flow.jobs[k] == j.(sending := Some(d)) && j.sending.None?
    ensures var f := SetJob(s.flow, k, j);
            NextChange(id, s, k, Finish) == Entry(
              s.net.(conns := Without(s.net.conns, d.failed),
                     tracked := if d.Ok() then Track(s.net.tracked, d.resp) else s.net.tracked),
              if d.Ok() then f.(sent := f.sent + [d.item]) else f.(dropped := f.dropped + multiset{d.item}))
  {
    assert s.flow.jobs[k].(sending := None) == j;
  }

  lemma OfferedToAll(l: Link, d: Sending, refuse: set<nat>)
    requires d == Sending(d.item, d.resp, l.net.ReadyConns(), l.net.ReadyConns(), {}, {})
    ensures var d' := Offered(d, refuse + l.closed);
            && d'.failed == FailedConns(l, refuse) && d'.item == d.item && d'.resp == d.resp && d'.targets == []
            && (d'.Ok() <==> Without(l.net.ReadyConns(), refuse + l.closed) != [])
  {
    TakersIff(d.targets, refuse + l.closed);
    assert {} + Takers(d.targets, refuse + l.closed) == Takers(d.targets, refuse + l.closed);
    assert Offered(d, refuse + l.closed).failed == FailedConns(l, refuse);
  }

  /** Handling a change that is broadcast, in terms of who fails and whether anybody takes it. */
  lemma BroadcastNet(id: NodeID, l: Link, w: Netmap, refuse: set<nat>, x: Item, resp: Response, d: Sending)
    requires Generate(id, l.net.tracked, w, x.change) == Respond(resp) && l.net.ReadyConns() != []
    requires d.failed == FailedConns(l, refuse) && (d.Ok() <==> Without(l.net.ReadyConns(), refuse + l.closed) != [])
    ensures HandleStatus(id, l, w, refuse, x) == if d.Ok() then Sent else AllFailed
    ensures Handle(id, l, w, refuse, x).net == l.net.(
              conns := Without(l.net.conns, d.failed),
              chan := DeliverAll(l.net.chan, Without(l.net.ReadyConns(), refuse + l.closed), Delta(x, resp)),
              tracked := if d.Ok() then Track(l.net.tracked, resp) else l.net.tracked)
  {
    assert l.net.ReadyConns()[0] in l.net.ReadyConns();
  }

  lemma BroadcastRun(id: NodeID, s: Entry, k: nat, w: Netmap, refuse: set<nat>, closed: set<nat>)
    requires ChangeEnabled(id, s, k, Begin(w))
    ensures var l, x := Link(s.net, closed), s.flow.jobs[k].todo[0];
            HandleSteps(id, s, k, w, refuse + closed)
            == Entry(Handle(id, l, w, refuse, x).net, HandledFlow(s.flow, k, HandleStatus(id, l, w, refuse, x)))
  {
    var s1 := NextChange(id, s, k, Begin(w));
    var d := s1.flow.jobs[k].sending.value;
    var j := s.flow.jobs[k].(todo := s.flow.jobs[k].todo[1..]);
    PutAllResult(id, s1, k, refuse + closed);
    OfferedToAll(Link(s.net, closed), d, refuse);
    var d' := Offered(d, refuse + closed);
    var s2 := PutAll(id, s1, k, refuse + closed);
    FinishRun(id, s2, k, j, d');
    SetTwice(s.flow, k, s1.flow.jobs[k], s2.flow.jobs[k]);
    SetTwice(s.flow, k, s2.flow.jobs[k], j);
    BroadcastNet(id, Link(s.net, closed), w, refuse, d.item, d.resp, d');
  }

  /** Handling a change is a run of the protocol: the same connections, channels and record result, and
      the change ends up sent, put back, or given up as the status says. */
  lemma HandleIsProtocolRun(id: NodeID, s: Entry, k: nat, w: Netmap, refuse: set<nat>, closed: set<nat>)
    requires AtChange(s.flow, k)
    ensures var x, l := s.flow.jobs[k].todo[0], Link(s.net, closed);
            HandleSteps(id, s, k, w, refuse + closed)
            == Entry(Handle(id, l, w, refuse, x).net, HandledFlow(s.flow, k, HandleStatus(id, l, w, refuse, x)))
  {
    if ChangeEnabled(id, s, k, Skip(w)) {
    } else if ChangeEnabled(id, s, k, Defer(w)) {
    } else {
      BroadcastRun(id, s, k, w, refuse, closed);
    }
  }

  /** The worker holds the lock and is between two changes. */
  predicate Between(f: Flow, k: nat) { Holds(f, k) && f.jobs[k].sending.None? }

  lemma HandledIsBetween(f: Flow, k: nat, st: Status)
    requires AtChange(f, k)
    ensures var f' := HandledFlow(f, k, st);
            && Between(f', k) && f'.jobs[k].todo == f.jobs[k].todo[1..] && f'.pending == f.pending
            && f'.jobs[k].retry == f.jobs[k].retry + if st == NotReady then [f.jobs[k].todo[0]] else []
  {
  }

  /** What n changes of the bundle leave behind. */
  ghost predicate HandledUpTo(id: NodeID, s: Entry, k: nat, closed: set<nat>, out: seq<Outside>, n: nat, s': Entry)
    requires Between(s.flow, k) && n <= |out| == |s.flow.jobs[k].todo|
  {
    var xs, l := s.flow.jobs[k].todo, Link(s.net, closed);
    && Between(s'.flow, k) && s'.flow.jobs[k].todo == xs[n..] && s'.flow.pending == s.flow.pending
    && s'.net == HandleAll(id, l, xs[..n], out[..n]).net
    && s'.flow.jobs[k].retry == s.flow.jobs[k].retry + Retried(id, l, xs[..n], out[..n])
  }

  /** The protocol steps of a worker that handles the first n changes of its bundle without interference. */
  ghost function BundleSteps(id: NodeID, s: Entry, k: nat, closed: set<nat>, out: seq<Outside>, n: nat): (s': Entry)
    requires Between(s.flow, k) && n <= |out| == |s.flow.jobs[k].todo|
    ensures HandledUpTo(id, s, k, closed, out, n, s')
    decreases n
  {
    if n == 0 then s
    else
      var before := BundleSteps(id, s, k, closed, out, n - 1);
      OneMoreHandled(id, s, k, closed, out, n, before);
      var l := HandleAll(id, Link(s.net, closed), s.flow.jobs[k].todo[..n - 1], out[..n - 1]);
      HandleSteps(id, before, k, out[n - 1].w, out[n - 1].refuse + l.closed)
  }

  lemma OneMoreHandled(id: NodeID, s: Entry, k: nat, closed: set<nat>, out: seq<Outside>, n: nat, before: Entry)
    requires Between(s.flow, k) && 0 < n <= |out| == |s.flow.jobs[k].todo|
    requires HandledUpTo(id, s, k, closed, out, n - 1, before)
    ensures AtChange(before.flow, k)
    ensures var l := HandleAll(id, Link(s.net, closed), s.flow.jobs[k].todo[..n - 1], out[..n - 1]);
            var after := HandleSteps(id, before, k, out[n - 1].w, out[n - 1].refuse + l.closed);
            HandledUpTo(id, s, k, closed, out, n, after)
  {
    var xs, o := s.flow.jobs[k].todo, out[n - 1];
    var l := HandleAll(id, Link(s.net, closed), xs[..n - 1], out[..n - 1]);
    assert before.flow.jobs[k].todo[0] == xs[n - 1] && before.flow.jobs[k].todo[1..] == xs[n..];
    assert l == Link(before.net, l.closed);
    var st := HandleStatus(id, l, o.w, o.refuse, xs[n - 1]);
    HandleIsProtocolRun(id, before, k, o.w, o.refuse, l.closed);
    HandledIsBetween(before.flow, k, st);
    HandleAllStep(id, Link(s.net, closed), xs, out, n);
    NextUpTo(id, s, k, closed, out, n, before, HandleSteps(id, before, k, o.w, o.refuse + l.closed), st);
  }

  lemma HandleAllStep(id: NodeID, l: Link, xs: seq<Item>, out: seq<Outside>, n: nat)
    requires 0 < n <= |xs| == |out|
    ensures var l', o, x := HandleAll(id, l, xs[..n - 1], out[..n - 1]), out[n - 1], xs[n - 1];
            && HandleAll(id, l, xs[..n], out[..n]) == Handle(id, l', o.w, o.refuse, x)
            && Retried(id, l, xs[..n], out[..n]) ==
               Retried(id, l, xs[..n - 1], out[..n - 1])
               + if HandleStatus(id, l', o.w, o.refuse, x) == NotReady then [x] else []
  {
    assert xs[..n][..n - 1] == xs[..n - 1] && out[..n][..n - 1] == out[..n - 1];
  }

  lemma NextUpTo(id: NodeID, s: Entry, k: nat, closed: set<nat>, out: seq<Outside>, n: nat,
                 before: Entry, s': Entry, st: Status)
    requires Between(s.flow, k) && 0 < n <= |out| == |s.flow.jobs[k].todo|
    requires HandledUpTo(id, s, k, closed, out, n - 1, before)
    requires Between(s'.flow, k) && s'.flow.jobs[k].todo == s.flow.jobs[k].todo[n..]
    requires s'.flow.pending == before.flow.pending
    requires var xs, l := s.flow.jobs[k].todo, Link(s.net, closed);
             var more := if st == NotReady then [xs[n - 1]] else [];
             && s'.net == HandleAll(id, l, xs[..n], out[..n]).net
             && Retried(id, l, xs[..n], out[..n]) == Retried(id, l, xs[..n - 1], out[..n - 1]) + more
             && s'.flow.jobs[k].retry == before.flow.jobs[k].retry + more
    ensures HandledUpTo(id, s, k, closed, out, n, s')
  {
  }

  /** The worker releases the lock, puts the deferred changes back and clears the in-flight flag. */
  lemma LeaveRun(f: Flow, k: nat) returns (f': Flow)
    requires Between(f, k) && f.jobs[k].todo == []
    ensures BundleEnabled(f, k, Unlock) && BundleEnabled(NextBundle(f, k, Unlock), k, Requeue)
    ensures BundleEnabled(NextBundle(NextBundle(f, k, Unlock), k, Requeue), k, Clear)
    ensures f' == NextBundle(NextBundle(NextBundle(f, k, Unlock), k, Requeue), k, Clear)
    ensures f'.pending == f.jobs[k].retry + f.pending && !f'.inFlight
  {
    f' := NextBundle(NextBundle(NextBundle(f, k, Unlock), k, Requeue), k, Clear);
  }

  /** Processing a bundle is a run of the protocol, from taking the lock to clearing the in-flight flag:
      it leaves the connections, the record and the pending changes as the method does. */
  lemma BundleIsProtocolRun(id: NodeID, s: Entry, k: nat, closed: set<nat>, out: seq<Outside>) returns (s': Entry)
    requires BundleEnabled(s.flow, k, Lock) && s.flow.jobs[k].retry == [] && s.flow.jobs[k].sending.None?
    requires |out| == |s.flow.jobs[k].todo|
    ensures var s1 := BundleSteps(id, s.(flow := NextBundle(s.flow, k, Lock)), k, closed, out, |out|);
            && BundleEnabled(s1.flow, k, Unlock) && BundleEnabled(NextBundle(s1.flow, k, Unlock), k, Requeue)
            && BundleEnabled(NextBundle(NextBundle(s1.flow, k, Unlock), k, Requeue), k, Clear)
            && s' == s1.(flow := NextBundle(NextBundle(NextBundle(s1.flow, k, Unlock), k, Requeue), k, Clear))
    ensures var xs, l := s.flow.jobs[k].todo, Link(s.net, closed);
            && s'.net == HandleAll(id, l, xs, out).net
            && s'.flow.pending == Retried(id, l, xs, out) + s.flow.pending && !s'.flow.inFlight
  {
    var xs := s.flow.jobs[k].todo;
    var s1 := BundleSteps(id, s.(flow := NextBundle(s.flow, k, Lock)), k, closed, out, |out|);
    assert xs[..|xs|] == xs && out[..|out|] == out && xs[|xs|..] == [];
    var f := LeaveRun(s1.flow, k);
    s' := s1.(flow := f);
    assert [] + Retried(id, Link(s.net, closed), xs, out) == Retried(id, Link(s.net, closed), xs, out);
  }

  function At(l: Link, p: map<nat, Phase>): Link { l.(net := l.net.(phase := p)) }

  /** What the methods do does not depend on how far connections being added have come. */
  lemma {:induction false} HandleAllIgnoresPhase(
      id: NodeID, l: Link, p: map<nat, Phase>, xs: seq<Item>, out: seq<Outside>)
    requires |xs| == |out|
    ensures HandleAll(id, At(l, p), xs, out) == At(HandleAll(id, l, xs, out), p)
    ensures Retried(id, At(l, p), xs, out) == Retried(id, l, xs, out)
  {
    if xs != [] {
      var last := |xs| - 1;
      HandleAllIgnoresPhase(id, l, p, xs[..last], out[..last]);
      HandleIgnoresPhase(id, HandleAll(id, l, xs[..last], out[..last]), p, out[last].w, out[last].refuse, xs[last]);
    }
  }

  lemma HandleIgnoresPhase(id: NodeID, l: Link, p: map<nat, Phase>, w: Netmap, refuse: set<nat>, x: Item)
    ensures HandleStatus(id, At(l, p), w, refuse, x) == HandleStatus(id, l, w, refuse, x)
    ensures Handle(id, At(l, p), w, refuse, x) == At(Handle(id, l, w, refuse, x), p)
  {
    assert At(l, p).net.ReadyConns() == l.net.ReadyConns();
    assert FailedConns(At(l, p), refuse) == FailedConns(l, refuse);
  }
}
