/**
 Generating the response for one change, the server's record of the peers a client knows, and
 the client's own view. The client replaces its peer list only when a response carries a
 non-empty complete list; otherwise it applies removals and then additions.
 */
module PeerTracking {
  import opened Basics
  import opened Changes

  /** What the response builder reads about the recipient: whether it and the policy data can be
      resolved, the peers visible to it, and those among them that cannot be rendered. */
  datatype Netmap = Netmap(found: bool, selfOk: bool, filterOk: bool, matchersOk: bool,
                           visible: set<NodeID>, broken: set<NodeID>)
  {
    function Rendered(): set<NodeID> { visible - broken }
  }

  /** The peer-relevant part of a map response. peers == None is the nil list. */
  datatype Response = Response(node: bool, peers: Option<set<NodeID>>, changed: set<NodeID>,
                               removed: set<NodeID>, patches: set<NodeID>, ping: bool)

  datatype Outcome = Nothing | Failed | Respond(resp: Response)

  // ----- Response generation -----------------------------------------------------------

  function PolicyChangeResponse(w: Netmap, diff: set<NodeID>, includeSelf: bool): Outcome
  {
    if !w.found || !w.filterOk || (includeSelf && !w.selfOk) || (w.visible != {} && !w.matchersOk) then Failed
    else Respond(Response(includeSelf, None, w.Rendered(), diff, {}, false))
  }

  function SelfMapResponse(w: Netmap): Outcome
  {
    if !w.found || !w.selfOk then Failed
    else Respond(Response(true, None, {}, {}, {}, false))
  }

  predicate BuildFails(w: Netmap, r: Change)
  {
    || (r.self && !(w.found && w.selfOk))
    || (r.dns && !w.found)
    || (r.policy && !(w.found && w.filterOk))
    || ((r.all || r.changed != {}) && !(w.found && w.matchersOk))
  }

  function BuildFromChange(w: Netmap, r: Change): Outcome
  {
    if BuildFails(w, r) then Failed
    else if r.all then
      Respond(Response(r.self, Some(w.Rendered()), {}, {}, r.patches * w.visible, r.ping))
    else
      Respond(Response(r.self, None, r.changed * w.Rendered(), r.removed, r.patches * w.visible, r.ping))
  }

  predicate IsSelfUpdate(id: NodeID, r: Change) { r.origin != 0 && r.origin == id }

  function PeerDiff(tracked: set<NodeID>, current: set<NodeID>): set<NodeID> { tracked - current }

  /** A full update without peers would read as "no change"; spell out the removals instead. */
  function PatchEmptyList(tracked: set<NodeID>, r: Change, resp: Response): Response
  {
    if r.all && (resp.peers == None || resp.peers == Some({})) && PeerDiff(tracked, {}) != {}
    then resp.(removed := PeerDiff(tracked, {}))
    else resp
  }

  function Generate(id: NodeID, tracked: set<NodeID>, w: Netmap, r: Change): Outcome
  {
    if r.IsEmpty() then Nothing
    else if id == 0 then Failed
    else if r.IsSelfOnly() && r.target != id then Nothing
    else
      var out :=
        if r.runtime then PolicyChangeResponse(w, PeerDiff(tracked, w.visible), IsSelfUpdate(id, r))
        else if IsSelfUpdate(id, r) then SelfMapResponse(w)
        else BuildFromChange(w, r);
      if out.Respond? then Respond(PatchEmptyList(tracked, r, out.resp)) else out
  }

  // ----- The two views -----------------------------------------------------------------

  /** The server's record after a response has been delivered. */
  function Track(tracked: set<NodeID>, resp: Response): set<NodeID>
  {
    ((if resp.peers.Some? then resp.peers.value else tracked) + resp.changed) - resp.removed
  }

  /** The client's peers after it has received the response. */
  function Client(known: set<NodeID>, resp: Response): set<NodeID>
  {
    if resp.peers.Some? && resp.peers.value != {} then resp.peers.value
    else (known - resp.removed) + resp.changed
  }

  // ----- When one response keeps the views equal ---------------------------------------

  /** Decidable before the response is generated. */
  predicate Agreeable(id: NodeID, tracked: set<NodeID>, w: Netmap, r: Change)
  {
    if r.runtime then r.all ==> tracked !! w.Rendered()
    else IsSelfUpdate(id, r) || r.all || r.changed * w.Rendered() !! r.removed
  }

  // The peers of a response, by the way it was generated.

  lemma RecomputeShape(id: NodeID, tracked: set<NodeID>, w: Netmap, r: Change)
    requires r.runtime && Generate(id, tracked, w, r).Respond?
    ensures var resp := Generate(id, tracked, w, r).resp;
            && resp.peers == None && resp.changed == w.Rendered()
            && resp.removed == if r.all then tracked + (tracked - w.visible) else tracked - w.visible
  {
    assert PeerDiff(tracked, {}) == tracked == tracked + (tracked - w.visible);
  }

  lemma SelfShape(id: NodeID, tracked: set<NodeID>, w: Netmap, r: Change)
    requires !r.runtime && IsSelfUpdate(id, r) && Generate(id, tracked, w, r).Respond?
    ensures var resp := Generate(id, tracked, w, r).resp;
            resp.peers == None && resp.changed == {} && resp.removed == if r.all then tracked else {}
  {
    assert PeerDiff(tracked, {}) == tracked;
  }

  lemma ListShape(id: NodeID, tracked: set<NodeID>, w: Netmap, r: Change)
    requires !r.runtime && !IsSelfUpdate(id, r) && r.all && Generate(id, tracked, w, r).Respond?
    ensures var resp := Generate(id, tracked, w, r).resp;
            && resp.peers == Some(w.Rendered()) && resp.changed == {}
            && resp.removed == if w.Rendered() == {} then tracked else {}
  {
    assert PeerDiff(tracked, {}) == tracked;
  }

  lemma DeltaShape(id: NodeID, tracked: set<NodeID>, w: Netmap, r: Change)
    requires !r.runtime && !IsSelfUpdate(id, r) && !r.all && Generate(id, tracked, w, r).Respond?
    ensures var resp := Generate(id, tracked, w, r).resp;
            resp.peers == None && resp.changed == r.changed * w.Rendered() && resp.removed == r.removed
  {
  }

  /** A response keeps record and client equal exactly when the change is agreeable. It fails for a
      change that names a peer as both changed and removed, and for a recompute that also asks for
      the complete list: the list is absent, so every tracked peer is reported removed while the
      visible ones are reported changed. */
  lemma ViewsAgreeIff(id: NodeID, tracked: set<NodeID>, w: Netmap, r: Change)
    requires Generate(id, tracked, w, r).Respond?
    ensures var resp := Generate(id, tracked, w, r).resp;
            Track(tracked, resp) == Client(tracked, resp) <==> Agreeable(id, tracked, w, r)
  {
    var resp := Generate(id, tracked, w, r).resp;
    if r.runtime {
      RecomputeShape(id, tracked, w, r);
      DisjointIff(tracked, resp.changed, resp.removed);
      assert w.Rendered() !! tracked - w.visible;
      if r.all { assert tracked + (tracked - w.visible) == tracked; }
    } else if IsSelfUpdate(id, r) {
      SelfShape(id, tracked, w, r);
      DisjointIff(tracked, resp.changed, resp.removed);
    } else if r.all {
      ListShape(id, tracked, w, r);
      ListAgrees(tracked, w.Rendered(), resp);
    } else {
      DeltaShape(id, tracked, w, r);
      DisjointIff(tracked, resp.changed, resp.removed);
    }
  }

  lemma ListAgrees(tracked: set<NodeID>, list: set<NodeID>, resp: Response)
    requires resp.peers == Some(list) && resp.changed == {} && resp.removed == if list == {} then tracked else {}
    ensures Track(tracked, resp) == list == Client(tracked, resp)
  {
    if list == {} {
      assert ({} + {}) - tracked == {} == (tracked - tracked) + {};
    } else {
      assert (list + {}) - {} == list;
    }
  }

  /** Merging can produce a change that breaks the record: the removal of a peer and a change of it, in
      either order, is delivered as a removal the client undoes. */
  lemma MergedRemovalDisagrees(id: NodeID, tracked: set<NodeID>, w: Netmap, p: NodeID)
    requires id != 0 && w.found && w.matchersOk && p in w.Rendered()
    ensures var r := Merge(PeersRemoved({p}), NOTHING.(changed := {p}));
            && !Agreeable(id, tracked, w, r) && Generate(id, tracked, w, r).Respond?
            && var resp := Generate(id, tracked, w, r).resp;
               p !in Track(tracked, resp) && p in Client(tracked, resp)
  {
    var r := Merge(PeersRemoved({p}), NOTHING.(changed := {p}));
    assert r.changed == {p} == r.removed;
    assert p in r.changed * w.Rendered();
    DeltaShape(id, tracked, w, r);
  }

  lemma DisjointIff(t: set<NodeID>, changed: set<NodeID>, removed: set<NodeID>)
    ensures (t + changed) - removed == (t - removed) + changed <==> changed !! removed
  {
    if x :| x in changed && x in removed { assert x in (t - removed) + changed && x !in (t + changed) - removed; }
    if changed !! removed { assert (t + changed) - removed == (t - removed) + changed; }
  }

  /** After a recompute the record holds the peers that were tracked and are still visible, and
      every rendered one: never a hidden peer, and all visible ones iff each peer that could not be
      rendered was known already. */
  lemma RecomputeConverges(id: NodeID, tracked: set<NodeID>, w: Netmap, r: Change)
    requires r.runtime && !r.all && Generate(id, tracked, w, r).Respond?
    ensures var t := Track(tracked, Generate(id, tracked, w, r).resp);
            && t == (tracked * w.visible) + w.Rendered()
            && t <= w.visible
            && (t == w.visible <==> w.visible * w.broken <= tracked)
  {
    var t := Track(tracked, Generate(id, tracked, w, r).resp);
    RecomputeShape(id, tracked, w, r);
    assert t == (tracked + w.Rendered()) - (tracked - w.visible) == (tracked * w.visible) + w.Rendered();
    if t == w.visible {
      forall x | x in w.visible * w.broken ensures x in tracked { assert x in t && x !in w.Rendered(); }
    }
    if w.visible * w.broken <= tracked {
      forall x | x in w.visible ensures x in t { assert x in w.broken ==> x in w.visible * w.broken; }
      assert t == w.visible;
    }
  }

  /** After a request for the complete list the record is the rendered peers, except when the list
      was never built: on a self-update it becomes empty, on a recompute it loses the peers it had. */
  lemma FullListExact(id: NodeID, tracked: set<NodeID>, w: Netmap, r: Change)
    requires r.all && Generate(id, tracked, w, r).Respond?
    ensures var t := Track(tracked, Generate(id, tracked, w, r).resp);
            t == w.Rendered() <==>
            (if r.runtime then tracked !! w.Rendered() else IsSelfUpdate(id, r) ==> w.Rendered() == {})
  {
    var resp := Generate(id, tracked, w, r).resp;
    var t := Track(tracked, resp);
    if r.runtime {
      RecomputeShape(id, tracked, w, r);
      assert t == w.Rendered() - tracked;
      if t == w.Rendered() { forall x | x in tracked ensures x !in w.Rendered() { assert x !in t; } }
    } else if IsSelfUpdate(id, r) {
      SelfShape(id, tracked, w, r);
      assert t == (tracked + {}) - tracked == {};
    } else {
      ListShape(id, tracked, w, r);
      ListAgrees(tracked, w.Rendered(), resp);
    }
  }

  // ----- What the batcher delivers -----------------------------------------------------

  /** Changes as they leave the pending queue: the complete list only through the plain full update,
      and no peer both changed and removed. */
  predicate Deliverable(r: Change)
  {
    (r.all ==> r == FULL_UPDATE) && r.changed !! r.removed
  }

  lemma DeliverableAgrees(id: NodeID, tracked: set<NodeID>, w: Netmap, r: Change)
    requires Deliverable(r) && Generate(id, tracked, w, r).Respond?
    ensures var resp := Generate(id, tracked, w, r).resp;
            Track(tracked, resp) == Client(tracked, resp)
  {
    ViewsAgreeIff(id, tracked, w, r);
  }

  /** The initial map starts a fresh client: whatever the record held before, both become the
      rendered peers. */
  lemma InitialMapSynchronises(id: NodeID, tracked: set<NodeID>, w: Netmap)
    requires Generate(id, tracked, w, FullSelf(id)).Respond?
    ensures var resp := Generate(id, tracked, w, FullSelf(id)).resp;
            forall now :: Track(now, resp) == w.Rendered() && Client({}, resp) == w.Rendered() && resp.node
  {
    var resp := Generate(id, tracked, w, FullSelf(id)).resp;
    ListShape(id, tracked, w, FullSelf(id));
    var none: set<NodeID> := {};
    assert (w.Rendered() + resp.changed) - resp.removed == w.Rendered();
    assert (none - resp.removed) + resp.changed == none;
    assert Client(none, resp) == w.Rendered() && resp.node;
    forall now ensures Track(now, resp) == w.Rendered() { }
  }

  // ----- Bundles under one snapshot ----------------------------------------------------

  /** The record after a bundle is processed, every generated response being delivered. */
  function ProcessAll(id: NodeID, w: Netmap, tracked: set<NodeID>, cs: seq<Change>): set<NodeID>
  {
    if cs == [] then tracked
    else Process(id, w, ProcessAll(id, w, tracked, cs[..|cs| - 1]), cs[|cs| - 1])
  }

  function Process(id: NodeID, w: Netmap, tracked: set<NodeID>, r: Change): set<NodeID>
  {
    var out := Generate(id, tracked, w, r);
    if out.Respond? then Track(tracked, out.resp) else tracked
  }

  /** What processing a change does to one peer, whatever the record held: puts it in, takes it out, or
      leaves it. */
  function Effect(id: NodeID, w: Netmap, r: Change, x: NodeID): Option<bool>
  {
    if !Generate(id, {}, w, r).Respond? then None
    else if r.runtime then
      if x in w.Rendered() then Some(true) else if x !in w.visible then Some(false) else None
    else if IsSelfUpdate(id, r) then None
    else if r.all then Some(x in w.Rendered())
    else if x in r.removed then Some(false)
    else if x in r.changed * w.Rendered() then Some(true)
    else None
  }

  function Applied(e: Option<bool>, was: bool): bool { if e.Some? then e.value else was }

  lemma EffectExact(id: NodeID, w: Netmap, t: set<NodeID>, r: Change, x: NodeID)
    requires Deliverable(r)
    ensures x in Process(id, w, t, r) <==> Applied(Effect(id, w, r, x), x in t)
  {
    if Generate(id, t, w, r).Respond? {
      if r.runtime {
        RecomputeShape(id, t, w, r);
      } else if IsSelfUpdate(id, r) {
        SelfShape(id, t, w, r);
      } else if r.all {
        ListShape(id, t, w, r);
        ListAgrees(t, w.Rendered(), Generate(id, t, w, r).resp);
      } else {
        DeltaShape(id, t, w, r);
      }
    }
  }

  /** The last effect a bundle has on a peer. */
  function LastEffect(id: NodeID, w: Netmap, cs: seq<Change>, x: NodeID): Option<bool>
  {
    if cs == [] then None
    else
      var e := Effect(id, w, cs[|cs| - 1], x);
      if e.Some? then e else LastEffect(id, w, cs[..|cs| - 1], x)
  }

  predicate AllDeliverable(cs: seq<Change>) { forall i :: 0 <= i < |cs| ==> Deliverable(cs[i]) }

  lemma {:induction false} LastEffectExact(id: NodeID, w: Netmap, t: set<NodeID>, cs: seq<Change>, x: NodeID)
    requires AllDeliverable(cs)
    ensures x in ProcessAll(id, w, t, cs) <==> Applied(LastEffect(id, w, cs, x), x in t)
  {
    if cs != [] {
      var init := cs[..|cs| - 1];
      LastEffectExact(id, w, t, init, x);
      EffectExact(id, w, ProcessAll(id, w, t, init), cs[|cs| - 1], x);
    }
  }

  predicate RecomputeOk(id: NodeID, w: Netmap)
  {
    id != 0 && w.found && w.filterOk && (w.visible != {} ==> w.matchersOk)
  }

  /** All broadcast recomputes are interchangeable. */
  lemma RecomputeEffect(id: NodeID, w: Netmap, r: Change, x: NodeID)
    requires r.IsBroadcastPolicyChange()
    ensures Effect(id, w, r, x) ==
            if !RecomputeOk(id, w) then None
            else if x in w.Rendered() then Some(true) else if x !in w.visible then Some(false) else None
  {
  }

  /** Leaving recomputes aside, the last change after the first recompute that concerns the peer takes it
      out. */
  predicate RemovedSince(id: NodeID, w: Netmap, cs: seq<Change>, x: NodeID)
  {
    cs != [] &&
    var init, last := cs[..|cs| - 1], cs[|cs| - 1];
    if last.IsBroadcastPolicyChange() || Effect(id, w, last, x).None? then RemovedSince(id, w, init, x)
    else SeenPolicy(init) && Effect(id, w, last, x) == Some(false)
  }

  /** A rendered peer is taken out after the first recompute and before another one, and concerns no
      other change after that: the dropped recompute would have put it back. */
  predicate Undone(id: NodeID, w: Netmap, cs: seq<Change>, x: NodeID)
  {
    cs != [] && x in w.Rendered() &&
    var init, last := cs[..|cs| - 1], cs[|cs| - 1];
    if last.IsBroadcastPolicyChange() then RemovedSince(id, w, init, x)
    else Effect(id, w, last, x).None? && Undone(id, w, init, x)
  }

  ghost predicate SomeUndone(id: NodeID, w: Netmap, cs: seq<Change>) { exists x :: Undone(id, w, cs, x) }

  lemma SeenPolicyStep(cs: seq<Change>)
    requires cs != []
    ensures SeenPolicy(cs) <==> SeenPolicy(cs[..|cs| - 1]) || cs[|cs| - 1].IsBroadcastPolicyChange()
  {
    var init := cs[..|cs| - 1];
    if SeenPolicy(init) {
      var i :| 0 <= i < |init| && init[i].IsBroadcastPolicyChange();
      assert cs[i].IsBroadcastPolicyChange();
    }
    if SeenPolicy(cs) {
      var i :| 0 <= i < |cs| && cs[i].IsBroadcastPolicyChange();
      assert i < |init| ==> init[i].IsBroadcastPolicyChange();
    }
  }

  /** The last effects of a bundle with and without its repeated recomputes. */
  lemma {:induction false} DedupeEffect(id: NodeID, w: Netmap, cs: seq<Change>, x: NodeID)
    requires RecomputeOk(id, w)
    ensures var full, kept := LastEffect(id, w, cs, x), LastEffect(id, w, Dedupe(cs), x);
            && full == (if Undone(id, w, cs, x) then Some(true) else kept)
            && (RemovedSince(id, w, cs, x) ==> SeenPolicy(cs) && (x in w.Rendered() ==> kept == Some(false)))
            && (SeenPolicy(cs) && x in w.Rendered() && !RemovedSince(id, w, cs, x) ==> kept == Some(true))
            && (SeenPolicy(cs) && x !in w.visible ==> kept == Some(false))
  {
    if cs != [] {
      var init, last := cs[..|cs| - 1], cs[|cs| - 1];
      DedupeEffect(id, w, init, x);
      SeenPolicyStep(cs);
      assert (Dedupe(init) + [last])[..|Dedupe(init)|] == Dedupe(init);
      if last.IsBroadcastPolicyChange() { RecomputeEffect(id, w, last, x); }
    }
  }

  lemma {:induction false} DedupeWithoutEffect(id: NodeID, w: Netmap, cs: seq<Change>, x: NodeID)
    requires !RecomputeOk(id, w)
    ensures LastEffect(id, w, cs, x) == LastEffect(id, w, Dedupe(cs), x)
  {
    if cs != [] {
      var init, last := cs[..|cs| - 1], cs[|cs| - 1];
      DedupeWithoutEffect(id, w, init, x);
      assert (Dedupe(init) + [last])[..|Dedupe(init)|] == Dedupe(init);
      if last.IsBroadcastPolicyChange() { RecomputeEffect(id, w, last, x); }
    }
  }

  lemma {:induction false} DedupeDeliverable(cs: seq<Change>)
    requires AllDeliverable(cs)
    ensures AllDeliverable(Dedupe(cs))
  {
    if cs != [] { DedupeDeliverable(cs[..|cs| - 1]); }
  }

  /** For one peer: dropping the repeated recomputes of a bundle matters iff it undoes a removal. */
  lemma DedupeExactAt(id: NodeID, w: Netmap, tracked: set<NodeID>, cs: seq<Change>, x: NodeID)
    requires AllDeliverable(cs)
    ensures (x in ProcessAll(id, w, tracked, Dedupe(cs)) <==> x in ProcessAll(id, w, tracked, cs)) <==>
            !(RecomputeOk(id, w) && Undone(id, w, cs, x))
  {
    DedupeDeliverable(cs);
    LastEffectExact(id, w, tracked, cs, x);
    LastEffectExact(id, w, tracked, Dedupe(cs), x);
    if RecomputeOk(id, w) {
      DedupeEffect(id, w, cs, x);
      if Undone(id, w, cs, x) { UndoneMeansRemoved(id, w, cs, x); }
    } else {
      DedupeWithoutEffect(id, w, cs, x);
    }
  }

  lemma {:induction false} UndoneMeansRemoved(id: NodeID, w: Netmap, cs: seq<Change>, x: NodeID)
    requires Undone(id, w, cs, x)
    ensures RemovedSince(id, w, cs, x)
  {
    if !cs[|cs| - 1].IsBroadcastPolicyChange() { UndoneMeansRemoved(id, w, cs[..|cs| - 1], x); }
  }

  /** For every bundle: dropping the repeated recomputes leaves the client with the same peers iff none of
      them would have put back a peer that was taken out in between. */
  lemma DedupeExact(id: NodeID, w: Netmap, tracked: set<NodeID>, cs: seq<Change>)
    requires AllDeliverable(cs)
    ensures ProcessAll(id, w, tracked, Dedupe(cs)) == ProcessAll(id, w, tracked, cs) <==>
            !(RecomputeOk(id, w) && SomeUndone(id, w, cs))
  {
    var kept, full := ProcessAll(id, w, tracked, Dedupe(cs)), ProcessAll(id, w, tracked, cs);
    forall x ensures (x in kept <==> x in full) <==> !(RecomputeOk(id, w) && Undone(id, w, cs, x))
    {
      DedupeExactAt(id, w, tracked, cs, x);
    }
    if RecomputeOk(id, w) && SomeUndone(id, w, cs) {
      var x :| Undone(id, w, cs, x);
      assert !(x in kept <==> x in full);
      assert kept != full;
    } else {
      assert forall x :: x in kept <==> x in full;
      assert kept == full;
    }
  }

  /** An instance: between two recomputes, a removal matters iff the recomputes succeed and the peer is one
      they render. */
  lemma DroppedRecomputeMatters(id: NodeID, w: Netmap, tracked: set<NodeID>, x: NodeID)
    ensures var cs := [PolicyChange(), NodeRemoved(x), PolicyChange()];
            ProcessAll(id, w, tracked, Dedupe(cs)) != ProcessAll(id, w, tracked, cs) <==>
            RecomputeOk(id, w) && x in w.Rendered()
  {
    var a, b := PolicyChange(), NodeRemoved(x);
    var cs := [a, b, a];
    assert cs[..2] == [a, b] && [a, b][..1] == [a] && SeenPolicy([a]) by { assert [a][0].IsBroadcastPolicyChange(); }
    assert [a][..0] == [];
    DedupeExact(id, w, tracked, cs);
    if RecomputeOk(id, w) {
      assert Effect(id, w, b, x) == Some(false);
      assert RemovedSince(id, w, [a, b], x);
      assert Undone(id, w, cs, x) <==> x in w.Rendered();
      forall y | Undone(id, w, cs, y) ensures y == x
      {
        assert RemovedSince(id, w, [a, b], y) && !RemovedSince(id, w, [a], y);
        assert Effect(id, w, b, y) == Some(false);
      }
    }
  }

  lemma {:induction false} HarmlessNotRemoved(id: NodeID, w: Netmap, cs: seq<Change>, x: NodeID)
    requires x in w.Rendered() && forall i :: 0 <= i < |cs| ==> cs[i].removed !! w.Rendered()
    ensures !RemovedSince(id, w, cs, x)
  {
    if cs != [] { HarmlessNotRemoved(id, w, cs[..|cs| - 1], x); }
  }

  /** So it is harmless as long as no change in the bundle reports a rendered peer as removed. */
  lemma DedupePreservesPeers(id: NodeID, w: Netmap, tracked: set<NodeID>, cs: seq<Change>)
    requires AllDeliverable(cs) && forall i :: 0 <= i < |cs| ==> cs[i].removed !! w.Rendered()
    ensures ProcessAll(id, w, tracked, Dedupe(cs)) == ProcessAll(id, w, tracked, cs)
  {
    DedupeExact(id, w, tracked, cs);
    forall x ensures !Undone(id, w, cs, x)
    {
      if Undone(id, w, cs, x) {
        UndoneMeansRemoved(id, w, cs, x);
        HarmlessNotRemoved(id, w, cs, x);
        assert false;
      }
    }
  }

  /** Replacing a whole pending queue by one full update loses nothing. */
  lemma FullUpdateAbsorbs(id: NodeID, w: Netmap, tracked: set<NodeID>, cs: seq<Change>)
    requires Generate(id, tracked, w, FULL_UPDATE).Respond?
    ensures ProcessAll(id, w, tracked, cs + [FULL_UPDATE]) == ProcessAll(id, w, tracked, [FULL_UPDATE]) == w.Rendered()
  {
    assert (cs + [FULL_UPDATE])[..|cs|] == cs;
    FullListExact(id, tracked, w, FULL_UPDATE);
    FullListExact(id, ProcessAll(id, w, tracked, cs), w, FULL_UPDATE);
  }
}
