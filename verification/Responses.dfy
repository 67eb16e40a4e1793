/**
 What a map response carries: when one is generated, what is in it, and that nothing the recipient may
 not see is.
 */
module Responses {
  import opened Basics
  import opened Changes
  import opened PeerTracking

  // ----- When there is a response ------------------------------------------------------

  predicate SelfUpdate(id: NodeID, r: Change) { r.origin != 0 && r.origin == id }

  /** The response carries the recipient's own record. */
  predicate ShowsSelf(id: NodeID, r: Change) { SelfUpdate(id, r) || (!r.runtime && r.self) }

  /** ... the packet filters. */
  predicate ShowsFilters(id: NodeID, r: Change) { r.runtime || (!SelfUpdate(id, r) && r.policy) }

  /** ... a DNS configuration. */
  predicate ShowsDNS(id: NodeID, r: Change) { r.runtime || (!SelfUpdate(id, r) && r.dns) }

  /** ... a list of peers, or records of peers. */
  predicate ShowsPeers(id: NodeID, w: Netmap, r: Change)
  {
    if r.runtime then w.visible != {} else !SelfUpdate(id, r) && (r.all || r.changed != {})
  }

  /** A change is answered iff it is not empty, is not the private update of another node, and everything the
      response is to carry can be resolved; it is passed over iff it is empty or private to another node. */
  lemma GeneratedIff(id: NodeID, tracked: set<NodeID>, w: Netmap, r: Change)
    ensures var private := r.IsSelfOnly() && r.target != id;
            && (Generate(id, tracked, w, r).Respond? <==>
                  && !r.IsEmpty() && !private && id != 0
                  && (ShowsSelf(id, r) ==> w.found && w.selfOk) && (ShowsFilters(id, r) ==> w.found && w.filterOk)
                  && (ShowsDNS(id, r) ==> w.found) && (ShowsPeers(id, w, r) ==> w.found && w.matchersOk))
            && (Generate(id, tracked, w, r).Nothing? <==> r.IsEmpty() || (id != 0 && private))
  {
  }

  // ----- What it carries ---------------------------------------------------------------

  /** Whatever the change names, the recipient is shown no peer, and no patch of a peer, that it may not see,
      and no record of one that cannot be rendered. */
  lemma NothingHiddenIsSent(id: NodeID, tracked: set<NodeID>, w: Netmap, r: Change)
    requires Generate(id, tracked, w, r).Respond?
    ensures var resp := Generate(id, tracked, w, r).resp;
            && resp.patches <= w.visible && resp.changed <= w.Rendered()
            && (resp.peers.Some? ==> resp.peers.value == w.Rendered())
  {
  }

  /** Every part of a response. A recompute carries all rendered peers and takes out the tracked ones that are
      not visible any more, an update of the recipient itself carries nothing but its own record, and any
      other change carries what it asks for, as far as the recipient may see it. */
  lemma CarriesExactly(id: NodeID, tracked: set<NodeID>, w: Netmap, r: Change, x: NodeID)
    requires Generate(id, tracked, w, r).Respond?
    ensures var resp, plain := Generate(id, tracked, w, r).resp, !r.runtime && !SelfUpdate(id, r);
            && (resp.node <==> ShowsSelf(id, r))
            && (resp.ping <==> plain && r.ping)
            && (x in resp.patches <==> plain && x in r.patches && x in w.visible)
            && (resp.peers.Some? <==> plain && r.all)
            && (resp.peers.Some? ==> (x in resp.peers.value <==> x in w.visible && x !in w.broken))
            && (x in resp.changed <==>
                  x in w.visible && x !in w.broken && (r.runtime || (plain && !r.all && x in r.changed)))
            && (x in resp.removed <==>
                  || (r.runtime && x in tracked && x !in w.visible)
                  || (plain && !r.all && x in r.removed)
                  || (r.all && x in tracked && (plain ==> w.Rendered() == {})))
  {
    assert PeerDiff(tracked, {}) == tracked;
  }
}
