/**
 Probe cycles over the highly available subnet routers. A cycle's inputs are what it reads about
 each node and how its probe ended; probes of one cycle are independent of each other.
 */
module Probing {
  import opened Basics

  /** How a probe ended. After a timeout the node is looked at again. */
  datatype Outcome = Responded | TimedOut(connected: bool, found: bool, epoch: nat) | Aborted

  /** What a cycle sees of a node: whether it has a map session, whether the store still knows it, its
      session epoch, and the outcome of its probe. */
  datatype Sight = Sight(connected: bool, found: bool, epoch: nat, outcome: Outcome)

  datatype Verdict = NoVerdict | Healthy | Unhealthy | Deferred

  /** The candidates of each prefix with several of them, and what is seen of every node. */
  datatype Cycle = Cycle(candidates: seq<seq<NodeID>>, sight: NodeID -> Sight)
  {
    function HA(): set<NodeID> { Members(candidates) }
  }

  function Members(lists: seq<seq<NodeID>>): set<NodeID>
  {
    if lists == [] then {} else Members(lists[..|lists| - 1]) + Elems(lists[|lists| - 1])
  }

  function Elems(ids: seq<NodeID>): set<NodeID> { set id | id in ids }

  // ----- One cycle ---------------------------------------------------------------------

  predicate Stable(record: map<NodeID, nat>, id: NodeID, epoch: nat) { id in record && record[id] == epoch }

  function VerdictOn(record: map<NodeID, nat>, id: NodeID, s: Sight): Verdict
  {
    if !s.connected || !s.found then NoVerdict
    else
      match s.outcome
      case Responded => Healthy
      case Aborted => NoVerdict
      case TimedOut(connected, found, epoch) =>
        if !connected || !found then NoVerdict
        else if epoch != s.epoch || !Stable(record, id, s.epoch) then Deferred
        else Unhealthy
  }

  /** The recorded sessions after a cycle has looked at the given nodes. */
  function Recorded(record: map<NodeID, nat>, c: Cycle, ids: set<NodeID>): map<NodeID, nat>
  {
    map id | id in (record.Keys + ids) * c.HA() && Remembers(record, c, ids, id) ::
      if id in ids && c.sight(id).found then c.sight(id).epoch else if id in record then record[id] else 0
  }

  predicate Remembers(record: map<NodeID, nat>, c: Cycle, ids: set<NodeID>, id: NodeID)
  {
    if id in ids then c.sight(id).connected && (c.sight(id).found || id in record) else id in record
  }

  predicate AnyDeferred(record: map<NodeID, nat>, c: Cycle, ids: set<NodeID>)
  {
    exists id :: id in ids && VerdictOn(record, id, c.sight(id)).Deferred?
  }

  /** The health updates a cycle applies: none at all when one of its probes was deferred. */
  function Applied(record: map<NodeID, nat>, c: Cycle): map<NodeID, bool>
  {
    if AnyDeferred(record, c, c.HA()) then map[]
    else Results(record, c, c.HA())
  }

  /** Sessions are recorded node by node; a node's verdict only depends on its own record. */
  lemma RecordedStep(record: map<NodeID, nat>, c: Cycle, ids: set<NodeID>, id: NodeID)
    requires id in c.HA() && id !in ids
    ensures var before, s := Recorded(record, c, ids), c.sight(id);
            && VerdictOn(before, id, s) == VerdictOn(record, id, s)
            && Recorded(record, c, ids + {id}) ==
               if !s.connected then before - {id} else if !s.found then before else before[id := s.epoch]
  {
  }

  predicate Conclusive(v: Verdict) { v.Healthy? || v.Unhealthy? }

  /** The verdicts of the nodes looked at so far. */
  function Results(record: map<NodeID, nat>, c: Cycle, ids: set<NodeID>): map<NodeID, bool>
  {
    map id | id in ids && Conclusive(VerdictOn(record, id, c.sight(id))) :: VerdictOn(record, id, c.sight(id)).Healthy?
  }

  lemma ResultsStep(record: map<NodeID, nat>, c: Cycle, ids: set<NodeID>, id: NodeID)
    requires id !in ids
    ensures var before, v := Results(record, c, ids), VerdictOn(record, id, c.sight(id));
            && Results(record, c, ids + {id}) == (if Conclusive(v) then before[id := v.Healthy?] else before)
            && (AnyDeferred(record, c, ids + {id}) <==> AnyDeferred(record, c, ids) || v.Deferred?)
  {
    assert id in ids + {id};
    if AnyDeferred(record, c, ids) {
      var x :| x in ids && VerdictOn(record, x, c.sight(x)).Deferred?;
      assert x in ids + {id};
    }
  }

  class HAHealthProber {
    var lastStableSession: map<NodeID, nat>

    static method Dedupe(lists: seq<seq<NodeID>>) returns (ids: seq<NodeID>)
      ensures Elems(ids) == Members(lists)
      ensures forall i, j :: 0 <= i < j < |ids| ==> ids[i] != ids[j]
    {
      ids := [];
      for i := 0 to |lists|
        invariant Elems(ids) == Members(lists[..i])
        invariant forall a, b :: 0 <= a < b < |ids| ==> ids[a] != ids[b]
      {
        var l := lists[i];
        for j := 0 to |l|
          invariant Elems(ids) == Members(lists[..i]) + Elems(l[..j])
          invariant forall a, b :: 0 <= a < b < |ids| ==> ids[a] != ids[b]
        {
          assert l[..j + 1] == l[..j] + [l[j]];
          assert Elems(l[..j + 1]) == Elems(l[..j]) + {l[j]};
          if l[j] !in ids {
            assert Elems(ids + [l[j]]) == Elems(ids) + {l[j]};
            ids := ids + [l[j]];
          }
        }
        assert l[..|l|] == l && lists[..i + 1][..i] == lists[..i];
      }
      assert lists[..|lists|] == lists;
    }

    /** Forgets the sessions of nodes that are not candidates any more. */
    method Prune(seen: set<NodeID>)
      modifies this
      ensures lastStableSession == map id | id in old(lastStableSession) && id in seen :: old(lastStableSession)[id]
    {
      var rest := lastStableSession.Keys;
      while rest != {}
        invariant rest <= old(lastStableSession).Keys
        invariant lastStableSession ==
                    map id | id in old(lastStableSession) && (id in seen || id in rest) :: old(lastStableSession)[id]
      {
        var id :| id in rest;
        if id !in seen { lastStableSession := lastStableSession - {id}; }
        rest := rest - {id};
      }
    }

    method MarkSessionStable(id: NodeID, epoch: nat) returns (stable: bool)
      modifies this
      ensures stable == Stable(old(lastStableSession), id, epoch)
      ensures lastStableSession == old(lastStableSession)[id := epoch]
    {
      stable := id in lastStableSession && lastStableSession[id] == epoch;
      lastStableSession := lastStableSession[id := epoch];
    }

    /** One probe: its effect on the record and its verdict. */
    method Probe(id: NodeID, s: Sight) returns (v: Verdict)
      modifies this
      ensures v == VerdictOn(old(lastStableSession), id, s)
      ensures lastStableSession == if !s.connected then old(lastStableSession) - {id}
                                   else if !s.found then old(lastStableSession)
                                   else old(lastStableSession)[id := s.epoch]
    {
      if !s.connected {
        lastStableSession := lastStableSession - {id};
        return NoVerdict;
      }
      if !s.found { return NoVerdict; }
      var stable := MarkSessionStable(id, s.epoch);
      match s.outcome
      case Responded => return Healthy;
      case Aborted => return NoVerdict;
      case TimedOut(connected, found, epoch) =>
        if !connected || !found { return NoVerdict; }
        if epoch != s.epoch { return Deferred; }
        if !stable { return Deferred; }
        return Unhealthy;
    }

    method ProbeAll(ids: seq<NodeID>, c: Cycle, ghost record: map<NodeID, nat>)
      returns (results: map<NodeID, bool>, deferred: bool)
      requires lastStableSession == Recorded(record, c, {}) && Elems(ids) == c.HA()
      requires forall i, j :: 0 <= i < j < |ids| ==> ids[i] != ids[j]
      modifies this
      ensures lastStableSession == Recorded(record, c, c.HA()) && results == Results(record, c, c.HA())
      ensures deferred == AnyDeferred(record, c, c.HA())
    {
      results, deferred := map[], false;
      assert Elems(ids[..0]) == {};
      for i := 0 to |ids|
        invariant lastStableSession == Recorded(record, c, Elems(ids[..i]))
        invariant results == Results(record, c, Elems(ids[..i])) && deferred == AnyDeferred(record, c, Elems(ids[..i]))
      {
        assert ids[i] in Elems(ids);
        assert Elems(ids[..i + 1]) == Elems(ids[..i]) + {ids[i]};
        RecordedStep(record, c, Elems(ids[..i]), ids[i]);
        ResultsStep(record, c, Elems(ids[..i]), ids[i]);
        var v := Probe(ids[i], c.sight(ids[i]));
        if v.Deferred? { deferred := true; }
        if Conclusive(v) { results := results[ids[i] := v.Healthy?]; }
      }
      assert ids[..|ids|] == ids;
    }

    /** A probe cycle, up to the batch of health updates it hands to the store. */
    method ProbeOnce(c: Cycle) returns (updates: map<NodeID, bool>)
      modifies this
      ensures updates == Applied(old(lastStableSession), c)
      ensures lastStableSession == Recorded(old(lastStableSession), c, c.HA())
    {
      ghost var record := lastStableSession;
      var ids := Dedupe(c.candidates);
      Prune(Elems(ids));
      var results, deferred := ProbeAll(ids, c, record);
      updates := if deferred then map[] else results;
    }
  }

  // ----- Histories ---------------------------------------------------------------------

  datatype Run = Fresh | Then(before: Run, cycle: Cycle)

  function Record(run: Run): map<NodeID, nat>
  {
    if run.Fresh? then map[] else Recorded(Record(run.before), run.cycle, run.cycle.HA())
  }

  /** Some cycle probed the node in this session, and no cycle since found it offline, out of the
      candidates, or in another session. */
  predicate ProbedSince(run: Run, id: NodeID, epoch: nat)
  {
    run.Then? && id in run.cycle.HA() &&
    var s := run.cycle.sight(id);
    s.connected && if s.found then s.epoch == epoch else ProbedSince(run.before, id, epoch)
  }

  lemma {:induction false} RecordMeansProbed(run: Run, id: NodeID, epoch: nat)
    ensures Stable(Record(run), id, epoch) <==> ProbedSince(run, id, epoch)
  {
    if run.Then? { RecordMeansProbed(run.before, id, epoch); }
  }

  /** The probe of this node timed out in a session that cannot be judged yet. */
  predicate TooFresh(run: Run, c: Cycle, id: NodeID)
  {
    var s := c.sight(id);
    && id in c.HA() && s.connected && s.found && s.outcome.TimedOut? && s.outcome.connected && s.outcome.found
    && (s.outcome.epoch != s.epoch || !ProbedSince(run, id, s.epoch))
  }

  lemma {:induction false} MembersExact(lists: seq<seq<NodeID>>, id: NodeID)
    ensures id in Members(lists) <==> exists i :: 0 <= i < |lists| && id in lists[i]
  {
    if lists != [] {
      var init := lists[..|lists| - 1];
      MembersExact(init, id);
      assert lists == init + [lists[|lists| - 1]];
      if i :| 0 <= i < |init| && id in init[i] { assert id in lists[i]; }
    }
  }

  lemma DeferredMeansTooFresh(run: Run, c: Cycle, id: NodeID)
    ensures TooFresh(run, c, id) <==> id in c.HA() && VerdictOn(Record(run), id, c.sight(id)).Deferred?
  {
    RecordMeansProbed(run, id, c.sight(id).epoch);
  }

  lemma AnyTooFresh(run: Run, c: Cycle)
    ensures AnyDeferred(Record(run), c, c.HA()) <==> exists x :: TooFresh(run, c, x)
  {
    forall x { DeferredMeansTooFresh(run, c, x); }
  }

  /** A node is marked healthy in a cycle iff it is a candidate, was connected and known, its probe was
      answered, and no probe of the cycle met a session too fresh to be judged. */
  lemma AnsweredProbesRestore(run: Run, c: Cycle, id: NodeID)
    ensures var s, updates := c.sight(id), Applied(Record(run), c);
            (id in updates && updates[id]) <==>
            && (exists i :: 0 <= i < |c.candidates| && id in c.candidates[i])
            && s.connected && s.found && s.outcome == Responded
            && forall other :: !TooFresh(run, c, other)
  {
    AnyTooFresh(run, c);
    MembersExact(c.candidates, id);
  }

  /** A node is marked unhealthy in a cycle iff its probe timed out while it stayed connected in one and
      the same session, an earlier cycle already probed that session without interruption, and no
      other probe of the cycle met a session that fresh. */
  lemma FreshSessionsNeverDemoted(run: Run, c: Cycle, id: NodeID)
    ensures var s, updates := c.sight(id), Applied(Record(run), c);
            (id in updates && !updates[id]) <==>
            && id in c.HA() && s.connected && s.found && s.outcome == TimedOut(true, true, s.epoch)
            && ProbedSince(run, id, s.epoch)
            && forall other :: !TooFresh(run, c, other)
  {
    AnyTooFresh(run, c);
    RecordMeansProbed(run, id, c.sight(id).epoch);
  }
}
