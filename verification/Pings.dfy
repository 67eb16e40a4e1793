/**
 The ping tracker: pending pings and the response channels their callers wait on. Completing a
 ping removes it under the lock and then sends and closes outside of it, so completions,
 cancellations and a drain interleave. Ping identifiers come from a random source and may collide.
 */
module Pings {
  import opened Basics

  type PingID = nat
  type Channel = nat

  /** A completion between taking the ping and closing its channel. */
  datatype Hand = ToSend(ch: Channel) | ToClose(ch: Channel)

  datatype State = State(
    pending: map<PingID, Channel>,
    made: nat,                        // channels created so far: 0, 1, ..., made - 1
    hands: map<nat, Hand>,            // completions under way, by goroutine
    sends: multiset<Channel>,
    closes: multiset<Channel>,
    panicked: bool)                   // a closed channel was sent on or closed again

  const START := State(map[], 0, map[], multiset{}, multiset{}, false)

  datatype Action =
    | Register(id: PingID)
    | Take(k: nat, id: PingID)
    | Send(k: nat)
    | Close(k: nat)
    | Cancel(id: PingID)
    | Drain

  predicate Enabled(s: State, a: Action)
  {
    match a
    case Register(id) => true
    case Take(k, id) => k !in s.hands
    case Send(k) => k in s.hands && s.hands[k].ToSend? && s.hands[k].ch !in s.sends
    case Close(k) => k in s.hands && s.hands[k].ToClose?
    case Cancel(id) => true
    case Drain => true
  }

  function ChannelsOf(pending: map<PingID, Channel>, ids: set<PingID>): set<Channel>
  {
    set id | id in ids && id in pending :: pending[id]
  }

  function CloseAll(s: State): multiset<Channel> { s.closes + multiset(ChannelsOf(s.pending, s.pending.Keys)) }

  predicate Injective(pending: map<PingID, Channel>)
  {
    forall i, j :: i in pending && j in pending && pending[i] == pending[j] ==> i == j
  }

  /** Closing all pending channels would close one that is closed already, or one twice. */
  predicate ClosesTwice(s: State)
  {
    || (exists id :: id in s.pending && s.pending[id] in s.closes)
    || !Injective(s.pending)
  }

  function Next(s: State, a: Action): State
    requires Enabled(s, a)
  {
    match a
    case Register(id) => s.(pending := s.pending[id := s.made], made := s.made + 1)
    case Take(k, id) =>
      if id in s.pending then s.(pending := s.pending - {id}, hands := s.hands[k := ToSend(s.pending[id])]) else s
    case Send(k) =>
      var c := s.hands[k].ch;
      s.(hands := s.hands[k := ToClose(c)], sends := s.sends + multiset{c}, panicked := s.panicked || c in s.closes)
    case Close(k) =>
      var c := s.hands[k].ch;
      s.(hands := s.hands - {k}, closes := s.closes + multiset{c}, panicked := s.panicked || c in s.closes)
    case Cancel(id) => s.(pending := s.pending - {id})
    case Drain =>
      s.(pending := map[], closes := CloseAll(s), panicked := s.panicked || ClosesTwice(s))
  }

  datatype Run = Fresh | Then(before: Run, action: Action, state: State)
  {
    function Last(): State { if Fresh? then START else state }
  }

  ghost predicate IsRun(run: Run)
  {
    run.Then? ==>
      && IsRun(run.before) && Enabled(run.before.Last(), run.action)
      && run.state == Next(run.before.Last(), run.action)
  }

  predicate Waiting(s: State, c: Channel) { exists id :: id in s.pending && s.pending[id] == c }

  predicate InHand(s: State, c: Channel) { exists k :: k in s.hands && s.hands[k].ch == c }

  /** A channel is pending under at most one ping or held by at most one completion, not both; while
      it is, nothing closed it, and only a completion past its send has sent on it. */
  ghost predicate ChannelOk(s: State, c: Channel)
  {
    && s.sends[c] <= 1 && s.closes[c] <= 1
    && (Waiting(s, c) ==> c < s.made && c !in s.sends && c !in s.closes && !InHand(s, c))
    && (forall i, j :: i in s.pending && j in s.pending && s.pending[i] == c && s.pending[j] == c ==> i == j)
    && (forall k :: k in s.hands && s.hands[k].ch == c ==>
          c < s.made && c !in s.closes && (c in s.sends <==> s.hands[k].ToClose?))
    && (forall i, j :: i in s.hands && j in s.hands && s.hands[i].ch == c && s.hands[j].ch == c ==> i == j)
    && (c in s.sends || c in s.closes ==> c < s.made)
  }

  ghost predicate Inv(s: State) { !s.panicked && forall c :: ChannelOk(s, c) }

  lemma NextKeepsChannel(s: State, a: Action, c: Channel)
    requires Inv(s) && Enabled(s, a)
    ensures ChannelOk(Next(s, a), c)
  {
    assert ChannelOk(s, c);
    match a
    case Register(id) => assert ChannelOk(s, s.made);
    case Take(k, id) => if id in s.pending { assert Waiting(s, s.pending[id]); assert ChannelOk(s, s.pending[id]); }
    case Send(k) =>
    case Close(k) =>
    case Cancel(id) =>
    case Drain => assert Waiting(s, c) <==> c in ChannelsOf(s.pending, s.pending.Keys);
  }

  lemma NextNeverPanics(s: State, a: Action)
    requires Inv(s) && Enabled(s, a)
    ensures !Next(s, a).panicked
  {
    match a
    case Send(k) => assert ChannelOk(s, s.hands[k].ch);
    case Close(k) => assert ChannelOk(s, s.hands[k].ch);
    case Drain =>
      forall id | id in s.pending ensures s.pending[id] !in s.closes
      {
        assert ChannelOk(s, s.pending[id]) && Waiting(s, s.pending[id]);
      }
      forall i, j | i in s.pending && j in s.pending && s.pending[i] == s.pending[j] ensures i == j
      {
        assert ChannelOk(s, s.pending[i]);
      }
    case _ =>
  }

  /** Every response channel is sent on at most once and closed at most once, never sent on or closed
      after it was closed, whatever completions, cancellations and drains overlap. */
  lemma {:induction false} ChannelsUsedOnce(run: Run)
    requires IsRun(run)
    ensures Inv(run.Last())
  {
    if run.Then? {
      var s, a := run.before.Last(), run.action;
      ChannelsUsedOnce(run.before);
      NextNeverPanics(s, a);
      forall c ensures ChannelOk(Next(s, a), c) { NextKeepsChannel(s, a, c); }
    }
  }

  /** A completion that has taken a ping never blocks on the one-element channel, and its caller is
      sent exactly one latency before the channel is closed. */
  lemma CompletionDelivers(run: Run, k: nat)
    requires IsRun(run) && k in run.Last().hands && run.Last().hands[k].ToSend?
    ensures Enabled(run.Last(), Send(k))
    ensures var s1 := Next(run.Last(), Send(k));
            && Enabled(s1, Close(k))
            && var s2, c := Next(s1, Close(k)), run.Last().hands[k].ch;
               s2.sends[c] == 1 && s2.closes[c] == 1 && k !in s2.hands
  {
    ChannelsUsedOnce(run);
    assert ChannelOk(run.Last(), run.Last().hands[k].ch);
  }

  // ----- Histories by their actions ----------------------------------------------------

  function Registrations(run: Run): nat
  {
    if run.Fresh? then 0 else Registrations(run.before) + if run.action.Register? then 1 else 0
  }

  /** The channel of the ping's last registration, unless it was taken, cancelled or drained since. */
  function PendingChannel(run: Run, id: PingID): Option<Channel>
  {
    if run.Fresh? then None
    else
      match run.action
      case Register(x) => if x == id then Some(Registrations(run.before)) else PendingChannel(run.before, id)
      case Take(k, x) => if x == id then None else PendingChannel(run.before, id)
      case Cancel(x) => if x == id then None else PendingChannel(run.before, id)
      case Drain => None
      case _ => PendingChannel(run.before, id)
  }

  predicate PendingIs(s: State, id: PingID, c: Option<Channel>)
  {
    (if id in s.pending then Some(s.pending[id]) else None) == c
  }

  lemma StepPending(s: State, a: Action, id: PingID)
    requires Enabled(s, a)
    ensures Next(s, a).made == s.made + if a.Register? then 1 else 0
    ensures var now := if id in s.pending then Some(s.pending[id]) else None;
            PendingIs(Next(s, a), id,
                      match a
                      case Register(x) => if x == id then Some(s.made) else now
                      case Take(k, x) => if x == id then None else now
                      case Cancel(x) => if x == id then None else now
                      case Drain => None
                      case _ => now)
  {
  }

  /** In every history: a ping is pending iff it was registered and not taken, cancelled or drained since, and then
      its caller waits on the channel of that registration. */
  lemma {:induction false} PendingExact(run: Run, id: PingID)
    requires IsRun(run)
    ensures run.Last().made == Registrations(run) && PendingIs(run.Last(), id, PendingChannel(run, id))
  {
    if run.Then? {
      PendingExact(run.before, id);
      StepPending(run.before.Last(), run.action, id);
    }
  }

  /** Some ping's caller waits on the channel. */
  ghost predicate Awaited(run: Run, c: Channel) { exists id :: WaitsOn(run, id, c) }

  predicate WaitsOn(run: Run, id: PingID, c: Channel) { PendingChannel(run, id) == Some(c) }

  /** The step takes the ping waiting on the channel. */
  predicate Takes(run: Run, c: Channel) { run.Then? && run.action.Take? && WaitsOn(run.before, run.action.id, c) }

  /** The channel was drained while its ping was pending. */
  ghost predicate Drained(run: Run, c: Channel)
  {
    run.Then? && ((run.action.Drain? && Awaited(run.before, c)) || Drained(run.before, c))
  }

  predicate Taken(run: Run, c: Channel) { run.Then? && (Takes(run, c) || Taken(run.before, c)) }

  lemma WaitingExact(run: Run, c: Channel)
    requires IsRun(run)
    ensures Waiting(run.Last(), c) <==> Awaited(run, c)
  {
    forall id ensures WaitsOn(run, id, c) <==> id in run.Last().pending && run.Last().pending[id] == c
    {
      PendingExact(run, id);
    }
  }

  /** A completion has the channel, or has closed it after sending. */
  predicate Completing(s: State, c: Channel) { InHand(s, c) || (c in s.sends && c in s.closes) }

  /** In every history: a channel is in the hands of a completion, or sent on and closed by it, iff its ping was
      taken; and it is closed without a value iff it was drained. */
  lemma {:induction false} ChannelFate(run: Run, c: Channel)
    requires IsRun(run)
    ensures Completing(run.Last(), c) <==> Taken(run, c)
    ensures (c in run.Last().closes && c !in run.Last().sends) <==> Drained(run, c)
  {
    if run.Then? {
      ChannelFate(run.before, c);
      WaitingExact(run.before, c);
      ChannelsUsedOnce(run.before);
      if run.action.Take? { PendingExact(run.before, run.action.id); }
      FateStep(run.before.Last(), run.action, c);
    }
  }

  lemma FateStep(s: State, a: Action, c: Channel)
    requires Inv(s) && Enabled(s, a)
    ensures Completing(Next(s, a), c) <==> Completing(s, c) || (a.Take? && PendingIs(s, a.id, Some(c)))
    ensures (c in Next(s, a).closes && c !in Next(s, a).sends) <==>
            (c in s.closes && c !in s.sends) || (a.Drain? && Waiting(s, c))
  {
    assert ChannelOk(s, c);
    match a
    case Register(id) =>
    case Take(k, id) =>
      if id in s.pending {
        assert Next(s, a).hands[k].ch == s.pending[id];
        assert forall j :: j in s.hands ==> Next(s, a).hands[j] == s.hands[j];
      }
    case Send(k) => assert forall j :: j in s.hands ==> Next(s, a).hands[j].ch == s.hands[j].ch;
    case Close(k) =>
      assert ChannelOk(s, s.hands[k].ch);
      assert forall j :: j in s.hands && j != k ==> Next(s, a).hands[j] == s.hands[j];
    case Cancel(id) =>
    case Drain => assert Waiting(s, c) <==> c in ChannelsOf(s.pending, s.pending.Keys);
  }

  /** Once registered, and until it is taken, cancelled, drained or registered again, a ping can be completed: the
      caller of that registration is sent one latency, and then its channel is closed. */
  lemma RegisteredCanComplete(run: Run, id: PingID, k: nat)
    requires IsRun(run) && PendingChannel(run, id).Some? && k !in run.Last().hands
    ensures Enabled(run.Last(), Take(k, id))
    ensures var s1, c := Next(run.Last(), Take(k, id)), PendingChannel(run, id).value;
            && Enabled(s1, Send(k))
            && var s2 := Next(s1, Send(k));
               Enabled(s2, Close(k)) && Next(s2, Close(k)).sends[c] == 1 && Next(s2, Close(k)).closes[c] == 1
  {
    PendingExact(run, id);
    var s1 := Next(run.Last(), Take(k, id));
    var run1 := Then(run, Take(k, id), s1);
    assert IsRun(run1) && run1.Last() == s1;
    assert s1.hands[k] == ToSend(PendingChannel(run, id).value);
    CompletionDelivers(run1, k);
  }

  // ----- The tracker -------------------------------------------------------------------

  /** A completion without interference. */
  ghost function Completed(s: State, id: PingID): State
    requires Inv(s) && s.hands == map[]
  {
    if id !in s.pending then s
    else
      var s1 := Next(s, Take(0, id));
      NextKeepsChannel(s, Take(0, id), s.pending[id]);
      Next(Next(s1, Send(0)), Close(0))
  }

  class PingTracker {
    var pending: map<PingID, Channel>
    var made: nat
    var sends: multiset<Channel>
    var closes: multiset<Channel>

    ghost function Value(): State
      reads this
    {
      State(pending, made, map[], sends, closes, false)
    }

    constructor ()
      ensures Value() == START
    {
      pending, made, sends, closes := map[], 0, multiset{}, multiset{};
    }

    method Register(id: PingID) returns (ch: Channel)
      modifies this
      ensures Value() == Next(old(Value()), Action.Register(id)) && ch == old(made)
    {
      ch := made;
      made := made + 1;
      pending := pending[id := ch];
    }

    method Complete(id: PingID) returns (known: bool)
      requires Inv(Value())
      modifies this
      ensures known <==> id in old(pending)
      ensures Value() == Completed(old(Value()), id)
    {
      known := id in pending;
      if known {
        var ch := pending[id];
        pending := pending - {id};
        assert ChannelOk(old(Value()), ch) && Waiting(old(Value()), ch);
        sends := sends + multiset{ch};
        closes := closes + multiset{ch};
        assert Completed(old(Value()), id).hands == map[];
      }
    }

    method Cancel(id: PingID)
      modifies this
      ensures Value() == Next(old(Value()), Action.Cancel(id)) && id !in pending
    {
      pending := pending - {id};
    }

    method Drain()
      requires Inv(Value())
      modifies this
      ensures Value() == Next(old(Value()), Action.Drain)
    {
      NextNeverPanics(Value(), Action.Drain);
      CloseChannels();
      pending := map[];
    }

    method CloseChannels()
      requires Injective(pending)
      modifies this`closes
      ensures closes == old(closes) + multiset(ChannelsOf(pending, pending.Keys))
    {
      var rest := pending.Keys;
      assert ChannelsOf(pending, pending.Keys - rest) == {};
      while rest != {}
        invariant rest <= pending.Keys
        invariant closes == old(closes) + multiset(ChannelsOf(pending, pending.Keys - rest))
      {
        var id :| id in rest;
        assert pending.Keys - (rest - {id}) == (pending.Keys - rest) + {id};
        DrainOne(pending, pending.Keys - rest, id);
        closes := closes + multiset{pending[id]};
        rest := rest - {id};
      }
      assert pending.Keys - rest == pending.Keys;
    }
  }

  lemma DrainOne(pending: map<PingID, Channel>, gone: set<PingID>, id: PingID)
    requires Injective(pending) && gone <= pending.Keys && id in pending && id !in gone
    ensures multiset(ChannelsOf(pending, gone + {id})) == multiset(ChannelsOf(pending, gone)) + multiset{pending[id]}
  {
    assert pending[id] !in ChannelsOf(pending, gone);
    assert ChannelsOf(pending, gone + {id}) == ChannelsOf(pending, gone) + {pending[id]};
  }
}
