/**
 Histories of the address allocator: no address is ever held twice. And the backfill pass, which
 gives every node the addresses the configuration asks for.
 */
module IPHistory {
  import opened Basics
  import opened IPAllocation

  // ----- Who holds which address -------------------------------------------------------

  /** The pool, the outstanding addresses, those marked used that nobody holds, and the addresses
      loaded from the database at start-up. */
  datatype Ledger = Ledger(pool: Pool, held: multiset<Addr>, leaked: set<Addr>, db: set<Addr>)

  datatype Op = NextPair(raw4: nat, raw6: nat) | NextOne(v6: bool, raw: nat) | Release(ips: seq<Addr>)

  function InitialLedger(c: Config, db: set<Addr>): Ledger
  {
    Ledger(StartPool(c, db), multiset(db), {}, db)
  }

  predicate Enabled(c: Config, l: Ledger, op: Op)
  {
    match op
    case NextPair(raw4, raw6) => true
    case NextOne(v6, raw) => c.RangeOf(v6).Some?
    case Release(ips) => forall i :: 0 <= i < |ips| ==> ips[i] in l.held
  }

  function One(v6: bool, got: Option<nat>): multiset<Addr>
  {
    if got.Some? then multiset{Addr(v6, got.value)} else multiset{}
  }

  function Grant(l: Ledger, v6: bool, got: Option<nat>): Ledger
  {
    if got.None? then l
    else l.(pool := l.pool.Take(v6, got.value), held := l.held + One(v6, got))
  }

  function Step(c: Config, l: Ledger, op: Op): Ledger
    requires c.Valid() && Enabled(c, l, op)
  {
    match op
    case NextPair(raw4, raw6) =>
      var (ok, got4, got6, pool) := NextSpec(c, l.pool, raw4, raw6);
      if ok then l.(pool := pool, held := l.held + One(false, got4) + One(true, got6))
      else l.(pool := pool, leaked := l.leaked + (pool.used - l.pool.used))
    case NextOne(v6, raw) => Grant(l, v6, PickIn(c, l.pool, v6, raw))
    case Release(ips) =>
      var gone := set a | a in ips;
      l.(pool := l.pool.(used := l.pool.used - gone), held := l.held - multiset(gone))
  }

  function HeldSet(l: Ledger): set<Addr> { set a | a in l.held }

  predicate Proper(c: Config, a: Addr)
  {
    c.RangeOf(a.v6).Some? && c.RangeOf(a.v6).value.Contains(a.n) && !Reserved(a)
  }

  /** Nobody holds an address twice; held and leaked addresses, and the network and broadcast addresses
      that no loaded node had, make up exactly the used set; and whatever was handed out lies in its
      prefix and is not reserved. */
  ghost predicate Sound(c: Config, l: Ledger)
  {
    && l.pool.Valid(c)
    && (forall a :: l.held[a] <= 1)
    && l.pool.used == (c.Ends() - l.db) + HeldSet(l) + l.leaked
    && HeldSet(l) !! c.Ends() - l.db && HeldSet(l) !! l.leaked
    && forall a :: a in l.held ==> a in l.db || Proper(c, a)
  }

  lemma PickedIsNew(c: Config, l: Ledger, v6: bool, raw: nat)
    requires Sound(c, l) && c.RangeOf(v6).Some?
    ensures var got := PickIn(c, l.pool, v6, raw);
            got.Some? ==> Addr(v6, got.value) !in l.pool.used && Proper(c, Addr(v6, got.value))
  {
    PickExact(c.random, l.pool.used, v6, c.RangeOf(v6).value, l.pool.Prev(v6), raw);
  }

  lemma GrantKeepsSound(c: Config, l: Ledger, v6: bool, n: nat)
    requires Sound(c, l) && Addr(v6, n) !in l.pool.used && Proper(c, Addr(v6, n))
    ensures Sound(c, Grant(l, v6, Some(n)))
  {
    var a, l' := Addr(v6, n), Grant(l, v6, Some(n));
    assert a !in HeldSet(l);
    assert HeldSet(l') == HeldSet(l) + {a};
  }

  lemma LeakKeepsSound(c: Config, l: Ledger, v6: bool, n: nat)
    requires Sound(c, l) && Addr(v6, n) !in l.pool.used && Proper(c, Addr(v6, n))
    ensures Sound(c, Leak(l, v6, n))
  {
    assert HeldSet(Leak(l, v6, n)) == HeldSet(l);
  }

  lemma ReleaseKeepsSound(c: Config, l: Ledger, ips: seq<Addr>)
    requires Sound(c, l) && Enabled(c, l, Release(ips))
    ensures Sound(c, Step(c, l, Release(ips)))
  {
    var gone, l' := (set a | a in ips), Step(c, l, Release(ips));
    assert gone <= HeldSet(l);
    assert HeldSet(l') == HeldSet(l) - gone;
  }

  function Leak(l: Ledger, v6: bool, n: nat): Ledger
  {
    l.(pool := l.pool.Take(v6, n), leaked := l.leaked + {Addr(v6, n)})
  }

  /** Allocating a pair, once the IPv4 part is settled. */
  lemma PairSecond(c: Config, l: Ledger, got4: Option<nat>, raw4: nat, raw6: nat)
    requires c.Valid() && c.range6.Some? && got4 == (if c.range4.Some? then PickIn(c, l.pool, false, raw4) else None)
    requires c.range4.Some? ==> got4.Some? && Addr(false, got4.value) !in l.pool.used
    ensures var l1, l' := Grant(l, false, got4), Step(c, l, NextPair(raw4, raw6));
            var got6 := PickIn(c, l1.pool, true, raw6);
            l' == if got6.Some? then Grant(l1, true, got6) else if got4.Some? then Leak(l, false, got4.value) else l
  {
    var l1 := Grant(l, false, got4);
    var got6 := PickIn(c, l1.pool, true, raw6);
    if got4.Some? {
      assert l1.pool.used - l.pool.used == {Addr(false, got4.value)};
    } else {
      assert l.pool.used - l.pool.used == {} && l.leaked + {} == l.leaked;
    }
  }

  lemma NextPairKeepsSound(c: Config, l: Ledger, raw4: nat, raw6: nat)
    requires Sound(c, l)
    ensures Sound(c, Step(c, l, NextPair(raw4, raw6)))
  {
    var got4 := if c.range4.Some? then PickIn(c, l.pool, false, raw4) else None;
    if c.range4.Some? { PickedIsNew(c, l, false, raw4); }
    if c.range4.Some? && got4.None? {
      assert l.leaked + (l.pool.used - l.pool.used) == l.leaked;
    } else {
      if got4.Some? { GrantKeepsSound(c, l, false, got4.value); }
      if c.range6.Some? {
        SecondKeepsSound(c, l, got4, raw4, raw6);
      } else {
        assert Step(c, l, NextPair(raw4, raw6)) == Grant(l, false, got4);
      }
    }
  }

  lemma SecondKeepsSound(c: Config, l: Ledger, got4: Option<nat>, raw4: nat, raw6: nat)
    requires Sound(c, l) && Sound(c, Grant(l, false, got4)) && c.range6.Some?
    requires got4 == (if c.range4.Some? then PickIn(c, l.pool, false, raw4) else None)
    requires c.range4.Some? ==>
               got4.Some? && Addr(false, got4.value) !in l.pool.used && Proper(c, Addr(false, got4.value))
    ensures Sound(c, Step(c, l, NextPair(raw4, raw6)))
  {
    PairSecond(c, l, got4, raw4, raw6);
    var l1 := Grant(l, false, got4);
    PickedIsNew(c, l1, true, raw6);
    var got6 := PickIn(c, l1.pool, true, raw6);
    if got6.Some? {
      GrantKeepsSound(c, l1, true, got6.value);
    } else if got4.Some? {
      LeakKeepsSound(c, l, false, got4.value);
    }
  }

  lemma NextOneKeepsSound(c: Config, l: Ledger, v6: bool, raw: nat)
    requires Sound(c, l) && c.RangeOf(v6).Some?
    ensures Sound(c, Step(c, l, NextOne(v6, raw)))
  {
    PickedIsNew(c, l, v6, raw);
    var got := PickIn(c, l.pool, v6, raw);
    if got.Some? { GrantKeepsSound(c, l, v6, got.value); }
  }

  lemma StepKeepsSound(c: Config, l: Ledger, op: Op)
    requires Sound(c, l) && Enabled(c, l, op)
    ensures Sound(c, Step(c, l, op))
  {
    match op
    case NextPair(raw4, raw6) => NextPairKeepsSound(c, l, raw4, raw6);
    case NextOne(v6, raw) => NextOneKeepsSound(c, l, v6, raw);
    case Release(ips) => ReleaseKeepsSound(c, l, ips);
  }

  lemma InitiallySound(c: Config, db: set<Addr>)
    requires c.Valid()
    ensures Sound(c, InitialLedger(c, db))
  {
    StartValid(c, db);
    HeldAtStart(c, db);
    SplitUnion(c.Ends(), db);
  }

  lemma StartValid(c: Config, db: set<Addr>)
    requires c.Valid()
    ensures StartPool(c, db).Valid(c)
  {
  }

  lemma HeldAtStart(c: Config, db: set<Addr>)
    ensures HeldSet(InitialLedger(c, db)) == db && forall a :: InitialLedger(c, db).held[a] <= 1
  {
  }

  lemma SplitUnion(a: set<Addr>, b: set<Addr>)
    ensures a + b == (a - b) + b && b !! a - b
  {
  }

  /** A history of the allocator since start-up. */
  datatype Run = Load(db: set<Addr>) | Then(before: Run, op: Op, ledger: Ledger)
  {
    function Last(c: Config): Ledger { if Load? then InitialLedger(c, db) else ledger }
  }

  predicate IsRun(c: Config, run: Run)
    requires c.Valid()
  {
    match run
    case Load(db) => true
    case Then(before, op, ledger) =>
      IsRun(c, before) && Enabled(c, before.Last(c), op) && ledger == Step(c, before.Last(c), op)
  }

  /** Outstanding addresses are pairwise distinct after any history of allocations and releases, also
      of allocations that obtained an IPv4 address and then failed on IPv6. */
  lemma {:induction false} NoAddressHeldTwice(c: Config, run: Run)
    requires c.Valid() && IsRun(c, run)
    ensures Sound(c, run.Last(c))
  {
    match run
    case Load(db) =>
      InitiallySound(c, db);
    case Then(before, op, ledger) =>
      NoAddressHeldTwice(c, before);
      StepKeepsSound(c, before.Last(c), op);
  }

  /** The operation hands the address to its caller. */
  predicate Hands(c: Config, l: Ledger, op: Op, a: Addr)
    requires c.Valid() && Enabled(c, l, op)
  {
    match op
    case NextPair(raw4, raw6) =>
      var (ok, got4, got6, pool) := NextSpec(c, l.pool, raw4, raw6);
      ok && (if a.v6 then got6 else got4) == Some(a.n)
    case NextOne(v6, raw) => a.v6 == v6 && PickIn(c, l.pool, v6, raw) == Some(a.n)
    case Release(ips) => false
  }

  /** The address was loaded or handed out, and not given back since. */
  predicate HeldBy(c: Config, run: Run, a: Addr)
    requires c.Valid() && IsRun(c, run)
  {
    match run
    case Load(db) => a in db
    case Then(before, op, ledger) =>
      Hands(c, before.Last(c), op, a) || (HeldBy(c, before, a) && !(op.Release? && a in op.ips))
  }

  lemma StepHolds(c: Config, l: Ledger, op: Op, a: Addr)
    requires Sound(c, l) && Enabled(c, l, op)
    ensures a in Step(c, l, op).held <==> Hands(c, l, op, a) || (a in l.held && !(op.Release? && a in op.ips))
  {
    if op.Release? { assert l.held[a] <= 1; }
  }

  /** The outstanding addresses are exactly those handed out, or loaded, and not given back since; none of them
      is free, and an address given back is free again unless it is reserved. */
  lemma {:induction false} HoldersExact(c: Config, run: Run, a: Addr)
    requires c.Valid() && IsRun(c, run)
    ensures a in run.Last(c).held <==> HeldBy(c, run, a)
    ensures HeldBy(c, run, a) ==> !Free(run.Last(c).pool.used, a.v6, a.n)
    ensures run.Then? && run.op.Release? && a in run.op.ips && !Reserved(a) ==> Free(run.ledger.pool.used, a.v6, a.n)
  {
    NoAddressHeldTwice(c, run);
    assert a in HeldSet(run.Last(c)) <==> a in run.Last(c).held;
    if run.Then? {
      HoldersExact(c, run.before, a);
      NoAddressHeldTwice(c, run.before);
      StepHolds(c, run.before.Last(c), run.op, a);
    }
  }

  // ----- Sequential allocation never looks back ----------------------------------------

  /** The addresses an operation newly marks used. */
  function NewIn(c: Config, l: Ledger, op: Op): set<Addr>
    requires c.Valid() && Enabled(c, l, op)
  {
    Step(c, l, op).pool.used - l.pool.used
  }

  function Granted(c: Config, run: Run): multiset<Addr>
    requires c.Valid() && IsRun(c, run)
  {
    if run.Load? then multiset{} else Granted(c, run.before) + multiset(NewIn(c, run.before.Last(c), run.op))
  }

  lemma SequentialPick(c: Config, p: Pool, v6: bool, raw: nat)
    requires c.Valid() && c.RangeOf(v6).Some? && !c.random
    ensures var got := PickIn(c, p, v6, raw);
            got.Some? ==> p.Prev(v6) < got.value && p.Take(v6, got.value).Prev(v6) == got.value
                          && p.Take(v6, got.value).Prev(!v6) == p.Prev(!v6)
  {
  }

  predicate Forward(p: Pool, p': Pool, a: Addr)
  {
    p.Prev(a.v6) <= p'.Prev(a.v6) && (a in p'.used - p.used ==> p.Prev(a.v6) < a.n <= p'.Prev(a.v6))
  }

  lemma SequentialPair(c: Config, p: Pool, raw4: nat, raw6: nat, a: Addr)
    requires c.Valid() && !c.random
    ensures Forward(p, NextSpec(c, p, raw4, raw6).3, a)
  {
    if c.range4.Some? { SequentialPick(c, p, false, raw4); }
    var got4 := if c.range4.Some? then PickIn(c, p, false, raw4) else None;
    var p1 := if got4.Some? then p.Take(false, got4.value) else p;
    assert Forward(p, p1, a);
    if c.range6.Some? { SequentialPick(c, p1, true, raw6); }
  }

  lemma SequentialStep(c: Config, l: Ledger, op: Op, a: Addr)
    requires c.Valid() && Enabled(c, l, op) && !c.random
    ensures Forward(l.pool, Step(c, l, op).pool, a)
  {
    match op
    case NextPair(raw4, raw6) => SequentialPair(c, l.pool, raw4, raw6, a);
    case NextOne(v6, raw) => SequentialPick(c, l.pool, v6, raw);
    case Release(ips) =>
  }

  /** Under the sequential strategy no address is handed out twice since start-up, not even after it was
      released. */
  lemma {:induction false} SequentialNeverReuses(c: Config, run: Run, a: Addr)
    requires c.Valid() && !c.random && IsRun(c, run)
    ensures Granted(c, run)[a] <= 1
    ensures a in Granted(c, run) ==> a.n <= run.Last(c).pool.Prev(a.v6)
  {
    if run.Then? {
      SequentialNeverReuses(c, run.before, a);
      SequentialStep(c, run.before.Last(c), run.op, a);
    }
  }

  // ----- Backfill ----------------------------------------------------------------------

  /** The addresses of one node. */
  datatype Row = Row(v4: Option<nat>, v6: Option<nat>)
  {
    function At(six: bool): Option<nat> { if six then v6 else v4 }
  }

  /** Nothing to do for the node: it has an address of a family iff the family is configured. */
  predicate Complete(c: Config, row: Row) { forall six :: row.At(six).Some? <==> c.RangeOf(six).Some? }

  /** Complete, and addresses of configured families are kept. */
  predicate Filled(c: Config, before: Row, after: Row)
  {
    Complete(c, after) && forall six :: before.At(six).Some? && c.RangeOf(six).Some? ==> after.At(six) == before.At(six)
  }

  predicate RowIn(row: Row, used: set<Addr>)
  {
    forall six :: row.At(six).Some? ==> Addr(six, row.At(six).value) in used
  }

  ghost predicate RowsIn(rows: seq<Row>, used: set<Addr>) { forall i :: 0 <= i < |rows| ==> RowIn(rows[i], used) }

  /** No two nodes share an address. */
  ghost predicate Distinct(rows: seq<Row>)
  {
    forall i, j, six :: 0 <= i < j < |rows| && rows[i].At(six).Some? ==> rows[i].At(six) != rows[j].At(six)
  }

  /** Each address of the new row was there before or is new to everybody. */
  predicate Extends(before: Row, after: Row, used: set<Addr>)
  {
    forall six :: after.At(six).Some? ==> after.At(six) == before.At(six) || Addr(six, after.At(six).value) !in used
  }

  lemma UpdateKeepsDistinct(rows: seq<Row>, k: nat, row: Row, used: set<Addr>)
    requires k < |rows| && Distinct(rows) && RowsIn(rows, used) && Extends(rows[k], row, used)
    ensures Distinct(rows[k := row])
  {
    var rows' := rows[k := row];
    forall i, j, six | 0 <= i < j < |rows'| && rows'[i].At(six).Some? ensures rows'[i].At(six) != rows'[j].At(six)
    {
      assert RowIn(rows[i], used) && RowIn(rows[j], used);
      assert rows[i].At(six).Some? ==> rows[i].At(six) != rows[j].At(six);
    }
  }

  /** The addresses of one family for one node. */
  method FillFamily(alloc: IPAllocator, has: Option<nat>, six: bool, raw: nat) returns (ok: bool, got: Option<nat>)
    requires alloc.Valid()
    modifies alloc
    ensures alloc.Valid() && old(alloc.used) <= alloc.used
    ensures ok ==> (got.Some? <==> alloc.config.RangeOf(six).Some?) && (has.Some? && got.Some? ==> got == has)
    ensures got.Some? ==> got == has || (Addr(six, got.value) !in old(alloc.used) && Addr(six, got.value) in alloc.used)
    ensures ok && has.None? && got.Some? ==> Nearest(alloc.config, old(alloc.Value()), six, raw, got.value)
    ensures !ok ==> Exhausted(alloc.config, alloc.Value(), six)
    ensures (has.Some? <==> alloc.config.RangeOf(six).Some?) ==> ok && alloc.Value() == old(alloc.Value())
  {
    ok, got := true, has;
    if alloc.config.RangeOf(six).Some? && has.None? {
      PickInExact(alloc.config, alloc.Value(), six, raw);
      got := alloc.Allocate(six, raw);
      ok := got.Some?;
    }
    if alloc.config.RangeOf(six).None? && has.Some? { got := None; }
  }

  method FillRow(alloc: IPAllocator, row: Row, raw4: nat, raw6: nat) returns (ok: bool, row': Row)
    requires alloc.Valid() && RowIn(row, alloc.used)
    modifies alloc
    ensures alloc.Valid() && old(alloc.used) <= alloc.used
    ensures ok ==> Filled(alloc.config, row, row') && Extends(row, row', old(alloc.used)) && RowIn(row', alloc.used)
    ensures !ok ==> exists six :: Exhausted(alloc.config, alloc.Value(), six)
    ensures Complete(alloc.config, row) ==> ok && row' == row && alloc.Value() == old(alloc.Value())
  {
    row' := row;
    var got4, got6;
    assert row.At(false) == row.v4 && row.At(true) == row.v6;
    ok, got4 := FillFamily(alloc, row.v4, false, raw4);
    if !ok { return; }
    ghost var used4 := alloc.used;
    ok, got6 := FillFamily(alloc, row.v6, true, raw6);
    if !ok { return; }
    row' := Row(got4, got6);
    assert row'.At(false) == got4 && row'.At(true) == got6;
  }

  /** The backfill pass. If it succeeds every node has an address of exactly the configured families,
      keeps those it had, and no two nodes share one; it fails only when a prefix is exhausted; and
      where nothing is missing it changes nothing, so a second pass is without effect. */
  method BackfillNodeIPs(alloc: IPAllocator, rows: array<Row>, raw: nat -> nat) returns (ok: bool)
    requires alloc.Valid() && RowsIn(rows[..], alloc.used) && Distinct(rows[..])
    modifies alloc, rows
    ensures alloc.Valid() && old(alloc.used) <= alloc.used
    ensures Distinct(rows[..]) && RowsIn(rows[..], alloc.used)
    ensures ok ==> forall i :: 0 <= i < rows.Length ==> Filled(alloc.config, old(rows[i]), rows[i])
    ensures !ok ==> exists six :: Exhausted(alloc.config, alloc.Value(), six)
    ensures (forall i :: 0 <= i < rows.Length ==> Complete(alloc.config, old(rows[i]))) ==>
              ok && rows[..] == old(rows[..]) && alloc.Value() == old(alloc.Value())
  {
    var i := 0;
    while i < rows.Length
      invariant 0 <= i <= rows.Length
      invariant alloc.Valid() && old(alloc.used) <= alloc.used
      invariant Distinct(rows[..]) && RowsIn(rows[..], alloc.used)
      invariant forall k :: i <= k < rows.Length ==> rows[k] == old(rows[k])
      invariant forall k :: 0 <= k < i ==> Filled(alloc.config, old(rows[k]), rows[k])
      invariant (forall k :: 0 <= k < i ==> Complete(alloc.config, old(rows[k]))) ==>
                  rows[..] == old(rows[..]) && alloc.Value() == old(alloc.Value())
    {
      ghost var before, used := rows[..], alloc.used;
      var row;
      ok, row := FillRow(alloc, rows[i], raw(2 * i), raw(2 * i + 1));
      if !ok { return; }
      UpdateKeepsDistinct(before, i, row, used);
      rows[i] := row;
      assert rows[..] == before[i := row];
      i := i + 1;
    }
    ok := true;
  }
}
