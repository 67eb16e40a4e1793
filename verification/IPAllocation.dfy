/**
 The address allocator: a bounded search over each configured prefix, sequential without wrapping
 or from a random start with wrapping. An address is a number within its family, and a prefix the
 interval of its addresses; the random source is a parameter.
 */
module IPAllocation {
  import opened Basics

  datatype Addr = Addr(v6: bool, n: nat)

  datatype Range = Range(lo: nat, hi: nat)
  {
    predicate Contains(n: nat) { lo <= n <= hi }
  }

  datatype Config = Config(range4: Option<Range>, range6: Option<Range>, random: bool)
  {
    function RangeOf(v6: bool): Option<Range> { if v6 then range6 else range4 }

    predicate Valid()
    {
      (range4.Some? ==> range4.value.lo <= range4.value.hi) && (range6.Some? ==> range6.value.lo <= range6.value.hi)
    }

    /** Network and broadcast addresses of the configured prefixes. */
    function Ends(): set<Addr>
    {
      (if range4.Some? then {Addr(false, range4.value.lo), Addr(false, range4.value.hi)} else {})
      + (if range6.Some? then {Addr(true, range6.value.lo), Addr(true, range6.value.hi)} else {})
    }
  }

  /** 100.115.92.0/23, 100.100.100.100 and fd7a:115c:a1e0::53. */
  predicate Reserved(a: Addr)
  {
    if a.v6 then a.n == 0xfd7a115ca1e000000000000000000053
    else 0x64735c00 <= a.n <= 0x64735dff || a.n == 0x64646464
  }

  /** The IPv4 address a.b.c.d. */
  function Quad(a: nat, b: nat, c: nat, d: nat): nat { ((a * 256 + b) * 256 + c) * 256 + d }

  lemma ReservedExact(a: nat, b: nat, c: nat, d: nat)
    requires a < 256 && b < 256 && c < 256 && d < 256
    ensures Reserved(Addr(false, Quad(a, b, c, d))) <==>
            (a == 100 && b == 115 && (c == 92 || c == 93)) || (a == 100 && b == 100 && c == 100 && d == 100)
  {
  }

  // ----- Which address is next ---------------------------------------------------------

  predicate Free(used: set<Addr>, v6: bool, n: nat) { Addr(v6, n) !in used && !Reserved(Addr(v6, n)) }

  /** The first free address of [n, hi]. */
  function FirstFree(used: set<Addr>, v6: bool, n: nat, hi: int): (r: Option<nat>)
    ensures r.Some? ==> n <= r.value <= hi && Free(used, v6, r.value)
    decreases hi + 1 - n
  {
    if n > hi then None else if Free(used, v6, n) then Some(n) else FirstFree(used, v6, n + 1, hi)
  }

  lemma {:induction false} FirstFreeLeast(used: set<Addr>, v6: bool, n: nat, hi: int, m: nat)
    requires n <= m <= hi && Free(used, v6, m)
    ensures FirstFree(used, v6, n, hi).Some? && FirstFree(used, v6, n, hi).value <= m
    decreases m - n
  {
    if n < m { FirstFreeLeast(used, v6, n + 1, hi, m); }
  }

  function Start(r: Range, raw: nat): (n: nat)
    requires r.lo <= r.hi
    ensures r.Contains(n) && (r.lo < r.hi ==> n < r.hi)
  {
    if r.hi == r.lo then r.lo else r.lo + raw % (r.hi - r.lo)
  }

  /** The random start can be any address of the prefix but its last. */
  lemma StartCovers(r: Range, n: nat)
    requires r.lo <= n < r.hi
    ensures Start(r, n - r.lo) == n
  {
  }

  /** Sequential: the first free address after prev. Random: the first free address at or after the
      start, or else from the bottom of the prefix. */
  function Pick(random: bool, used: set<Addr>, v6: bool, r: Range, prev: nat, raw: nat): Option<nat>
    requires r.lo <= r.hi
  {
    if !random then FirstFree(used, v6, prev + 1, r.hi)
    else
      var start := Start(r, raw);
      var p := FirstFree(used, v6, start, r.hi);
      if p.Some? then p else FirstFree(used, v6, r.lo, start - 1)
  }

  /** A picked address is in the prefix and free. Sequential allocation fails iff nothing free is left
      above prev, random allocation iff nothing free is left at all. */
  lemma PickExact(random: bool, used: set<Addr>, v6: bool, r: Range, prev: nat, raw: nat)
    requires r.Contains(prev)
    ensures var p := Pick(random, used, v6, r, prev, raw);
            && (p.Some? ==> r.Contains(p.value) && Free(used, v6, p.value))
            && (p.None? <==> forall n: nat :: r.Contains(n) && Free(used, v6, n) ==> !random && n <= prev)
  {
    var p, start := Pick(random, used, v6, r, prev, raw), Start(r, raw);
    forall n: nat | r.Contains(n) && Free(used, v6, n) && (random || n > prev) ensures p.Some?
    {
      if !random {
        FirstFreeLeast(used, v6, prev + 1, r.hi, n);
      } else if n >= start {
        FirstFreeLeast(used, v6, start, r.hi, n);
      } else {
        FirstFreeLeast(used, v6, r.lo, start - 1, n);
      }
    }
  }

  /** How far the cyclic walk from start goes before it comes to n. */
  function Distance(r: Range, start: nat, n: nat): int
  {
    if n >= start then n - start else n + (r.hi - r.lo + 1) - start
  }

  /** The picked address is the first free one on the walk: the least after prev, or the nearest to
      the random start going up and around. */
  lemma PickNearest(random: bool, used: set<Addr>, v6: bool, r: Range, prev: nat, raw: nat, n: nat)
    requires r.Contains(prev) && r.Contains(n) && Free(used, v6, n) && (random || n > prev)
    ensures var p := Pick(random, used, v6, r, prev, raw);
            p.Some? && if random then Distance(r, Start(r, raw), p.value) <= Distance(r, Start(r, raw), n)
                else prev < p.value <= n
  {
    var start := Start(r, raw);
    if !random {
      FirstFreeLeast(used, v6, prev + 1, r.hi, n);
    } else if n >= start {
      FirstFreeLeast(used, v6, start, r.hi, n);
    } else {
      FirstFreeLeast(used, v6, r.lo, start - 1, n);
    }
  }

  // ----- The pool ----------------------------------------------------------------------

  datatype Pool = Pool(prev4: nat, prev6: nat, used: set<Addr>)
  {
    function Prev(v6: bool): nat { if v6 then prev6 else prev4 }

    function Take(v6: bool, n: nat): Pool
    {
      Pool(if v6 then prev4 else n, if v6 then n else prev6, used + {Addr(v6, n)})
    }

    predicate Valid(c: Config)
    {
      c.Valid() && forall v6 :: c.RangeOf(v6).Some? ==> c.RangeOf(v6).value.Contains(Prev(v6))
    }
  }

  /** What one allocation in a configured family yields. */
  function PickIn(c: Config, p: Pool, v6: bool, raw: nat): Option<nat>
    requires c.Valid() && c.RangeOf(v6).Some?
  {
    Pick(c.random, p.used, v6, c.RangeOf(v6).value, p.Prev(v6), raw)
  }

  /** The pool at start-up: the search starts at the network addresses, and network, broadcast and loaded
      addresses are used. */
  function StartPool(c: Config, loaded: set<Addr>): Pool
  {
    Pool(if c.range4.Some? then c.range4.value.lo else 0, if c.range6.Some? then c.range6.value.lo else 0,
         c.Ends() + loaded)
  }

  class IPAllocator {
    const config: Config
    var prev4: nat
    var prev6: nat
    var used: set<Addr>

    ghost function Value(): Pool
      reads this
    {
      Pool(prev4, prev6, used)
    }

    ghost predicate Valid()
      reads this
    {
      Value().Valid(config)
    }

    constructor (config: Config, loaded: seq<Addr>)
      requires config.Valid()
      ensures this.config == config && Valid()
      ensures Value() == StartPool(config, set a | a in loaded)
    {
      this.config := config;
      this.prev4 := if config.range4.Some? then config.range4.value.lo else 0;
      this.prev6 := if config.range6.Some? then config.range6.value.lo else 0;
      this.used := {};
      new;
      used := config.Ends();
      for i := 0 to |loaded|
        invariant Value() == StartPool(config, set a | a in loaded[..i])
      {
        used := used + {loaded[i]};
        assert loaded[..i + 1] == loaded[..i] + [loaded[i]];
      }
      assert loaded[..|loaded|] == loaded;
    }

    /** The search loop. It examines no address twice; a random search that fails has examined the whole
        prefix, a sequential one everything after prev. */
    method Search(v6: bool, prev: nat, r: Range, raw: nat) returns (found: Option<nat>, ghost visited: seq<nat>)
      requires r.Contains(prev)
      modifies this`used
      ensures found == old(Pick(config.random, used, v6, r, prev, raw))
      ensures used == if found.Some? then old(used) + {Addr(v6, found.value)} else old(used)
      ensures NoDuplicates(visited)
      ensures found.None? ==> forall n: nat :: r.Contains(n) && (config.random || n > prev) ==> n in visited
      ensures found.Some? ==> visited != [] && visited[|visited| - 1] == found.value
    {
      var ip: nat := if config.random then Start(r, raw) else prev + 1;
      var start := ip;
      var wrapped := false;
      visited := [];
      while true
        invariant used == old(used) && (wrapped ==> config.random)
        invariant config.random ==> r.Contains(ip) && r.Contains(start)
        invariant !wrapped ==> start <= ip && (ip <= r.hi || ip == start)
        invariant !wrapped ==> FirstFree(used, v6, start, r.hi) == FirstFree(used, v6, ip, r.hi)
        invariant wrapped ==> ip < start && FirstFree(used, v6, start, r.hi).None?
        invariant wrapped ==> FirstFree(used, v6, r.lo, start - 1) == FirstFree(used, v6, ip, start - 1)
        invariant NoDuplicates(visited)
        invariant forall n :: n in visited <==>
                    if wrapped then start <= n <= r.hi || r.lo <= n < ip else start <= n < ip
        decreases if wrapped then start - ip else r.hi + 2 - ip + start
      {
        NoDuplicatesAppend(visited, ip);
        visited := visited + [ip];
        if r.Contains(ip) && Addr(v6, ip) !in used && !Reserved(Addr(v6, ip)) {
          used := used + {Addr(v6, ip)};
          return Some(ip), visited;
        }
        ip := ip + 1;
        if !config.random {
          if !r.Contains(ip) { return None, visited; }
        } else {
          if !r.Contains(ip) {
            ip := r.lo;
            wrapped := true;
          }
          if ip == start { return None, visited; }
        }
      }
    }

    /** One address of a configured family. */
    method Allocate(v6: bool, raw: nat) returns (found: Option<nat>)
      requires Valid() && config.RangeOf(v6).Some?
      modifies this
      ensures Valid() && found == old(PickIn(config, Value(), v6, raw))
      ensures Value() == if found.Some? then old(Value()).Take(v6, found.value) else old(Value())
    {
      ghost var visited;
      found, visited := Search(v6, if v6 then prev6 else prev4, config.RangeOf(v6).value, raw);
      if found.Some? {
        if v6 { prev6 := found.value; } else { prev4 := found.value; }
      }
    }

    /** An address of each configured family. When IPv6 is exhausted the IPv4 address stays marked used. */
    method Next(raw4: nat, raw6: nat) returns (ok: bool, got4: Option<nat>, got6: Option<nat>)
      requires Valid()
      modifies this
      ensures Valid() && (ok, got4, got6, Value()) == old(NextSpec(config, Value(), raw4, raw6))
    {
      got4, got6 := None, None;
      if config.range4.Some? {
        got4 := Allocate(false, raw4);
        if got4.None? { return false, None, None; }
      }
      if config.range6.Some? {
        got6 := Allocate(true, raw6);
        if got6.None? { return false, None, None; }
      }
      ok := true;
    }

    /** Gives the addresses back. */
    method FreeIPs(ips: seq<Addr>)
      requires Valid()
      modifies this`used
      ensures Valid() && used == old(used) - set a | a in ips
    {
      for i := 0 to |ips|
        invariant Valid() && used == old(used) - set a | a in ips[..i]
      {
        used := used - {ips[i]};
        assert ips[..i + 1] == ips[..i] + [ips[i]];
      }
      assert ips[..|ips|] == ips;
    }
  }

  // ----- What an allocation yields -----------------------------------------------------

  /** No free address is left for the family, under the strategy in use. */
  ghost predicate Exhausted(c: Config, p: Pool, six: bool)
  {
    c.RangeOf(six).Some? &&
    forall n: nat :: c.RangeOf(six).value.Contains(n) && Free(p.used, six, n) ==> !c.random && n <= p.Prev(six)
  }

  /** The strategy may hand out the address. */
  ghost predicate Eligible(c: Config, p: Pool, v6: bool, n: nat)
  {
    c.RangeOf(v6).Some? && c.RangeOf(v6).value.Contains(n) && Free(p.used, v6, n) && (c.random || p.Prev(v6) < n)
  }

  /** The address is the first one the strategy may hand out: the least, or the nearest to the random start going
      up and around. */
  ghost predicate Nearest(c: Config, p: Pool, v6: bool, raw: nat, n: nat)
  {
    c.Valid() && Eligible(c, p, v6, n) &&
    var r := c.RangeOf(v6).value;
    forall m: nat :: Eligible(c, p, v6, m) ==>
      if c.random then Distance(r, Start(r, raw), n) <= Distance(r, Start(r, raw), m) else n <= m
  }

  /** A single allocation hands out the nearest address, and fails iff the family is exhausted. */
  lemma PickInExact(c: Config, p: Pool, v6: bool, raw: nat)
    requires p.Valid(c) && c.RangeOf(v6).Some?
    ensures var got := PickIn(c, p, v6, raw);
            (got.None? <==> Exhausted(c, p, v6)) && (got.Some? ==> Nearest(c, p, v6, raw, got.value))
  {
    var r, got := c.RangeOf(v6).value, PickIn(c, p, v6, raw);
    PickExact(c.random, p.used, v6, r, p.Prev(v6), raw);
    if got.Some? {
      forall m: nat | Eligible(c, p, v6, m)
        ensures if c.random then Distance(r, Start(r, raw), got.value) <= Distance(r, Start(r, raw), m)
                else got.value <= m
      {
        PickNearest(c.random, p.used, v6, r, p.Prev(v6), raw, m);
      }
    }
  }

  /** Taking an address of the other family changes nothing for a family. */
  lemma FamiliesApart(c: Config, p: Pool, v6: bool, taken: nat, raw: nat)
    ensures var p' := p.Take(!v6, taken);
            && (Exhausted(c, p', v6) <==> Exhausted(c, p, v6))
            && forall n :: Nearest(c, p', v6, raw, n) <==> Nearest(c, p, v6, raw, n)
  {
    var p' := p.Take(!v6, taken);
    assert forall n :: Free(p'.used, v6, n) <==> Free(p.used, v6, n);
    assert forall n :: Eligible(c, p', v6, n) <==> Eligible(c, p, v6, n);
  }

  function AddrOf(v6: bool, got: Option<nat>): set<Addr> { if got.Some? then {Addr(v6, got.value)} else {} }

  /** A pair. For every configuration: it succeeds iff no configured family is exhausted; then it has an address of
      a family iff the family is configured, the nearest one, and exactly those become used and the next starting
      points. If it fails nothing is handed out; when it is IPv6 that is exhausted, the IPv4 address that was
      found stays used. */
  lemma NextExact(c: Config, p: Pool, raw4: nat, raw6: nat)
    requires p.Valid(c)
    ensures var (ok, got4, got6, p') := NextSpec(c, p, raw4, raw6);
            && (ok <==> !Exhausted(c, p, false) && !Exhausted(c, p, true))
            && (ok ==>
                  && (got4.Some? <==> c.range4.Some?) && (got6.Some? <==> c.range6.Some?)
                  && (got4.Some? ==> Nearest(c, p, false, raw4, got4.value))
                  && (got6.Some? ==> Nearest(c, p, true, raw6, got6.value))
                  && p'.used == p.used + AddrOf(false, got4) + AddrOf(true, got6)
                  && p'.prev4 == (if got4.Some? then got4.value else p.prev4)
                  && p'.prev6 == (if got6.Some? then got6.value else p.prev6))
            && (!ok ==>
                  && got4.None? && got6.None?
                  && if c.range4.None? || Exhausted(c, p, false) then p' == p
                     else exists n: nat :: Nearest(c, p, false, raw4, n) && p' == p.Take(false, n))
  {
    var got4 := if c.range4.Some? then PickIn(c, p, false, raw4) else None;
    if c.range4.Some? { PickInExact(c, p, false, raw4); }
    var p1 := if got4.Some? then p.Take(false, got4.value) else p;
    if got4.Some? { FamiliesApart(c, p, true, got4.value, raw6); }
    if c.range6.Some? && !(c.range4.Some? && got4.None?) { PickInExact(c, p1, true, raw6); }
  }

  /** At start-up exactly the loaded addresses and both ends of the prefixes are used, and the first address handed
      out one after the other is the least free one of the prefix. */
  lemma StartExact(c: Config, loaded: set<Addr>, v6: bool, raw: nat, a: Addr)
    requires c.Valid()
    ensures var p := StartPool(c, loaded);
            && (a in p.used <==> a in loaded || (c.RangeOf(a.v6).Some?
                                                 && a.n in {c.RangeOf(a.v6).value.lo, c.RangeOf(a.v6).value.hi}))
            && (c.RangeOf(v6).Some? && !c.random ==>
                  var got, r := PickIn(c, p, v6, raw), c.RangeOf(v6).value;
                  && (got.None? <==> forall n: nat :: r.Contains(n) ==> !Free(p.used, v6, n))
                  && (got.Some? ==> r.Contains(got.value) && Free(p.used, v6, got.value)
                                    && forall n: nat :: r.Contains(n) && Free(p.used, v6, n) ==> got.value <= n))
  {
    var p := StartPool(c, loaded);
    if c.RangeOf(v6).Some? && !c.random {
      assert p.Valid(c) && Addr(v6, p.Prev(v6)) in p.used;
      PickInExact(c, p, v6, raw);
      forall n: nat | c.RangeOf(v6).value.Contains(n) && Free(p.used, v6, n) ensures Eligible(c, p, v6, n) { }
    }
  }

  function NextSpec(c: Config, p: Pool, raw4: nat, raw6: nat): (bool, Option<nat>, Option<nat>, Pool)
    requires c.Valid()
  {
    var got4 := if c.range4.Some? then PickIn(c, p, false, raw4) else None;
    if c.range4.Some? && got4.None? then (false, None, None, p)
    else
      var p1 := if got4.Some? then p.Take(false, got4.value) else p;
      if c.range6.None? then (true, got4, None, p1)
      else
        var got6 := PickIn(c, p1, true, raw6);
        if got6.None? then (false, None, None, p1) else (true, got4, got6, p1.Take(true, got6.value))
  }
}
