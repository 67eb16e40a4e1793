/**
 Automatic approval of announced routes. Approved routes are kept sorted; any total order with the
 invalid prefix first would do, this one compares family, address and length.
 */
module RouteApproval {
  import opened Basics
  import opened Nodes

  predicate Less(a: Prefix, b: Prefix)
  {
    b.Pfx? &&
    (a.NoPrefix? || (!a.v6 && b.v6)
     || (a.v6 == b.v6 && (a.addr < b.addr || (a.addr == b.addr && a.bits < b.bits))))
  }

  ghost predicate Sorted(s: seq<Prefix>) { forall i, j :: 0 <= i < j < |s| ==> !Less(s[j], s[i]) }

  /** Sorted and without duplicates. */
  ghost predicate Ascending(s: seq<Prefix>) { forall i, j :: 0 <= i < j < |s| ==> Less(s[i], s[j]) }

  lemma HasElement(s: seq<Prefix>)
    ensures s == [] || exists p :: p in s
  {
    if s != [] { assert s[0] in s; }
  }

  /** An ascending list is determined by its elements. */
  lemma {:induction false} AscendingUnique(a: seq<Prefix>, b: seq<Prefix>)
    requires Ascending(a) && Ascending(b) && forall p :: p in a <==> p in b
    ensures a == b
  {
    if a == [] {
      HasElement(b);
    } else {
      assert a[0] in b && b != [] && b[0] in a;
      assert a[0] == b[0];
      TailElements(a, b);
      AscendingUnique(a[1..], b[1..]);
      assert a == [a[0]] + a[1..] && b == [b[0]] + b[1..];
    }
  }

  lemma TailElements(a: seq<Prefix>, b: seq<Prefix>)
    requires Ascending(a) && Ascending(b) && a != [] && b != [] && a[0] == b[0] && forall p :: p in a <==> p in b
    ensures forall p :: p in a[1..] <==> p in b[1..]
  {
    forall p ensures p in a[1..] <==> p in b[1..]
    {
      if p in a[1..] { assert p in a && p != a[0]; }
      if p in b[1..] { assert p in b && p != b[0]; }
    }
  }

  // ----- Sorting -----------------------------------------------------------------------

  method Insert(s: seq<Prefix>, p: Prefix) returns (r: seq<Prefix>)
    requires Sorted(s)
    ensures Sorted(r) && multiset(r) == multiset(s) + multiset{p}
  {
    var i := 0;
    while i < |s| && !Less(p, s[i])
      invariant 0 <= i <= |s|
      invariant forall k :: 0 <= k < i ==> !Less(p, s[k])
    {
      i := i + 1;
    }
    InsertSorted(s, i, p);
    r := s[..i] + [p] + s[i..];
    assert s == s[..i] + s[i..];
  }

  lemma InsertSorted(s: seq<Prefix>, i: nat, p: Prefix)
    requires Sorted(s) && i <= |s| && (forall k :: 0 <= k < i ==> !Less(p, s[k])) && (i < |s| ==> Less(p, s[i]))
    ensures Sorted(s[..i] + [p] + s[i..])
  {
    forall k | i <= k < |s| ensures !Less(s[k], p) { assert k > i ==> !Less(s[k], s[i]); }
    var r := s[..i] + [p] + s[i..];
    forall a, b | 0 <= a < b < |r| ensures !Less(r[b], r[a])
    {
      var x, y := if a < i then a else a - 1, if b < i then b else b - 1;
      if a != i && b != i { assert r[a] == s[x] && r[b] == s[y] && x < y; }
    }
  }

  method Sort(s: seq<Prefix>) returns (r: seq<Prefix>)
    ensures Sorted(r) && multiset(r) == multiset(s)
  {
    r := [];
    for i := 0 to |s|
      invariant Sorted(r) && multiset(r) == multiset(s[..i])
    {
      assert s[..i + 1] == s[..i] + [s[i]];
      r := Insert(r, s[i]);
    }
    assert s[..|s|] == s;
  }

  /** Drops repeats from a sorted list, and then what is not valid. */
  method CompactValid(s: seq<Prefix>) returns (r: seq<Prefix>)
    requires Sorted(s)
    ensures Ascending(r) && forall p :: p in r <==> p in s && p.IsValid()
  {
    r := [];
    for i := 0 to |s|
      invariant Ascending(r) && forall p :: p in r <==> p in s[..i] && p.IsValid()
    {
      assert s[..i + 1] == s[..i] + [s[i]];
      if (i == 0 || s[i - 1] != s[i]) && s[i].IsValid() {
        forall k | 0 <= k < |r| ensures Less(r[k], s[i])
        {
          assert r[k] in s[..i];
          var m :| 0 <= m < i && s[m] == r[k];
          assert !Less(s[i], s[m]) && !Less(s[i - 1], s[m]) && !Less(s[i], s[i - 1]);
        }
        r := r + [s[i]];
      } else if i > 0 && s[i - 1] == s[i] {
        assert s[i - 1] in s[..i];
      }
    }
    assert s[..|s|] == s;
  }

  // ----- Approval ----------------------------------------------------------------------

  /** All valid routes approved before, and the valid announced ones the policy allows; ascending. */
  ghost predicate Approves(can: Prefix -> bool, current: seq<Prefix>, announced: seq<Prefix>, out: seq<Prefix>)
  {
    && Ascending(out)
    && forall p :: p in out <==> p.IsValid() && (p in current || (p in announced && can(p)))
  }

  /** The approved list is in order already and the policy adds nothing to it. */
  ghost predicate NothingNew(can: Prefix -> bool, current: seq<Prefix>, announced: seq<Prefix>)
  {
    && NoDuplicates(current)
    && (forall p :: p in current ==> p.IsValid())
    && forall p :: p in announced && p.IsValid() && can(p) ==> p in current
  }

  /** Without a policy nothing is touched. */
  method ApproveRoutesWithPolicy(policy: Option<Prefix -> bool>, current: seq<Prefix>, announced: seq<Prefix>)
    returns (approved: seq<Prefix>, changed: bool)
    ensures policy.None? ==> approved == current && !changed
    ensures policy.Some? ==> Approves(policy.value, current, announced, approved)
    ensures policy.Some? ==> (changed <==> !NothingNew(policy.value, current, announced))
  {
    if policy.None? { return current, false; }
    var can := policy.value;
    var all := current;
    for i := 0 to |announced|
      invariant forall p :: p in all <==> p in current || (p in announced[..i] && can(p))
    {
      assert announced[..i + 1] == announced[..i] + [announced[i]];
      if announced[i] !in all {
        if can(announced[i]) { all := all + [announced[i]]; }
      }
    }
    assert announced[..|announced|] == announced;
    var sortedAll := Sort(all);
    assert forall p :: p in sortedAll <==> p in multiset(sortedAll);
    approved := CompactValid(sortedAll);
    assert forall p :: p in all <==> p in multiset(all);
    var sortedCurrent := Sort(current);
    SameIff(can, current, announced, sortedCurrent, approved);
    changed := sortedCurrent != approved;
  }

  lemma SortedMembers(s: seq<Prefix>, t: seq<Prefix>)
    requires multiset(s) == multiset(t)
    ensures forall p :: p in s <==> p in t
  {
    forall p ensures p in s <==> p in t { assert p in multiset(s) <==> p in multiset(t); }
  }

  lemma SameIff(can: Prefix -> bool, current: seq<Prefix>, announced: seq<Prefix>, s: seq<Prefix>, out: seq<Prefix>)
    requires Approves(can, current, announced, out) && Sorted(s) && multiset(s) == multiset(current)
    ensures s == out <==> NothingNew(can, current, announced)
  {
    SortedMembers(s, current);
    if s == out {
      NoDuplicatesPermuted(s, current);
    }
    if NothingNew(can, current, announced) {
      NoDuplicatesPermuted(current, s);
      AscendingUnique(s, out);
    }
  }

  /** Applying it again to its own result gives the same list and reports no change. */
  lemma ApprovalIdempotent(can: Prefix -> bool, current: seq<Prefix>, announced: seq<Prefix>, out: seq<Prefix>,
                           again: seq<Prefix>)
    requires Approves(can, current, announced, out) && Approves(can, out, announced, again)
    ensures again == out && NothingNew(can, out, announced)
  {
    AscendingUnique(again, out);
  }
}
