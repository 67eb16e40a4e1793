/**
 Collision-free given names: base, base-1, base-2, ... with the first unused label winning.
 The scan has no bound of its own; it stops because the candidates are pairwise distinct and
 only finitely many labels are taken.
 */
module Names {
  import opened Basics
  import opened Nodes

  const FALLBACK_GIVEN_NAME := "node"

  const DIGITS := "0123456789"

  /** Decimal printing, most significant digit first. */
  function Itoa(n: nat): string
  {
    if n < 10 then [DIGITS[n]] else Itoa(n / 10) + [DIGITS[n % 10]]
  }

  predicate IsDigit(c: char) { '0' <= c <= '9' }

  /** The number a string of decimal digits denotes. */
  function Denoted(s: string): nat
    requires forall i :: 0 <= i < |s| ==> IsDigit(s[i])
  {
    if s == "" then 0
    else
      assert IsDigit(s[|s| - 1]);
      10 * Denoted(s[..|s| - 1]) + (s[|s| - 1] as nat - '0' as nat)
  }

  /** What is printed are decimal digits without leading zeros, and they denote the number. */
  lemma {:induction false} ItoaDecimal(n: nat)
    ensures var s := Itoa(n);
            s != "" && (forall i :: 0 <= i < |s| ==> IsDigit(s[i])) && Denoted(s) == n && (s[0] == '0' ==> n == 0)
  {
    assert DIGITS[n % 10] == '0' + (n % 10) as char;
    var s := Itoa(n);
    if n >= 10 {
      ItoaDecimal(n / 10);
      assert s[..|s| - 1] == Itoa(n / 10);
    } else {
      assert s[..0] == "";
    }
  }

  lemma ItoaInjective(a: nat, b: nat)
    requires Itoa(a) == Itoa(b)
    ensures a == b
  {
    ItoaDecimal(a);
    ItoaDecimal(b);
  }

  /** The label tried on attempt k. */
  function Label(base: string, k: nat): string
  {
    if k == 0 then base else base + "-" + Itoa(k)
  }

  lemma LabelsDistinct(base: string, j: nat, k: nat)
    requires j != k
    ensures Label(base, j) != Label(base, k)
  {
    if j == 0 || k == 0 {
      assert |Label(base, j)| != |Label(base, k)|;
    } else if Label(base, j) == Label(base, k) {
      var prefix := base + "-";
      assert Label(base, j)[|prefix|..] == Itoa(j) && Label(base, k)[|prefix|..] == Itoa(k);
      ItoaInjective(j, k);
    }
  }

  ghost function FirstLabels(base: string, k: nat): (r: set<string>)
    ensures |r| == k
    ensures forall s :: s in r <==> exists j :: 0 <= j < k && s == Label(base, j)
  {
    if k == 0 then {}
    else
      var rest := FirstLabels(base, k - 1);
      assert Label(base, k - 1) !in rest by {
        forall j | 0 <= j < k - 1 ensures Label(base, j) != Label(base, k - 1) {
          LabelsDistinct(base, j, k - 1);
        }
      }
      rest + {Label(base, k - 1)}
  }

  /** Pigeonhole: the first k labels can all be taken only when at least k labels are. */
  lemma Pigeonhole(taken: set<string>, base: string, k: nat)
    requires forall j :: 0 <= j < k ==> Label(base, j) in taken
    ensures k <= |taken|
  {
    SubsetSize(FirstLabels(base, k), taken);
  }

  lemma {:induction false} SubsetSize(a: set<string>, b: set<string>)
    requires a <= b
    ensures |a| <= |b|
  {
    if a != {} {
      var x :| x in a;
      SubsetSize(a - {x}, b - {x});
    }
  }

  /** k is the number of attempts that fail before a free label is found. */
  ghost predicate FirstFree(taken: set<string>, base: string, k: nat)
  {
    && Label(base, k) !in taken
    && forall j :: 0 <= j < k ==> Label(base, j) in taken
  }

  function BaseLabel(base: string): string
  {
    if base == "" then FALLBACK_GIVEN_NAME else base
  }

  /** The labels held by nodes other than self. */
  function TakenBy(nodes: NodeTable, self: NodeID): set<string>
  {
    set id | id in nodes && id != self :: nodes[id].givenName
  }

  ghost function FirstFreeFrom(taken: set<string>, base: string, k: nat): (r: nat)
    requires forall j :: 0 <= j < k ==> Label(base, j) in taken
    ensures FirstFree(taken, base, r) && r <= |taken|
    decreases |taken| + 1 - k, Label(base, k) in taken
  {
    Pigeonhole(taken, base, k);
    if Label(base, k) !in taken then k
    else
      Pigeonhole(taken, base, k + 1);
      FirstFreeFrom(taken, base, k + 1)
  }

  /** The label a write of base to node self ends up with. */
  ghost function Resolved(nodes: NodeTable, self: NodeID, base: string): string
  {
    Label(BaseLabel(base), FirstFreeFrom(TakenBy(nodes, self), BaseLabel(base), 0))
  }

  method ResolveGivenName(nodes: NodeTable, self: NodeID, base: string) returns (candidate: string)
    ensures candidate == Resolved(nodes, self, base)
  {
    var b := if base == "" then FALLBACK_GIVEN_NAME else base;
    var taken: set<string> := {};
    var todo := nodes.Keys;
    while todo != {}
      invariant todo <= nodes.Keys
      invariant taken == set id | id in nodes && id !in todo && id != self :: nodes[id].givenName
      decreases todo
    {
      var id :| id in todo;
      if id != self { taken := taken + {nodes[id].givenName}; }
      todo := todo - {id};
    }
    assert taken == TakenBy(nodes, self);
    candidate := b;
    var i := 1;
    while candidate in taken
      invariant i >= 1 && candidate == Label(b, i - 1)
      invariant forall j :: 0 <= j < i - 1 ==> Label(b, j) in taken
      decreases |taken| + 1 - i
    {
      Pigeonhole(taken, b, i);
      candidate := b + "-" + Itoa(i);
      i := i + 1;
    }
    FirstFreeUnique(taken, b, i - 1, FirstFreeFrom(taken, b, 0));
  }

  lemma FirstFreeUnique(taken: set<string>, base: string, j: nat, k: nat)
    requires FirstFree(taken, base, j) && FirstFree(taken, base, k)
    ensures j == k
  {
  }

  /** The resolved label is held by no other node and is never empty; it is the earliest of
      base, base-1, base-2, ... with that property, found within |other labels| + 1 attempts;
      and a non-empty label that is already unique is kept. */
  lemma ResolvedIsFirstFree(nodes: NodeTable, self: NodeID, base: string)
    ensures var name := Resolved(nodes, self, base);
            && name != ""
            && (forall id :: id in nodes && id != self ==> nodes[id].givenName != name)
            && (exists k :: (&& 0 <= k <= |TakenBy(nodes, self)|
                             && name == Label(BaseLabel(base), k)
                             && FirstFree(TakenBy(nodes, self), BaseLabel(base), k)))
            && (base != "" && (forall id :: id in nodes && id != self ==> nodes[id].givenName != base)
                ==> name == base)
            && (base == "" && (forall id :: id in nodes && id != self ==> nodes[id].givenName != "node")
                ==> name == "node")
  {
    var taken := TakenBy(nodes, self);
    var k := FirstFreeFrom(taken, BaseLabel(base), 0);
    assert FirstFree(taken, BaseLabel(base), k);
    forall id | id in nodes && id != self ensures nodes[id].givenName in taken { }
    if k != 0 { assert Label(BaseLabel(base), 0) in taken; }
  }
}
