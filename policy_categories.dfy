/**
 * Ordering of the policy catalogue shown by the policy studio
 * (src/management/api/design/policy-studio/policy-studio.controller.ts,
 * `$onInit`): a comparator over policy categories that also writes
 * 'others' into the policies that have none, and the in-place sort that
 * calls it.
 */
module PolicyCategories {
  import opened Wrappers

  /** A policy of the catalogue; `category` may be null. */
  datatype Policy = Policy(id: string, name: string, category: Option<string>)

  /** `CATEGORY_POLICY`, in display order. */
  const CategoryPolicy: seq<string> := ["security", "performance", "transformation", "others"]

  /** `Array.prototype.indexOf` with strict equality: the first position of `x`, or -1. */
  function IndexOf(list: seq<string>, x: string): (r: int)
    ensures -1 <= r < |list|
    ensures r == -1 <==> x !in list
    ensures 0 <= r ==> list[r] == x && forall k :: 0 <= k < r ==> list[k] != x
  {
    if list == [] then -1
    else if list[0] == x then 0
    else
      var rest := IndexOf(list[1..], x);
      if rest == -1 then -1 else rest + 1
  }

  /** The category the comparator works with: a null category reads as 'others'. */
  function Normalise(p: Policy): (q: Policy)
    ensures q.id == p.id && q.name == p.name && q.category.Some?
    ensures p.category.Some? ==> q == p
    ensures p.category.None? ==> q.category == Some(CategoryPolicy[3])
  {
    if p.category.None? then p.(category := Some(CategoryPolicy[3])) else p
  }

  predicate IsNormalised(p: Policy)
  {
    p.category.Some?
  }

  function NormaliseAll(s: seq<Policy>): (r: seq<Policy>)
    ensures |r| == |s| && forall k :: 0 <= k < |s| ==> r[k] == Normalise(s[k])
  {
    seq(|s|, k requires 0 <= k < |s| => Normalise(s[k]))
  }

  /** The comparator's verdict on two (already normalised) categories, as the code has it. */
  function CompareCategories(a: string, b: string): (r: int)
    ensures r in {-1, 0, 1}
  {
    if a == b then 0
    else if IndexOf(CategoryPolicy, a) == -1 then 1
    else if IndexOf(CategoryPolicy, b) == -1 then -1
    else if IndexOf(CategoryPolicy, a) < IndexOf(CategoryPolicy, b) then -1
    else 1
  }

  /** The position a category sorts at: its index, with every unknown category after all known ones. */
  function Rank(p: Policy): (r: nat)
    ensures r <= |CategoryPolicy|
  {
    var c := Normalise(p).category.value;
    if c in CategoryPolicy then IndexOf(CategoryPolicy, c) else |CategoryPolicy|
  }

  // ---------------------------------------------------------------------
  // Properties of the comparator

  lemma CompareEqualIsZero(a: string, b: string)
    ensures CompareCategories(a, b) == 0 <==> a == b
  {
  }

  /** Known categories compare by their index in `CATEGORY_POLICY`. */
  lemma KnownCategoriesByIndex(a: string, b: string)
    requires a in CategoryPolicy && b in CategoryPolicy && a != b
    ensures CompareCategories(a, b) == -1 <==> IndexOf(CategoryPolicy, a) < IndexOf(CategoryPolicy, b)
    ensures CompareCategories(a, b) == -CompareCategories(b, a)
  {
  }

  /** An unknown category sorts after any different category. */
  lemma UnknownSortsLast(a: string, b: string)
    requires a !in CategoryPolicy && a != b
    ensures CompareCategories(a, b) == 1
    ensures b in CategoryPolicy ==> CompareCategories(b, a) == -1
  {
  }

  /** Antisymmetry holds exactly when the two categories are not two different unknown ones. */
  lemma AntisymmetricUnlessBothUnknown(a: string, b: string)
    ensures CompareCategories(a, b) == -CompareCategories(b, a)
        <==> a == b || a in CategoryPolicy || b in CategoryPolicy
  {
  }

  /** The flaw: two different unknown categories each compare after the other. */
  lemma NotAntisymmetric(a: string, b: string)
    requires a !in CategoryPolicy && b !in CategoryPolicy && a != b
    ensures CompareCategories(a, b) == 1 && CompareCategories(b, a) == 1
  {
    UnknownSortsLast(a, b);
    UnknownSortsLast(b, a);
  }

  /** For instance 'mediation' and 'custom'. */
  lemma NotAntisymmetricExample()
    ensures CompareCategories("mediation", "custom") == 1 && CompareCategories("custom", "mediation") == 1
  {
    NotAntisymmetric("mediation", "custom");
  }

  /** Whatever the comparator says agrees with the rank order: `< 0` is strictly lower, `> 0` at least as high. */
  lemma CompareAgreesWithRank(p: Policy, q: Policy)
    requires IsNormalised(p) && IsNormalised(q)
    ensures CompareCategories(p.category.value, q.category.value) < 0 ==> Rank(p) < Rank(q)
    ensures CompareCategories(p.category.value, q.category.value) == 0 ==> Rank(p) == Rank(q)
    ensures CompareCategories(p.category.value, q.category.value) > 0 ==> Rank(p) >= Rank(q)
  {
  }

  // ---------------------------------------------------------------------
  // The in-place sort

  predicate SortedByRank(s: seq<Policy>)
  {
    forall i, j :: 0 <= i < j < |s| ==> Rank(s[i]) <= Rank(s[j])
  }

  /**
   * One call of the comparator on `a[i]` and `a[j]`: it first writes
   * 'others' into either policy whose category is null, then compares.
   */
  method CompareAt(a: array<Policy>, i: nat, j: nat) returns (c: int)
    requires i < a.Length && j < a.Length && i != j
    modifies a
    ensures a[..] == old(a[..])[i := Normalise(old(a[i]))][j := Normalise(old(a[j]))]
    ensures c == CompareCategories(a[i].category.value, a[j].category.value)
  {
    if a[i].category.None? {
      a[i] := a[i].(category := Some(CategoryPolicy[3]));
    }
    if a[j].category.None? {
      a[j] := a[j].(category := Some(CategoryPolicy[3]));
    }
    c := CompareCategories(a[i].category.value, a[j].category.value);
  }

  lemma NormaliseAllUpdate(s: seq<Policy>, i: nat)
    requires i < |s|
    ensures NormaliseAll(s[i := Normalise(s[i])]) == NormaliseAll(s)
  {
  }

  lemma NormaliseAllSwap(s: seq<Policy>, i: nat, j: nat)
    requires i < |s| && j < |s|
    ensures NormaliseAll(s[i := s[j]][j := s[i]]) == NormaliseAll(s)[i := Normalise(s[j])][j := Normalise(s[i])]
  {
  }

  /**
   * The state of one insertion: `s[j]` is the policy being inserted, the
   * rest of `s[..i + 1]` is in rank order, and everything after `j` ranks
   * at least as high as `s[j]`.
   */
  ghost predicate Inserting(s: seq<Policy>, i: nat, j: nat)
  {
    j <= i < |s|
    && (forall p, q :: 0 <= p < q <= i && p != j && q != j ==> Rank(s[p]) <= Rank(s[q]))
    && (forall q :: j < q <= i ==> Rank(s[j]) <= Rank(s[q]))
  }

  lemma InsertingStart(s: seq<Policy>, i: nat)
    requires i < |s| && SortedByRank(s[..i])
    ensures Inserting(s, i, i)
  {
    assert forall p :: 0 <= p < i ==> s[p] == s[..i][p];
  }

  lemma InsertingNormalise(s: seq<Policy>, i: nat, j: nat, k: nat)
    requires Inserting(s, i, j) && k < |s|
    ensures Inserting(s[k := Normalise(s[k])], i, j)
  {
    assert Rank(Normalise(s[k])) == Rank(s[k]);
  }

  lemma InsertingSwap(s: seq<Policy>, i: nat, j: nat)
    requires Inserting(s, i, j) && 0 < j && Rank(s[j - 1]) >= Rank(s[j])
    ensures Inserting(s[j - 1 := s[j]][j := s[j - 1]], i, j - 1)
  {
  }

  lemma InsertingDone(s: seq<Policy>, i: nat, j: nat)
    requires Inserting(s, i, j) && (j == 0 || Rank(s[j - 1]) <= Rank(s[j]))
    ensures SortedByRank(s[..i + 1])
  {
    forall p, q | 0 <= p < q <= i
      ensures Rank(s[p]) <= Rank(s[q])
    {
      if p == j {
      } else if q == j {
        assert Rank(s[p]) <= Rank(s[j - 1]) || p == j - 1;
      }
    }
  }

  /**
   * The comparator called on the neighbours `a[j - 1]` and `a[j]` during
   * the insertion of the policy now at `j`.
   */
  method CompareNeighbours(a: array<Policy>, i: nat, j: nat) returns (c: int)
    requires 0 < j <= i < a.Length
    requires forall k :: 0 <= k <= i && k != j - 1 && k != j ==> IsNormalised(a[k])
    requires Inserting(a[..], i, j)
    modifies a
    ensures forall k :: 0 <= k <= i ==> IsNormalised(a[k])
    ensures Inserting(a[..], i, j)
    ensures c > 0 ==> Rank(a[j - 1]) >= Rank(a[j])
    ensures c <= 0 ==> Rank(a[j - 1]) <= Rank(a[j])
    ensures a[i + 1..] == old(a[i + 1..])
    ensures NormaliseAll(a[..]) == NormaliseAll(old(a[..]))
  {
    ghost var s := a[..];
    c := CompareAt(a, j - 1, j);
    NormaliseAllUpdate(s, j - 1);
    NormaliseAllUpdate(s[j - 1 := Normalise(s[j - 1])], j);
    InsertingNormalise(s, i, j, j - 1);
    InsertingNormalise(s[j - 1 := Normalise(s[j - 1])], i, j, j);
    CompareAgreesWithRank(a[j - 1], a[j]);
  }

  /** Swap the inserted policy with its greater neighbour. */
  method SwapDown(a: array<Policy>, i: nat, j: nat)
    requires 0 < j <= i < a.Length
    requires forall k :: 0 <= k <= i ==> IsNormalised(a[k])
    requires Inserting(a[..], i, j) && Rank(a[j - 1]) >= Rank(a[j])
    modifies a
    ensures forall k :: 0 <= k <= i ==> IsNormalised(a[k])
    ensures Inserting(a[..], i, j - 1)
    ensures a[i + 1..] == old(a[i + 1..])
    ensures multiset(NormaliseAll(a[..])) == multiset(NormaliseAll(old(a[..])))
  {
    ghost var s := a[..];
    a[j - 1], a[j] := a[j], a[j - 1];
    assert a[..] == s[j - 1 := s[j]][j := s[j - 1]];
    NormaliseAllSwap(s, j - 1, j);
    InsertingSwap(s, i, j);
  }

  /**
   * Insert `a[i]` into the rank-sorted prefix `a[..i]`, moving it down
   * while the comparator says the policy before it compares greater.
   */
  method InsertAt(a: array<Policy>, i: nat)
    requires 0 < i < a.Length
    requires SortedByRank(a[..i])
    requires i >= 2 ==> forall k :: 0 <= k < i ==> IsNormalised(a[k])
    modifies a
    ensures SortedByRank(a[..i + 1])
    ensures forall k :: 0 <= k <= i ==> IsNormalised(a[k])
    ensures a[i + 1..] == old(a[i + 1..])
    ensures multiset(NormaliseAll(a[..])) == multiset(NormaliseAll(old(a[..])))
  {
    InsertingStart(a[..], i);
    var j := i;
    var c := CompareNeighbours(a, i, j);
    while c > 0
      invariant 0 <= j <= i
      invariant forall k :: 0 <= k <= i ==> IsNormalised(a[k])
      invariant Inserting(a[..], i, j)
      invariant j > 0 && c > 0 ==> Rank(a[j - 1]) >= Rank(a[j])
      invariant j > 0 && c <= 0 ==> Rank(a[j - 1]) <= Rank(a[j])
      invariant j == 0 ==> c <= 0
      invariant a[i + 1..] == old(a[i + 1..])
      invariant multiset(NormaliseAll(a[..])) == multiset(NormaliseAll(old(a[..])))
      decreases j
    {
      SwapDown(a, i, j);
      j := j - 1;
      if j > 0 {
        c := CompareNeighbours(a, i, j);
      } else {
        c := 0;
      }
    }
    InsertingDone(a[..], i, j);
  }

  /**
   * `resolvedPolicies.data.sort(comparator)`. The engine's algorithm is
   * modelled by an insertion sort that calls the comparator on neighbours;
   * an array of fewer than two policies is never passed to the comparator.
   */
  method SortPolicies(a: array<Policy>)
    modifies a
    ensures SortedByRank(a[..])
    ensures a.Length >= 2 ==> forall k :: 0 <= k < a.Length ==> IsNormalised(a[k])
    ensures a.Length >= 2 ==> multiset(a[..]) == multiset(NormaliseAll(old(a[..])))
    ensures a.Length < 2 ==> a[..] == old(a[..])
  {
    if a.Length < 2 {
      return;
    }
    var i := 1;
    while i < a.Length
      invariant 1 <= i <= a.Length
      invariant SortedByRank(a[..i])
      invariant i >= 2 ==> forall k :: 0 <= k < i ==> IsNormalised(a[k])
      invariant multiset(NormaliseAll(a[..])) == multiset(NormaliseAll(old(a[..])))
    {
      InsertAt(a, i);
      i := i + 1;
    }
    assert a[..i] == a[..];
    assert NormaliseAll(a[..]) == a[..];
  }
}
