/** The handful of Swift collection operations the app's data layer is built
    from: `filter`, `firstIndex(where:)`, `reduce(0, +)`, optional values, and
    the "tap again to clear" selection used by the filter chips. */
module Collections {

  datatype Option<+T> = None | Some(value: T)

  /** `s.filter(p)`: the elements of `s` satisfying `p`, in their original order. */
  function Filter<T(==)>(s: seq<T>, p: T -> bool): (r: seq<T>)
    ensures |r| <= |s|
    ensures forall x :: x in r ==> x in s && p(x)
    ensures forall x :: x in s && p(x) ==> x in r
  {
    if s == [] then []
    else (if p(s[0]) then [s[0]] else []) + Filter(s[1..], p)
  }

  /** Filtering preserves relative order: whatever is kept from a prefix comes
      before whatever is kept from the rest. */
  lemma {:induction false} FilterAppend<T>(a: seq<T>, b: seq<T>, p: T -> bool)
    ensures Filter(a + b, p) == Filter(a, p) + Filter(b, p)
  {
    if a == [] {
      assert a + b == b;
    } else {
      assert (a + b)[0] == a[0];
      assert (a + b)[1..] == a[1..] + b;
      FilterAppend(a[1..], b, p);
    }
  }

  /** Two predicates that agree on every element filter alike. */
  lemma {:induction false} FilterSamePredicate<T>(s: seq<T>, p: T -> bool, q: T -> bool)
    requires forall x :: x in s ==> p(x) == q(x)
    ensures Filter(s, p) == Filter(s, q)
  {
    if s != [] {
      assert forall x :: x in s[1..] ==> x in s;
      FilterSamePredicate(s[1..], p, q);
    }
  }

  /** Filtering keeps every occurrence of a passing element and drops every
      occurrence of a failing one. */
  lemma {:induction false} FilterCount<T>(s: seq<T>, p: T -> bool, x: T)
    ensures multiset(Filter(s, p))[x] == if p(x) then multiset(s)[x] else 0
  {
    if s != [] {
      assert s == [s[0]] + s[1..];
      FilterCount(s[1..], p, x);
    }
  }

  /** A sequence with no element occurring twice. */
  predicate NoDuplicates<T(==)>(s: seq<T>) {
    forall i, j :: 0 <= i < j < |s| ==> s[i] != s[j]
  }

  /** Filtering a duplicate-free sequence keeps it duplicate-free. */
  lemma {:induction false} FilterNoDuplicates<T>(s: seq<T>, p: T -> bool)
    requires NoDuplicates(s)
    ensures NoDuplicates(Filter(s, p))
  {
    if s != [] {
      var rest := Filter(s[1..], p);
      assert NoDuplicates(s[1..]) by {
        forall i, j | 0 <= i < j < |s[1..]| ensures s[1..][i] != s[1..][j] {
          assert s[1..][i] == s[i + 1] && s[1..][j] == s[j + 1];
        }
      }
      FilterNoDuplicates(s[1..], p);
      assert s[0] !in s[1..] by {
        forall k | 0 <= k < |s[1..]| ensures s[1..][k] != s[0] {
          assert s[1..][k] == s[k + 1];
        }
      }
      assert s[0] !in rest;
      var head := if p(s[0]) then [s[0]] else [];
      assert Filter(s, p) == head + rest;
      forall i, j | 0 <= i < j < |head + rest| ensures (head + rest)[i] != (head + rest)[j] {
        if i < |head| {
          assert (head + rest)[j] == rest[j - |head|];
        } else {
          assert (head + rest)[i] == rest[i - |head|] && (head + rest)[j] == rest[j - |head|];
        }
      }
    }
  }

  /** `s.firstIndex(where: { key($0) == k })`: the position of the first element
      whose key is `k`, or None when there is none. */
  function FirstIndex<T, K(==)>(s: seq<T>, key: T -> K, k: K): (r: Option<nat>)
    ensures r.Some? ==> r.value < |s| && key(s[r.value]) == k
    ensures r.Some? ==> forall j :: 0 <= j < r.value ==> key(s[j]) != k
    ensures r.None? <==> forall j :: 0 <= j < |s| ==> key(s[j]) != k
  {
    if s == [] then None
    else if key(s[0]) == k then Some(0)
    else match FirstIndex(s[1..], key, k)
      case None => None
      case Some(i) => Some(i + 1)
  }

  /** Two sequences that agree position by position on their keys have the
      same first match. */
  lemma FirstIndexSameKeys<T, U, K>(s: seq<T>, keyS: T -> K, t: seq<U>, keyT: U -> K, k: K)
    requires |s| == |t|
    requires forall j :: 0 <= j < |s| ==> keyS(s[j]) == keyT(t[j])
    ensures FirstIndex(s, keyS, k) == FirstIndex(t, keyT, k)
  {
  }

  /** An element that is present is always found. */
  lemma FirstIndexFindsMember<T, K>(s: seq<T>, key: T -> K, x: T)
    requires x in s
    ensures FirstIndex(s, key, key(x)).Some?
  {
  }

  /** The linear search behind `firstIndex(where:)`. */
  method FindFirst<T, K(==)>(s: seq<T>, key: T -> K, k: K) returns (r: Option<nat>)
    ensures r == FirstIndex(s, key, k)
  {
    var i := 0;
    while i < |s|
      invariant 0 <= i <= |s|
      invariant forall j :: 0 <= j < i ==> key(s[j]) != k
    {
      if key(s[i]) == k {
        return Some(i);
      }
      i := i + 1;
    }
    return None;
  }

  /** `s.reduce(0, +)`, which folds from the left: the last element is added last. */
  function Sum(s: seq<int>): int {
    if s == [] then 0 else Sum(s[..|s| - 1]) + s[|s| - 1]
  }

  /** Sum over an explicit split point; the other lemmas about Sum rest on it. */
  lemma {:induction false} SumAppend(a: seq<int>, b: seq<int>)
    ensures Sum(a + b) == Sum(a) + Sum(b)
  {
    if b != [] {
      var c := a + b;
      assert c[..|c| - 1] == a + b[..|b| - 1];
      SumAppend(a, b[..|b| - 1]);
    } else {
      assert a + b == a;
    }
  }

  /** Sum of counts that are all non-negative is non-negative and bounds each count. */
  lemma {:induction false} SumBoundsEntries(s: seq<int>)
    requires forall j :: 0 <= j < |s| ==> s[j] >= 0
    ensures Sum(s) >= 0
    ensures forall j :: 0 <= j < |s| ==> s[j] <= Sum(s)
  {
    if s != [] {
      var init := s[..|s| - 1];
      SumBoundsEntries(init);
      forall j | 0 <= j < |s| ensures s[j] <= Sum(s) {
        if j < |s| - 1 {
          assert s[j] == init[j];
        }
      }
    }
  }

  /** Adding one to a single entry adds one to the sum. */
  lemma SumIncrement(s: seq<int>, i: nat)
    requires i < |s|
    ensures Sum(s[i := s[i] + 1]) == Sum(s) + 1
  {
    var t := s[i := s[i] + 1];
    assert s == s[..i] + [s[i]] + s[i + 1..];
    assert t == s[..i] + [s[i] + 1] + s[i + 1..];
    SumAppend(s[..i] + [s[i]], s[i + 1..]);
    SumAppend(s[..i], [s[i]]);
    SumAppend(s[..i] + [s[i] + 1], s[i + 1..]);
    SumAppend(s[..i], [s[i] + 1]);
    assert Sum([s[i]]) == s[i] by { assert [s[i]][..0] == []; }
    assert Sum([s[i] + 1]) == s[i] + 1 by { assert [s[i] + 1][..0] == []; }
  }

  /** `Array(repeating: 0, count: n)`. */
  function Zeros(n: nat): (r: seq<int>)
    ensures |r| == n
    ensures forall j :: 0 <= j < n ==> r[j] == 0
  {
    seq(n, _ => 0)
  }

  lemma {:induction false} SumZeros(n: nat)
    ensures Sum(Zeros(n)) == 0
  {
    if n > 0 {
      assert Zeros(n)[..n - 1] == Zeros(n - 1);
      SumZeros(n - 1);
    }
  }

  /** The filter chips' tap handler `selected = selected == tapped ? nil : tapped`. */
  function ToggledSelection<T(==)>(selected: Option<T>, tapped: T): (r: Option<T>)
    ensures r == None <==> selected == Some(tapped)
    ensures r != None ==> r == Some(tapped)
  {
    if selected == Some(tapped) then None else Some(tapped)
  }

  /** Tapping the same chip twice restores the selection exactly when nothing,
      or that very chip, was selected before; from another chip it ends at nil. */
  lemma ToggledSelectionTwice<T>(selected: Option<T>, tapped: T)
    ensures ToggledSelection(ToggledSelection(selected, tapped), tapped) == selected
        <==> (selected == None || selected == Some(tapped))
  {
  }
}
