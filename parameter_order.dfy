/**
 * How HelpFormatter reads a parameter: its arity (how many argument tokens it takes) and the
 * order of the Options section (by first name with the leading dashes stripped, stably).
 */
module ParameterOrder {
  import opened Jcommander
  import Strings

  predicate IsBoolean(t: FieldType)
  {
    t.PrimitiveBoolean? || t.BoxedBoolean?
  }

  /**
   * `getParameterArity`: a positive explicit arity wins; otherwise a `boolean`/`Boolean`
   * field is a switch (arity 0) and any other field takes one argument.
   */
  function ParameterArity(p: ParameterDescription): (r: nat)
    ensures p.arity > 0 ==> r == p.arity
    ensures p.arity <= 0 ==> (r == 0 <==> IsBoolean(p.fieldType))
    ensures p.arity <= 0 ==> r <= 1
  {
    if p.arity > 0 then p.arity
    else if IsBoolean(p.fieldType) then 0
    else 1
  }

  /** `n` dash characters. */
  function Dashes(n: nat): string
  {
    if n == 0 then "" else "-" + Dashes(n - 1)
  }

  /** Group 1 of `^-*(.*)$`: the name with all its leading dashes removed. */
  function StripDashes(s: string): string
  {
    if s != [] && s[0] == '-' then StripDashes(s[1..]) else s
  }

  /** The stripped name is what follows a run of dashes, and it does not itself start with a dash. */
  lemma {:induction false} StripDashesSpec(s: string)
    ensures |StripDashes(s)| <= |s| && s == Dashes(|s| - |StripDashes(s)|) + StripDashes(s)
    ensures StripDashes(s) == [] || StripDashes(s)[0] != '-'
  {
    if s != [] && s[0] == '-' {
      StripDashesSpec(s[1..]);
      assert s == "-" + s[1..];
    }
  }

  /** The characters Java's `.` does not match, so that `^-*(.*)$` matches every name without them. */
  predicate NoLineTerminator(s: string)
  {
    forall i :: 0 <= i < |s| ==> s[i] !in {'\n', '\r', '\U{0085}', '\U{2028}', '\U{2029}'}
  }

  /** A parameter the comparator can handle: it has a first name, and the pattern matches it. */
  predicate Sortable(p: ParameterDescription)
  {
    |p.names| > 0 && NoLineTerminator(p.names[0])
  }

  predicate AllSortable(ps: seq<ParameterDescription>)
  {
    forall i :: 0 <= i < |ps| ==> Sortable(ps[i])
  }

  /**
   * `names()[0]`. Java fails on a parameter without names; the members that read it require
   * `AllSortable`, so the empty name given to such a parameter here is never used.
   */
  function FirstName(p: ParameterDescription): string
  {
    if |p.names| > 0 then p.names[0] else ""
  }

  /** The comparator's key: the first name without its leading dashes. */
  function SortKey(p: ParameterDescription): string
  {
    StripDashes(FirstName(p))
  }

  /** The comparator of `getSortedParameters` returns a negative value: `p` goes before `q`. */
  predicate Before(p: ParameterDescription, q: ParameterDescription)
  {
    Strings.Less(SortKey(p), SortKey(q))
  }

  /** Insert `p` after the last element whose key is not greater than its own. */
  function InsertSorted(p: ParameterDescription, s: seq<ParameterDescription>): seq<ParameterDescription>
  {
    if s == [] then [p]
    else if Before(p, s[|s| - 1]) then InsertSorted(p, s[..|s| - 1]) + [s[|s| - 1]]
    else s + [p]
  }

  /** The stable order of the Options section: an insertion sort by `SortKey`. */
  function StableSort(s: seq<ParameterDescription>): seq<ParameterDescription>
  {
    if s == [] then [] else InsertSorted(s[|s| - 1], StableSort(s[..|s| - 1]))
  }

  predicate SortedByKey(s: seq<ParameterDescription>)
  {
    forall i, j :: 0 <= i < j < |s| ==> !Before(s[j], s[i])
  }

  /** The elements whose key is `k`, in order. */
  function WithKey(s: seq<ParameterDescription>, k: string): seq<ParameterDescription>
  {
    if s == [] then []
    else WithKey(s[..|s| - 1], k) + (if SortKey(s[|s| - 1]) == k then [s[|s| - 1]] else [])
  }

  lemma {:induction false} WithKeyAppend(a: seq<ParameterDescription>, b: seq<ParameterDescription>, k: string)
    ensures WithKey(a + b, k) == WithKey(a, k) + WithKey(b, k)
  {
    if b != [] {
      assert (a + b)[..|a + b| - 1] == a + b[..|b| - 1];
      WithKeyAppend(a, b[..|b| - 1], k);
    } else {
      assert a + b == a;
    }
  }

  lemma {:induction false} InsertSortedMultiset(p: ParameterDescription, s: seq<ParameterDescription>)
    ensures multiset(InsertSorted(p, s)) == multiset(s) + multiset{p}
  {
    if s != [] && Before(p, s[|s| - 1]) {
      assert s == s[..|s| - 1] + [s[|s| - 1]];
      InsertSortedMultiset(p, s[..|s| - 1]);
    }
  }

  lemma {:induction false} InsertSortedWithKey(p: ParameterDescription, s: seq<ParameterDescription>, k: string)
    ensures WithKey(InsertSorted(p, s), k) == WithKey(s, k) + (if SortKey(p) == k then [p] else [])
  {
    if s != [] && Before(p, s[|s| - 1]) {
      var init, last := s[..|s| - 1], s[|s| - 1];
      var mine := if SortKey(p) == k then [p] else [];
      var theirs := if SortKey(last) == k then [last] else [];
      InsertSortedWithKey(p, init, k);
      Strings.LessIrreflexive(SortKey(p));
      WithKeyAppend(InsertSorted(p, init), [last], k);
      assert WithKey([last], k) == theirs by {
        assert [last][..0] == [];
      }
      assert WithKey(s, k) == WithKey(init, k) + theirs;
      assert WithKey(InsertSorted(p, s), k) == WithKey(init, k) + mine + theirs;
      if mine == [] {
        assert WithKey(init, k) + mine == WithKey(init, k);
        assert WithKey(s, k) + mine == WithKey(s, k);
      } else {
        assert theirs == [];
        assert WithKey(init, k) + theirs == WithKey(init, k);
        assert WithKey(init, k) + mine + theirs == WithKey(init, k) + mine;
      }
    } else if s != [] {
      assert (s + [p])[..|s + [p]| - 1] == s;
      assert WithKey(s + [p], k) == WithKey(s, k) + (if SortKey(p) == k then [p] else []);
    } else {
      assert [p][..0] == [];
      assert WithKey([p], k) == WithKey([], k) + (if SortKey(p) == k then [p] else []);
    }
  }

  /** Appending an element that no earlier element goes after keeps a sequence sorted. */
  lemma SortedSnoc(t: seq<ParameterDescription>, x: ParameterDescription)
    requires SortedByKey(t)
    requires forall i :: 0 <= i < |t| ==> !Before(x, t[i])
    ensures SortedByKey(t + [x])
  {
    var u := t + [x];
    forall i, j | 0 <= i < j < |u| ensures !Before(u[j], u[i]) {
      assert u[i] == t[i];
      if j < |t| {
        assert u[j] == t[j];
      }
    }
  }

  lemma InsertSortedBelow(p: ParameterDescription, init: seq<ParameterDescription>, last: ParameterDescription)
    requires Before(p, last)
    requires forall i :: 0 <= i < |init| ==> !Before(last, init[i])
    ensures forall i :: 0 <= i < |InsertSorted(p, init)| ==> !Before(last, InsertSorted(p, init)[i])
  {
    InsertSortedMultiset(p, init);
    var r := InsertSorted(p, init);
    forall i | 0 <= i < |r| ensures !Before(last, r[i]) {
      assert r[i] in multiset(r);
      if r[i] == p {
        Strings.LessAsymmetric(SortKey(p), SortKey(last));
      } else {
        assert r[i] in multiset(init);
      }
    }
  }

  lemma {:induction false} InsertSortedSorted(p: ParameterDescription, s: seq<ParameterDescription>)
    requires SortedByKey(s)
    ensures SortedByKey(InsertSorted(p, s))
  {
    if s != [] {
      var init, last := s[..|s| - 1], s[|s| - 1];
      assert s == init + [last];
      assert forall i :: 0 <= i < |init| ==> !Before(last, init[i]) by {
        forall i | 0 <= i < |init| ensures !Before(last, init[i]) {
          assert init[i] == s[i];
        }
      }
      if Before(p, last) {
        assert SortedByKey(init) by {
          forall i, j | 0 <= i < j < |init| ensures !Before(init[j], init[i]) {
            assert init[i] == s[i] && init[j] == s[j];
          }
        }
        InsertSortedSorted(p, init);
        InsertSortedBelow(p, init, last);
        SortedSnoc(InsertSorted(p, init), last);
      } else {
        forall i | 0 <= i < |s| ensures !Before(p, s[i]) {
          // s[i] <= last <= p
          Strings.LessSplit(SortKey(p), SortKey(last), SortKey(s[i]));
        }
        SortedSnoc(s, p);
      }
    }
  }

  /** The sorted order lists every parameter exactly as often as the declared order, in ascending key order. */
  lemma {:induction false} StableSortSorted(s: seq<ParameterDescription>)
    ensures SortedByKey(StableSort(s))
    ensures multiset(StableSort(s)) == multiset(s)
  {
    if s != [] {
      var init := s[..|s| - 1];
      assert s == init + [s[|s| - 1]];
      StableSortSorted(init);
      InsertSortedSorted(s[|s| - 1], StableSort(init));
      InsertSortedMultiset(s[|s| - 1], StableSort(init));
    }
  }

  /**
   * Ties keep their original order: for every key, the parameters with that key appear in the
   * sorted order exactly as they appear in the declared order.
   */
  lemma {:induction false} StableSortKeepsTies(s: seq<ParameterDescription>, k: string)
    ensures WithKey(StableSort(s), k) == WithKey(s, k)
  {
    if s != [] {
      var init := s[..|s| - 1];
      StableSortKeepsTies(init, k);
      InsertSortedWithKey(s[|s| - 1], StableSort(init), k);
    }
  }

  /**
   * Where the insertion lands: after the last element whose key is not greater than that of `x`,
   * when every element from `j` on has a greater key.
   */
  lemma {:induction false} InsertSortedAt(x: ParameterDescription, s: seq<ParameterDescription>, j: nat)
    requires j <= |s| && (j == 0 || !Before(x, s[j - 1]))
    requires forall k :: j <= k < |s| ==> Before(x, s[k])
    ensures InsertSorted(x, s) == s[..j] + [x] + s[j..]
  {
    if j < |s| {
      var init, last := s[..|s| - 1], s[|s| - 1];
      assert Before(x, last);
      SnocSplit(s, j, x);
      InsertSortedAt(x, init, j);
    } else {
      assert s[..j] == s && s[j..] == [];
    }
  }

  /** Cutting the last element off a sequence leaves its first `j` elements alone. */
  lemma SnocSplit<T>(s: seq<T>, j: nat, x: T)
    requires j < |s|
    ensures var init := s[..|s| - 1];
      init[..j] == s[..j] && (j > 0 ==> init[j - 1] == s[j - 1]) &&
      init[..j] + [x] + init[j..] + [s[|s| - 1]] == s[..j] + [x] + s[j..]
  {
    var init := s[..|s| - 1];
    assert s[j..] == init[j..] + [s[|s| - 1]];
  }

  /** The prefix after the step: `s` with `x` dropped in at `j`. */
  lemma Assembled(b: seq<ParameterDescription>, s: seq<ParameterDescription>, j: nat, x: ParameterDescription)
    requires j <= |s| && |b| == |s| + 1 && b[j] == x
    requires forall k :: 0 <= k < j ==> b[k] == s[k]
    requires forall k :: j < k < |b| ==> b[k] == s[k - 1]
    ensures b == s[..j] + [x] + s[j..]
  {
    var t := s[..j] + [x] + s[j..];
    forall k | 0 <= k < |b| ensures b[k] == t[k] {
      if k < j {
        assert t[k] == s[..j][k];
      } else if k > j {
        assert t[k] == s[j..][k - j - 1];
      }
    }
  }

  /**
   * One step of the sort: shift the elements before index `i` whose key is greater than that
   * of `a[i]` one place up and drop `a[i]` into the gap.
   */
  method InsertAt(a: array<ParameterDescription>, i: nat)
    requires i < a.Length
    modifies a
    ensures a[..i + 1] == InsertSorted(old(a[i]), old(a[..i]))
    ensures a[i + 1..] == old(a[i + 1..])
  {
    ghost var s := a[..i];
    var x := a[i];
    var j := OpenGap(a, i, x, s);
    a[j] := x;
    Assembled(a[..i + 1], s, j, x);
  }

  /**
   * The shifting loop of the step: every element before index `i` whose key is greater than
   * that of `x` moves one place up, which leaves a gap at the returned index `j`.
   */
  method OpenGap(a: array<ParameterDescription>, i: nat, x: ParameterDescription, ghost s: seq<ParameterDescription>)
    returns (j: nat)
    requires i < a.Length && s == a[..i]
    modifies a
    ensures j <= i
    ensures forall k :: 0 <= k < j ==> a[k] == s[k]
    ensures forall k :: j < k <= i ==> a[k] == s[k - 1]
    ensures forall k :: i < k < a.Length ==> a[k] == old(a[k])
    ensures InsertSorted(x, s) == s[..j] + [x] + s[j..]
  {
    j := i;
    while j > 0 && Before(x, a[j - 1])
      invariant 0 <= j <= i
      invariant forall k :: 0 <= k < j ==> a[k] == s[k]
      invariant forall k :: j < k <= i ==> a[k] == s[k - 1]
      invariant forall k :: i < k < a.Length ==> a[k] == old(a[k])
      invariant forall k :: j <= k < i ==> Before(x, s[k])
    {
      a[j] := a[j - 1];
      j := j - 1;
    }
    InsertSortedAt(x, s, j);
  }

  /**
   * `getSortedParameters`: copy the parameter list and sort the copy in place. Java's
   * `Collections.sort` is a stable merge sort; an insertion sort that moves an element
   * only past strictly greater keys produces the same order.
   */
  method SortedParameters(params: seq<ParameterDescription>) returns (sorted: seq<ParameterDescription>)
    requires AllSortable(params)
    ensures sorted == StableSort(params)
    ensures SortedByKey(sorted) && multiset(sorted) == multiset(params)
  {
    var a := new ParameterDescription[|params|](k requires 0 <= k < |params| => params[k]);
    assert a[..] == params;
    var i := 0;
    while i < a.Length
      invariant 0 <= i <= a.Length
      invariant a[i..] == params[i..]
      invariant a[..i] == StableSort(params[..i])
    {
      assert a[i] == params[i];
      InsertAt(a, i);
      assert params[..i + 1][..i] == params[..i];
      i := i + 1;
    }
    assert params[..a.Length] == params;
    sorted := a[..];
    StableSortSorted(params);
  }
}
