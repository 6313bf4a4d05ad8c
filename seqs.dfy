/**
 * The JavaScript array operations the proxy uses (`filter`, `find`,
 * `reverse` on a copy), as functions on sequences, with lemmas that locate
 * what they pick by its index in the original array.
 */
module Seqs {
  import opened Wrappers

  /** `s.filter(f)`: the elements satisfying `f`, in their original order. */
  function Filter<T>(s: seq<T>, f: T -> bool): (r: seq<T>)
    ensures |r| <= |s|
  {
    if s == [] then [] else (if f(s[0]) then [s[0]] else []) + Filter(s[1..], f)
  }

  /** `s.find(f)`: the first element satisfying `f`, if any. */
  function Find<T>(s: seq<T>, f: T -> bool): (r: Option<T>)
    ensures r.Some? ==> r.value in s && f(r.value)
    ensures r.None? ==> forall i :: 0 <= i < |s| ==> !f(s[i])
    ensures forall i :: IsFirst(s, f, i) ==> r == Some(s[i])
  {
    if s == [] then None
    else if f(s[0]) then Some(s[0])
    else Find(s[1..], f)
  }

  /** `[...s].reverse()`: a reversed copy. */
  function Reverse<T>(s: seq<T>): (r: seq<T>)
    ensures |r| == |s|
    ensures forall i :: 0 <= i < |s| ==> r[i] == s[|s| - 1 - i]
  {
    if s == [] then [] else Reverse(s[1..]) + [s[0]]
  }

  /** The conjunction of two element tests. */
  function Both<T>(f: T -> bool, g: T -> bool): T -> bool {
    x => f(x) && g(x)
  }

  /** `i` is the index of the first element of `s` satisfying `f`. */
  ghost predicate IsFirst<T>(s: seq<T>, f: T -> bool, i: int) {
    0 <= i < |s| && f(s[i]) && forall k :: 0 <= k < i ==> !f(s[k])
  }

  /** `i` is the index of the last element of `s` satisfying `f`. */
  ghost predicate IsLast<T>(s: seq<T>, f: T -> bool, i: int) {
    0 <= i < |s| && f(s[i]) && forall k :: i < k < |s| ==> !f(s[k])
  }

  /** Filtering keeps exactly the elements that pass the test. */
  lemma {:induction false} FilterMembers<T>(s: seq<T>, f: T -> bool)
    ensures forall i :: 0 <= i < |Filter(s, f)| ==> Filter(s, f)[i] in s && f(Filter(s, f)[i])
    ensures forall i :: 0 <= i < |s| && f(s[i]) ==> s[i] in Filter(s, f)
  {
    if s != [] {
      FilterMembers(s[1..], f);
      assert s == [s[0]] + s[1..];
    }
  }

  /** Filtering distributes over concatenation: it keeps the order. */
  lemma {:induction false} FilterConcat<T>(a: seq<T>, b: seq<T>, f: T -> bool)
    ensures Filter(a + b, f) == Filter(a, f) + Filter(b, f)
  {
    if a == [] {
      assert a + b == b;
    } else {
      var head := if f(a[0]) then [a[0]] else [];
      calc {
        Filter(a + b, f);
        { assert (a + b)[0] == a[0] && (a + b)[1..] == a[1..] + b; }
        head + Filter(a[1..] + b, f);
        { FilterConcat(a[1..], b, f); }
        head + (Filter(a[1..], f) + Filter(b, f));
        (head + Filter(a[1..], f)) + Filter(b, f);
        Filter(a, f) + Filter(b, f);
      }
    }
  }

  /** An element failing the test can be inserted anywhere without changing the filter. */
  lemma FilterSkip<T>(s: seq<T>, k: nat, x: T, f: T -> bool)
    requires k <= |s| && !f(x)
    ensures Filter(s[..k] + [x] + s[k..], f) == Filter(s, f)
  {
    var a, b := s[..k], s[k..];
    var fa, fb := Filter(a, f), Filter(b, f);
    assert Filter(a + [x], f) == fa by {
      assert Filter([x], f) == [] by {
        assert [x][1..] == [];
      }
      FilterConcat(a, [x], f);
      assert fa + [] == fa;
    }
    assert Filter(a + [x] + b, f) == fa + fb by {
      FilterConcat(a + [x], b, f);
    }
    assert Filter(s, f) == fa + fb by {
      FilterConcat(a, b, f);
      assert a + b == s;
    }
  }

  /** Whenever some element satisfies `f`, a first and a last such element exist. */
  lemma {:induction false} FirstAndLastExist<T>(s: seq<T>, f: T -> bool, k: int)
    requires 0 <= k < |s| && f(s[k])
    ensures exists i :: IsFirst(s, f, i)
    ensures exists j :: IsLast(s, f, j)
  {
    var i := k;
    while i > 0 && exists m :: 0 <= m < i && f(s[m])
      invariant 0 <= i <= k && f(s[i])
      decreases i
    {
      var m :| 0 <= m < i && f(s[m]);
      i := m;
    }
    assert IsFirst(s, f, i);
    var j := k;
    while j < |s| - 1 && exists m :: j < m < |s| && f(s[m])
      invariant k <= j < |s| && f(s[j])
      decreases |s| - j
    {
      var m :| j < m < |s| && f(s[m]);
      j := m;
    }
    assert IsLast(s, f, j);
  }

  /**
   * The first element of `Filter(s, f)` satisfying `g` is the first element
   * of `s` satisfying both; there is none exactly when no element of `s`
   * satisfies both.
   */
  lemma {:induction false} FindInFilter<T>(s: seq<T>, f: T -> bool, g: T -> bool)
    ensures Find(Filter(s, f), g).None? <==> forall k :: 0 <= k < |s| ==> !Both(f, g)(s[k])
    ensures forall i :: IsFirst(s, Both(f, g), i) ==> Find(Filter(s, f), g) == Some(s[i])
  {
    if s != [] {
      FindInFilter(s[1..], f, g);
      var rest := Filter(s[1..], f);
      if f(s[0]) && g(s[0]) {
        assert Filter(s, f) == [s[0]] + rest;
        forall i | IsFirst(s, Both(f, g), i) ensures i == 0 {
          assert Both(f, g)(s[0]);
        }
      } else {
        assert Find(Filter(s, f), g) == Find(rest, g) by {
          if f(s[0]) {
            assert Filter(s, f) == [s[0]] + rest;
          } else {
            assert Filter(s, f) == rest;
          }
        }
        assert !Both(f, g)(s[0]);
        forall i | IsFirst(s, Both(f, g), i) ensures Find(Filter(s, f), g) == Some(s[i]) {
          assert IsFirst(s[1..], Both(f, g), i - 1);
        }
        assert (forall k :: 0 <= k < |s| ==> !Both(f, g)(s[k]))
          <==> (forall k :: 0 <= k < |s[1..]| ==> !Both(f, g)(s[1..][k]));
      }
    }
  }

  /**
   * `Filter(s, f)` is empty exactly when no element satisfies `f`; otherwise
   * its last element is the last element of `s` satisfying `f`.
   */
  lemma {:induction false} LastOfFilter<T>(s: seq<T>, f: T -> bool)
    ensures Filter(s, f) == [] <==> forall k :: 0 <= k < |s| ==> !f(s[k])
    ensures forall j :: IsLast(s, f, j) ==> Filter(s, f) != [] && Filter(s, f)[|Filter(s, f)| - 1] == s[j]
  {
    if s != [] {
      var n := |s| - 1;
      var init := s[..n];
      assert s == init + [s[n]];
      FilterConcat(init, [s[n]], f);
      assert Filter([s[n]], f) == if f(s[n]) then [s[n]] else [] by {
        assert [s[n]][1..] == [];
      }
      LastOfFilter(init, f);
      forall j | IsLast(s, f, j)
        ensures Filter(s, f) != [] && Filter(s, f)[|Filter(s, f)| - 1] == s[j]
      {
        if j < n {
          assert IsLast(init, f, j);
        }
      }
      if !f(s[n]) {
        assert (forall k :: 0 <= k < |s| ==> !f(s[k])) <==> (forall k :: 0 <= k < |init| ==> !f(init[k]));
      }
    }
  }
}
