/**
 * The array operations the catalog rules are written with: `filter` and
 * `find`, and the subsequence relation that says a filter keeps catalog order.
 */
module Seqs {

  import opened Wrappers

  /** `a` can be obtained from `b` by deleting elements. */
  predicate IsSubsequence<T(==)>(a: seq<T>, b: seq<T>)
    decreases |b|
  {
    if a == [] then true
    else if b == [] then false
    else if a[0] == b[0] then IsSubsequence(a[1..], b[1..])
    else IsSubsequence(a, b[1..])
  }

  /** `Array.prototype.filter`: the elements satisfying `keep`, in order. */
  function Filter<T(==)>(s: seq<T>, keep: T -> bool): (r: seq<T>)
    ensures |r| <= |s|
    ensures forall i :: 0 <= i < |r| ==> r[i] in s && keep(r[i])
    ensures forall i :: 0 <= i < |s| && keep(s[i]) ==> s[i] in r
    ensures IsSubsequence(r, s)
  {
    if s == [] then []
    else if keep(s[0]) then [s[0]] + Filter(s[1..], keep)
    else Filter(s[1..], keep)
  }

  /** `Array.prototype.find`: the first element satisfying `matches`, if any. */
  function Find<T>(s: seq<T>, matches: T -> bool): (r: Option<T>)
    ensures r.None? <==> forall i :: 0 <= i < |s| ==> !matches(s[i])
    ensures r.Some? ==> exists i :: 0 <= i < |s| && s[i] == r.value && matches(s[i]) &&
                                    forall k :: 0 <= k < i ==> !matches(s[k])
  {
    if s == [] then None
    else if matches(s[0]) then Some(s[0])
    else
      var r := Find(s[1..], matches);
      assert r.Some? ==> exists i :: 0 <= i < |s[1..]| && s[1..][i] == r.value && matches(s[1..][i]) &&
                                     forall k :: 0 <= k < i ==> !matches(s[1..][k]);
      assert r.Some? ==> exists i :: 1 <= i < |s| && s[i] == r.value && matches(s[i]) &&
                                     forall k :: 0 <= k < i ==> !matches(s[k]);
      r
  }

  /** `Array.prototype.reverse`, as a value. */
  function Reverse<T>(s: seq<T>): (r: seq<T>)
    ensures |r| == |s|
    ensures forall i :: 0 <= i < |s| ==> r[i] == s[|s| - 1 - i]
  {
    if s == [] then [] else Reverse(s[1..]) + [s[0]]
  }

  /** `flatMap`: the concatenation of `f` applied to each element, in order. */
  function FlatMap<T, U>(s: seq<T>, f: T -> seq<U>): seq<U> {
    if s == [] then [] else FlatMap(s[..|s| - 1], f) + f(s[|s| - 1])
  }

  lemma {:induction false} FlatMapAppend<T, U>(a: seq<T>, b: seq<T>, f: T -> seq<U>)
    ensures FlatMap(a + b, f) == FlatMap(a, f) + FlatMap(b, f)
  {
    if b == [] {
      assert a + b == a;
    } else {
      assert (a + b)[..|a + b| - 1] == a + b[..|b| - 1];
      FlatMapAppend(a, b[..|b| - 1], f);
    }
  }

  lemma FlatMapUpdate<T, U>(s: seq<T>, i: nat, v: T, f: T -> seq<U>)
    requires i < |s|
    ensures multiset(f(s[i])) <= multiset(FlatMap(s, f))
    ensures multiset(FlatMap(s[i := v], f)) ==
            multiset(FlatMap(s, f)) - multiset(f(s[i])) + multiset(f(v))
  {
    assert s == s[..i] + [s[i]] + s[i + 1..];
    assert s[i := v] == s[..i] + [v] + s[i + 1..];
    FlatMapAppend(s[..i] + [s[i]], s[i + 1..], f);
    FlatMapAppend(s[..i], [s[i]], f);
    FlatMapAppend(s[..i] + [v], s[i + 1..], f);
    FlatMapAppend(s[..i], [v], f);
    assert FlatMap([s[i]], f) == f(s[i]) by { assert [s[i]][..0] == []; }
    assert FlatMap([v], f) == f(v) by { assert [v][..0] == []; }
  }

  lemma FlatMapSnoc<T, U>(s: seq<T>, k: nat, f: T -> seq<U>)
    requires k < |s|
    ensures FlatMap(s[..k + 1], f) == FlatMap(s[..k], f) + f(s[k])
  {
    assert s[..k + 1][..k] == s[..k];
  }

  lemma {:induction false} FlatMapMembership<T, U>(s: seq<T>, f: T -> seq<U>, x: U)
    ensures x in FlatMap(s, f) <==> exists i :: 0 <= i < |s| && x in f(s[i])
  {
    if s != [] {
      var n := |s| - 1;
      FlatMapMembership(s[..n], f, x);
      if x in f(s[n]) {
        assert 0 <= n < |s| && x in f(s[n]);
      }
      if exists i :: 0 <= i < |s| && x in f(s[i]) {
        var i :| 0 <= i < |s| && x in f(s[i]);
        if i < n {
          assert s[..n][i] == s[i];
        }
      }
    }
  }

  lemma {:induction false} FlatMapNil<T, U>(s: seq<T>, f: T -> seq<U>)
    requires forall i :: 0 <= i < |s| ==> f(s[i]) == []
    ensures FlatMap(s, f) == []
  {
    if s != [] {
      FlatMapNil(s[..|s| - 1], f);
    }
  }

  /** The present values of a sequence of options, in order: `.filter(x => x !== undefined)`. */
  function Somes<T>(os: seq<Option<T>>): seq<T> {
    if os == [] then []
    else Somes(os[..|os| - 1]) + if os[|os| - 1].Some? then [os[|os| - 1].value] else []
  }

  lemma {:induction false} SomesLength<T>(os: seq<Option<T>>)
    ensures |Somes(os)| <= |os|
  {
    if os != [] {
      SomesLength(os[..|os| - 1]);
    }
  }

  lemma {:induction false} SomesAppend<T>(a: seq<Option<T>>, b: seq<Option<T>>)
    ensures Somes(a + b) == Somes(a) + Somes(b)
  {
    if b == [] {
      assert a + b == a;
    } else {
      assert (a + b)[..|a + b| - 1] == a + b[..|b| - 1];
      SomesAppend(a, b[..|b| - 1]);
    }
  }

  lemma {:induction false} SomesMembership<T>(os: seq<Option<T>>, x: T)
    ensures x in Somes(os) <==> exists i :: 0 <= i < |os| && os[i] == Some(x)
  {
    if os != [] {
      var n := |os| - 1;
      var init := os[..n];
      var last := if os[n].Some? then [os[n].value] else [];
      assert Somes(os) == Somes(init) + last;
      SomesMembership(init, x);
      if x in Somes(os) {
        if x in Somes(init) {
          var i :| 0 <= i < |init| && init[i] == Some(x);
          assert os[i] == Some(x);
        } else {
          assert x in last;
          assert os[n] == Some(x);
        }
      }
      if exists i :: 0 <= i < |os| && os[i] == Some(x) {
        var i :| 0 <= i < |os| && os[i] == Some(x);
        if i < n {
          assert init[i] == os[i];
        } else {
          assert x in last;
        }
      }
    }
  }

  /** With every option present, `Somes` keeps them all, in order. */
  lemma {:induction false} SomesAllPresent<T>(os: seq<Option<T>>)
    requires forall i :: 0 <= i < |os| ==> os[i].Some?
    ensures |Somes(os)| == |os|
    ensures forall i :: 0 <= i < |os| ==> Somes(os)[i] == os[i].value
  {
    if os != [] {
      var n := |os| - 1;
      var init := os[..n];
      assert forall i :: 0 <= i < |init| ==> init[i] == os[i];
      SomesAllPresent(init);
    }
  }
}
