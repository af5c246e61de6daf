/**
 * The prerequisite chain of a development: which development it requires,
 * directly or through the one it replaces, and the ids to research before it,
 * roots first.
 */
module DevelopmentsCost {

  import opened Wrappers
  import opened Seqs

  /** `DevWithRequires` (its `requires` and `replaces` fields); `None` stands for `null`. */
  datatype Dev = Dev(id: string, requiresId: Option<string>, replacesId: Option<string>)

  /** A string field is truthy: present and non-empty. */
  predicate Present(o: Option<string>) {
    o.Some? && o.value != ""
  }

  /**
   * `getEffectiveRequires`: the development's own non-empty requirement, else
   * that of the development it replaces (kept as stored, even when empty).
   */
  function EffectiveRequires(idToDev: map<string, Dev>, d: Dev): (r: Option<string>)
    ensures Present(d.requiresId) ==> r == d.requiresId
    ensures !Present(d.requiresId) ==>
              (r.Some? <==> Present(d.replacesId) && d.replacesId.value in idToDev &&
                            idToDev[d.replacesId.value].requiresId.Some?)
    ensures !Present(d.requiresId) && r.Some? ==> r == idToDev[d.replacesId.value].requiresId
  {
    if Present(d.requiresId) then d.requiresId
    else if Present(d.replacesId) then
      if d.replacesId.value in idToDev then idToDev[d.replacesId.value].requiresId else None
    else None
  }

  /** The id the walk moves to from `d`; an empty effective requirement ends it. */
  function NextId(idToDev: map<string, Dev>, d: Dev): Option<string> {
    var r := EffectiveRequires(idToDev, d);
    if Present(r) then r else None
  }

  /**
   * The ranked ids are closed under the requires link between known
   * developments, and along each such link the rank drops. A rank holding
   * just the ids of one chain exists exactly when that chain has no cycle;
   * cycles among developments outside it do not matter.
   */
  ghost predicate Acyclic(idToDev: map<string, Dev>, rank: map<string, nat>) {
    forall k :: k in rank && k in idToDev && NextId(idToDev, idToDev[k]).Some? && NextId(idToDev, idToDev[k]).value in idToDev ==>
      NextId(idToDev, idToDev[k]).value in rank && rank[NextId(idToDev, idToDev[k]).value] < rank[k]
  }

  /** The requires chain starting at `targetId` is ranked, so the walk from it ends. */
  ghost predicate AcyclicFrom(idToDev: map<string, Dev>, rank: map<string, nat>, targetId: string) {
    Acyclic(idToDev, rank) && (targetId in idToDev ==> targetId in rank)
  }

  /** The ids the loop pushes starting from the development `k`, in push order. */
  ghost function Walk(idToDev: map<string, Dev>, rank: map<string, nat>, k: string): seq<string>
    requires Acyclic(idToDev, rank) && k in idToDev && k in rank
    decreases rank[k]
  {
    match NextId(idToDev, idToDev[k])
    case None => []
    case Some(r) => [r] + if r in idToDev then Walk(idToDev, rank, r) else []
  }

  /**
   * What `getMinimumPathOrder` returns: nothing for an unknown target;
   * otherwise a roots-first prerequisite path of non-empty ids, ending at the
   * target's requirement and never naming the target itself.
   */
  ghost function MinimumPathOrder(idToDev: map<string, Dev>, rank: map<string, nat>, targetId: string)
    : (path: seq<string>)
    requires AcyclicFrom(idToDev, rank, targetId)
    ensures targetId !in idToDev ==> path == []
    ensures targetId in idToDev ==> IsPrerequisitePath(idToDev, targetId, path)
    ensures targetId !in path
    ensures forall j :: 0 <= j < |path| ==> path[j] != ""
  {
    if targetId in idToDev then
      ReversedWalkShape(idToDev, rank, targetId);
      Reverse(Walk(idToDev, rank, targetId))
    else []
  }

  /** One step of the walk, in the terms the loop tests. */
  lemma WalkUnfold(idToDev: map<string, Dev>, rank: map<string, nat>, k: string)
    requires Acyclic(idToDev, rank) && k in idToDev && k in rank
    ensures !Present(EffectiveRequires(idToDev, idToDev[k])) ==> Walk(idToDev, rank, k) == []
    ensures Present(EffectiveRequires(idToDev, idToDev[k])) ==>
              var r := EffectiveRequires(idToDev, idToDev[k]).value;
              && Walk(idToDev, rank, k) == [r] + (if r in idToDev then Walk(idToDev, rank, r) else [])
              && (r in idToDev ==> r in rank && rank[r] < rank[k])
  {
  }

  /** `getMinimumPathOrder`: follow effective requirements from the target, then reverse. */
  method GetMinimumPathOrder(idToDev: map<string, Dev>, targetId: string, ghost rank: map<string, nat>)
    returns (path: seq<string>)
    requires AcyclicFrom(idToDev, rank, targetId)
    ensures path == MinimumPathOrder(idToDev, rank, targetId)
  {
    if targetId !in idToDev {
      return [];
    }
    ghost var walk := Walk(idToDev, rank, targetId);
    var chain: seq<string> := [];
    var current: Option<Dev> := Some(idToDev[targetId]);
    ghost var key := targetId;
    while current.Some?
      invariant current.Some? ==> key in idToDev && key in rank && current.value == idToDev[key]
      invariant current.Some? ==> chain + Walk(idToDev, rank, key) == walk
      invariant current.None? ==> chain == walk
      decreases if current.Some? then rank[key] + 1 else 0
    {
      WalkUnfold(idToDev, rank, key);
      var reqId := EffectiveRequires(idToDev, current.value);
      if !Present(reqId) {
        assert chain == walk;
        break;
      }
      ghost var rest := if reqId.value in idToDev then Walk(idToDev, rank, reqId.value) else [];
      assert chain + ([reqId.value] + rest) == walk;
      chain := chain + [reqId.value];
      assert chain + rest == walk;
      current := if reqId.value in idToDev then Some(idToDev[reqId.value]) else None;
      key := reqId.value;
    }
    path := Reverse(chain);
  }

  // ---------------------------------------------------------------------
  // The walk, described link by link
  // ---------------------------------------------------------------------

  /**
   * `q` is a walk from `k` in push order: it starts at `k`'s next id, each
   * element's next id is the element after it, and it ends at an id that is
   * unknown or has no requirement.
   */
  ghost predicate IsWalk(idToDev: map<string, Dev>, k: string, q: seq<string>)
    requires k in idToDev
  {
    (q == [] <==> NextId(idToDev, idToDev[k]).None?)
    && (q != [] ==> NextId(idToDev, idToDev[k]) == Some(q[0]))
    && (forall j :: 0 <= j < |q| - 1 ==> q[j] in idToDev && NextId(idToDev, idToDev[q[j]]) == Some(q[j + 1]))
    && (q != [] ==> q[|q| - 1] !in idToDev || NextId(idToDev, idToDev[q[|q| - 1]]).None?)
  }

  lemma {:induction false} WalkIsWalk(idToDev: map<string, Dev>, rank: map<string, nat>, k: string)
    requires Acyclic(idToDev, rank) && k in idToDev && k in rank
    ensures IsWalk(idToDev, k, Walk(idToDev, rank, k))
    ensures forall j :: 0 <= j < |Walk(idToDev, rank, k)| ==> Walk(idToDev, rank, k)[j] != ""
    ensures forall j :: 0 <= j < |Walk(idToDev, rank, k)| && Walk(idToDev, rank, k)[j] in idToDev ==>
              Walk(idToDev, rank, k)[j] in rank && rank[Walk(idToDev, rank, k)[j]] < rank[k]
    decreases rank[k]
  {
    var q := Walk(idToDev, rank, k);
    match NextId(idToDev, idToDev[k])
    case None =>
    case Some(r) =>
      if r in idToDev {
        WalkIsWalk(idToDev, rank, r);
        var tail := Walk(idToDev, rank, r);
        assert q == [r] + tail;
        forall j | 0 <= j < |q| - 1
          ensures q[j] in idToDev && NextId(idToDev, idToDev[q[j]]) == Some(q[j + 1])
        {
          if j > 0 {
            assert q[j] == tail[j - 1] && q[j + 1] == tail[j];
          }
        }
      }
  }

  /** The walk is the only sequence the link-by-link description admits. */
  lemma {:induction false} IsWalkUnique(idToDev: map<string, Dev>, rank: map<string, nat>, k: string, q: seq<string>)
    requires Acyclic(idToDev, rank) && k in idToDev && k in rank
    requires IsWalk(idToDev, k, q)
    ensures q == Walk(idToDev, rank, k)
    decreases rank[k]
  {
    if q != [] {
      var r := q[0];
      if r in idToDev {
        if |q| > 1 {
          assert q[0] in idToDev && NextId(idToDev, idToDev[q[0]]) == Some(q[1]);
        }
        var tail := q[1..];
        assert forall j :: 0 <= j < |tail| ==> tail[j] == q[j + 1];
        assert IsWalk(idToDev, r, tail);
        IsWalkUnique(idToDev, rank, r, tail);
        assert q == [r] + tail;
      } else {
        assert |q| == 1;
      }
    }
  }

  // ---------------------------------------------------------------------
  // The path, roots first
  // ---------------------------------------------------------------------

  /**
   * `p` lists the target's prerequisites roots first: its last element is the
   * target's next id, each element's next id is the one before it, and the
   * first is unknown or has no requirement.
   */
  ghost predicate IsPrerequisitePath(idToDev: map<string, Dev>, targetId: string, p: seq<string>)
    requires targetId in idToDev
  {
    (p == [] <==> NextId(idToDev, idToDev[targetId]).None?)
    && (p != [] ==> NextId(idToDev, idToDev[targetId]) == Some(p[|p| - 1]))
    && (forall j :: 1 <= j < |p| ==> p[j] in idToDev && NextId(idToDev, idToDev[p[j]]) == Some(p[j - 1]))
    && (p != [] ==> p[0] !in idToDev || NextId(idToDev, idToDev[p[0]]).None?)
  }

  lemma ReverseWalk(idToDev: map<string, Dev>, k: string, q: seq<string>)
    requires k in idToDev
    ensures IsWalk(idToDev, k, q) <==> IsPrerequisitePath(idToDev, k, Reverse(q))
  {
    var p := Reverse(q);
    if IsWalk(idToDev, k, q) {
      forall j | 1 <= j < |p|
        ensures p[j] in idToDev && NextId(idToDev, idToDev[p[j]]) == Some(p[j - 1])
      {
        assert p[j] == q[|q| - 1 - j] && p[j - 1] == q[|q| - 1 - j + 1];
      }
    }
    if IsPrerequisitePath(idToDev, k, p) {
      forall j | 0 <= j < |q| - 1
        ensures q[j] in idToDev && NextId(idToDev, idToDev[q[j]]) == Some(q[j + 1])
      {
        var i := |q| - 1 - j;
        assert p[i] == q[j] && p[i - 1] == q[j + 1];
      }
    }
  }

  /**
   * The reversed walk from a known development is a prerequisite path of
   * non-empty ids, none of them the development itself.
   */
  lemma ReversedWalkShape(idToDev: map<string, Dev>, rank: map<string, nat>, k: string)
    requires Acyclic(idToDev, rank) && k in idToDev && k in rank
    ensures IsPrerequisitePath(idToDev, k, Reverse(Walk(idToDev, rank, k)))
    ensures k !in Reverse(Walk(idToDev, rank, k))
    ensures forall j :: 0 <= j < |Walk(idToDev, rank, k)| ==> Reverse(Walk(idToDev, rank, k))[j] != ""
  {
    var q := Walk(idToDev, rank, k);
    WalkIsWalk(idToDev, rank, k);
    ReverseWalk(idToDev, k, q);
    var p := Reverse(q);
    forall j | 0 <= j < |p|
      ensures p[j] != k && p[j] != ""
    {
      assert p[j] == q[|q| - 1 - j];
    }
  }

  /** Any prerequisite path of the target is the one the walk returns. */
  lemma PrerequisitePathUnique(idToDev: map<string, Dev>, rank: map<string, nat>, targetId: string, p: seq<string>)
    requires AcyclicFrom(idToDev, rank, targetId) && targetId in idToDev
    requires IsPrerequisitePath(idToDev, targetId, p)
    ensures p == MinimumPathOrder(idToDev, rank, targetId)
  {
    var q := Reverse(p);
    assert Reverse(q) == p;
    ReverseWalk(idToDev, targetId, q);
    IsWalkUnique(idToDev, rank, targetId, q);
  }
}
