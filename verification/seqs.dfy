/** Sequence helpers shared by every view of the inventory: the optional value
    that `find`/`findIndex` return, first-match search, and order-preserving
    filtering. Each is defined once and used by every module that needs it. */
module Seqs {

  /** A value that may be absent, the model of JavaScript's `undefined`/`null`
      results and of `findIndex` returning -1. */
  datatype Option<T> = None | Some(value: T)

  /** Index of the first element satisfying `f`, scanning from the left;
      `None` stands for the -1 of a failed search. */
  function FirstIndex<T>(s: seq<T>, f: T -> bool): (r: Option<nat>)
    ensures r.Some? ==> r.value < |s| && f(s[r.value])
    ensures r.Some? ==> forall j :: 0 <= j < r.value ==> !f(s[j])
    ensures r.None? <==> forall j :: 0 <= j < |s| ==> !f(s[j])
  {
    if |s| == 0 then None
    else if f(s[0]) then Some(0)
    else match FirstIndex(s[1..], f)
      case None => None
      case Some(k) => Some(k + 1)
  }

  /** Two sequences that agree on `f` everywhere have the same first match. */
  lemma FirstIndexAgrees<T>(a: seq<T>, b: seq<T>, f: T -> bool)
    requires |a| == |b|
    requires forall i :: 0 <= i < |a| ==> f(a[i]) == f(b[i])
    ensures FirstIndex(a, f) == FirstIndex(b, f)
  {
  }

  /** The first match is the only position that satisfies `f` with no match
      before it. */
  lemma FirstIndexIs<T>(s: seq<T>, f: T -> bool, i: nat)
    requires i < |s| && f(s[i])
    requires forall j :: 0 <= j < i ==> !f(s[j])
    ensures FirstIndex(s, f) == Some(i)
  {
  }

  /** Appending an element never moves an existing first match, and the new
      element is the first match only when there was none before. */
  lemma FirstIndexAppend<T>(a: seq<T>, x: T, f: T -> bool)
    ensures FirstIndex(a, f).Some? ==> FirstIndex(a + [x], f) == FirstIndex(a, f)
    ensures FirstIndex(a, f).None? ==> FirstIndex(a + [x], f) == if f(x) then Some(|a|) else None
  {
    var b := a + [x];
    assert forall j :: 0 <= j < |a| ==> b[j] == a[j];
    var r := FirstIndex(a, f);
    if r.Some? {
      FirstIndexIs(b, f, r.value);
    } else if f(x) {
      FirstIndexIs(b, f, |a|);
    } else {
      assert forall j :: 0 <= j < |b| ==> !f(b[j]);
    }
  }

  /** The elements of `s` that satisfy `f`, in their original order, as
      scanned left to right. */
  function Filter<T>(s: seq<T>, f: T -> bool): (r: seq<T>)
    ensures |r| <= |s|
    ensures forall i :: 0 <= i < |r| ==> r[i] in s && f(r[i])
    ensures forall i :: 0 <= i < |s| && f(s[i]) ==> s[i] in r
    ensures (forall i :: 0 <= i < |s| ==> f(s[i])) ==> r == s
    ensures (forall i :: 0 <= i < |s| ==> !f(s[i])) ==> r == []
  {
    if |s| == 0 then []
    else
      var init := Filter(s[..|s| - 1], f);
      var x := s[|s| - 1];
      assert s == s[..|s| - 1] + [x];
      if f(x) then init + [x] else init
  }

  /** Filtering distributes over concatenation: the filter keeps the relative
      order of the elements it retains. */
  lemma {:induction false} FilterConcat<T>(a: seq<T>, b: seq<T>, f: T -> bool)
    ensures Filter(a + b, f) == Filter(a, f) + Filter(b, f)
    decreases |b|
  {
    if |b| == 0 {
      assert a + b == a;
    } else {
      var b' := b[..|b| - 1];
      assert (a + b)[..|a + b| - 1] == a + b';
      FilterConcat(a, b', f);
    }
  }

  /** Filtering a one-element sequence keeps the element iff it matches. */
  lemma FilterSingleton<T>(x: T, f: T -> bool)
    ensures Filter([x], f) == if f(x) then [x] else []
  {
    assert [x][..0] == [];
  }

  /** Filtering a sequence with one element put in front. */
  lemma FilterCons<T>(x: T, s: seq<T>, f: T -> bool)
    ensures |Filter([x] + s, f)| == |Filter(s, f)| + (if f(x) then 1 else 0)
  {
    FilterConcat([x], s, f);
    FilterSingleton(x, f);
  }

  /** The positions a filter keeps, strictly increasing: the witness that
      the filter is a subsequence of its input. */
  function FilterIndices<T>(s: seq<T>, f: T -> bool): (idx: seq<nat>)
    ensures |idx| == |Filter(s, f)|
    ensures forall k :: 0 <= k < |idx| ==> idx[k] < |s| && Filter(s, f)[k] == s[idx[k]]
    ensures forall k, l :: 0 <= k < l < |idx| ==> idx[k] < idx[l]
    decreases |s|
  {
    if |s| == 0 then []
    else
      var n := |s| - 1;
      var init := FilterIndices(s[..n], f);
      var idx := if f(s[n]) then init + [n] else init;
      FilterIndicesStep(s, f, init, idx);
      idx
  }

  lemma FilterIndicesStep<T>(s: seq<T>, f: T -> bool, init: seq<nat>, idx: seq<nat>)
    requires |s| > 0
    requires |init| == |Filter(s[..|s| - 1], f)|
    requires forall k :: 0 <= k < |init| ==> init[k] < |s| - 1 && Filter(s[..|s| - 1], f)[k] == s[..|s| - 1][init[k]]
    requires forall k, l :: 0 <= k < l < |init| ==> init[k] < init[l]
    requires idx == if f(s[|s| - 1]) then init + [|s| - 1] else init
    ensures |idx| == |Filter(s, f)|
    ensures forall k :: 0 <= k < |idx| ==> idx[k] < |s| && Filter(s, f)[k] == s[idx[k]]
    ensures forall k, l :: 0 <= k < l < |idx| ==> idx[k] < idx[l]
  {
    var n := |s| - 1;
    var fs, fi := Filter(s, f), Filter(s[..n], f);
    assert fs == if f(s[n]) then fi + [s[n]] else fi;
    forall k | 0 <= k < |idx| ensures idx[k] < |s| && fs[k] == s[idx[k]] {
      if k < |init| {
        assert s[..n][init[k]] == s[init[k]];
      }
    }
  }

  /** Filters with predicates that agree on every element are equal. */
  lemma {:induction false} FilterAgrees<T>(s: seq<T>, f: T -> bool, g: T -> bool)
    requires forall i :: 0 <= i < |s| ==> f(s[i]) == g(s[i])
    ensures Filter(s, f) == Filter(s, g)
    decreases |s|
  {
    if |s| > 0 {
      var s' := s[..|s| - 1];
      assert forall i :: 0 <= i < |s'| ==> s'[i] == s[i];
      FilterAgrees(s', f, g);
    }
  }

  /** The positions of `s` whose element satisfies `f`. */
  function Positions<T>(s: seq<T>, f: T -> bool): set<nat>
  {
    set i: nat | i < |s| && f(s[i])
  }

  /** The length of a filter is the number of positions that satisfy the
      predicate, so counting the kept records counts the matching ones. */
  lemma {:induction false} FilterCount<T>(s: seq<T>, f: T -> bool)
    ensures |Filter(s, f)| == |Positions(s, f)|
    decreases |s|
  {
    if |s| > 0 {
      var n := |s| - 1;
      FilterCount(s[..n], f);
      PositionsInit(s, f);
    }
  }

  /** The matching positions of `s` are those of all but its last element,
      plus the last one when it matches. */
  lemma PositionsInit<T>(s: seq<T>, f: T -> bool)
    requires |s| > 0
    ensures f(s[|s| - 1]) ==> |Positions(s, f)| == |Positions(s[..|s| - 1], f)| + 1
    ensures !f(s[|s| - 1]) ==> Positions(s, f) == Positions(s[..|s| - 1], f)
  {
    var n := |s| - 1;
    var s' := s[..n];
    var before, after := Positions(s', f), Positions(s, f);
    var last: set<nat> := if f(s[n]) then {n} else {};
    forall i: nat ensures i in after <==> i in before + last {
      if i < n {
        assert s'[i] == s[i];
      }
    }
    assert after == before + last;
    assert n !in before;
  }

  /** Replacing one element changes the count of matches by at most the
      change at that position. */
  lemma PositionsUpdate<T>(s: seq<T>, k: nat, x: T, f: T -> bool)
    requires k < |s|
    ensures f(s[k]) && !f(x) ==> Positions(s[k := x], f) == Positions(s, f) - {k}
    ensures !f(s[k]) && f(x) ==> Positions(s[k := x], f) == Positions(s, f) + {k}
    ensures f(s[k]) == f(x) ==> Positions(s[k := x], f) == Positions(s, f)
  {
  }
}
