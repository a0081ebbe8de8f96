/** Array.prototype.filter over sequences, with the facts every caller of it
    relies on: it keeps exactly the elements the predicate accepts, and in
    their original order. */
module Lists {

  /** The elements of `s` that `keep` accepts, in the order they occur in `s`. */
  function Filter<T>(s: seq<T>, keep: T -> bool): (r: seq<T>)
    ensures |r| <= |s|
    ensures forall k :: 0 <= k < |r| ==> keep(r[k])
  {
    if s == [] then []
    else
      var front := Filter(s[..|s| - 1], keep);
      front + (if keep(s[|s| - 1]) then [s[|s| - 1]] else [])
  }

  /** Filter drops nothing it accepts and invents nothing. */
  lemma {:induction false} FilterMembers<T>(s: seq<T>, keep: T -> bool)
    ensures forall i :: 0 <= i < |s| && keep(s[i]) ==> s[i] in Filter(s, keep)
    ensures forall x :: x in Filter(s, keep) ==> x in s
  {
    if s != [] {
      FilterMembers(s[..|s| - 1], keep);
    }
  }

  /** The positions in `s` of the elements Filter keeps, in increasing order:
      the witness that Filter preserves the relative order of what it keeps. */
  function KeptIndices<T>(s: seq<T>, keep: T -> bool): (idx: seq<nat>)
    ensures |idx| == |Filter(s, keep)|
    ensures forall k :: 0 <= k < |idx| ==> idx[k] < |s| && s[idx[k]] == Filter(s, keep)[k]
    ensures forall k, l :: 0 <= k < l < |idx| ==> idx[k] < idx[l]
    ensures forall k :: 0 <= k < |idx| ==> keep(s[idx[k]])
  {
    if s == [] then []
    else
      var n := |s| - 1;
      var front := KeptIndices(s[..n], keep);
      assert Filter(s, keep) == Filter(s[..n], keep) + (if keep(s[n]) then [s[n]] else []);
      assert forall k :: 0 <= k < |front| ==> front[k] < n;
      front + (if keep(s[n]) then [n] else [])
  }

  /** Every position whose element Filter keeps is among the kept positions. */
  lemma {:induction false} KeptIndicesComplete<T>(s: seq<T>, keep: T -> bool, i: nat)
    requires i < |s| && keep(s[i])
    ensures i in KeptIndices(s, keep)
  {
    var n := |s| - 1;
    if i < n {
      KeptIndicesComplete(s[..n], keep, i);
    }
  }

  /** Filtering a concatenation filters each part separately. */
  lemma {:induction false} FilterAppend<T>(a: seq<T>, b: seq<T>, keep: T -> bool)
    ensures Filter(a + b, keep) == Filter(a, keep) + Filter(b, keep)
  {
    if b == [] {
      assert a + b == a;
    } else {
      var b' := b[..|b| - 1];
      assert (a + b)[..|a + b| - 1] == a + b';
      FilterAppend(a, b', keep);
    }
  }

  /** Filter keeps each element exactly as often as it occurs, if it keeps it at all. */
  lemma {:induction false} FilterCount<T>(s: seq<T>, keep: T -> bool, x: T)
    ensures multiset(Filter(s, keep))[x] == if keep(x) then multiset(s)[x] else 0
  {
    if s != [] {
      var front := s[..|s| - 1];
      assert s == front + [s[|s| - 1]];
      FilterCount(front, keep, x);
    }
  }

  /** Filtering a single element keeps it exactly when the predicate accepts it. */
  lemma FilterSingle<T>(x: T, keep: T -> bool)
    ensures Filter([x], keep) == if keep(x) then [x] else []
  {
    assert [x][..0] == [];
  }

  /** Two predicates that agree on every element of `s` filter it alike. */
  lemma {:induction false} FilterCongruent<T>(s: seq<T>, keep: T -> bool, keep': T -> bool)
    requires forall i :: 0 <= i < |s| ==> keep(s[i]) == keep'(s[i])
    ensures Filter(s, keep) == Filter(s, keep')
  {
    if s != [] {
      FilterCongruent(s[..|s| - 1], keep, keep');
    }
  }
}
