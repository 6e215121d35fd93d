/** Sequence utilities shared by the pipeline: flattening, slicing into batches, sums, set enumeration. */
module Seqs {

  /** `set(xs)` in Python. */
  function Elems<T>(xs: seq<T>): set<T>
  {
    set x | x in xs
  }

  ghost predicate Distinct<T>(xs: seq<T>)
  {
    forall i, j :: 0 <= i < j < |xs| ==> xs[i] != xs[j]
  }

  /** `xs` lists every element of `s` exactly once, in some order: what `list(s)` yields for a Python set. */
  ghost predicate IsEnumeration<T>(xs: seq<T>, s: set<T>)
  {
    Elems(xs) == s && Distinct(xs)
  }

  /** Iterating a set: the order is whatever the set yields, so the method only promises an enumeration. */
  method Enumerate<T>(s: set<T>) returns (xs: seq<T>)
    ensures IsEnumeration(xs, s)
    ensures |xs| == |s|
  {
    xs := [];
    var rest := s;
    while rest != {}
      invariant Elems(xs) + rest == s
      invariant Elems(xs) !! rest
      invariant Distinct(xs)
      invariant |xs| + |rest| == |s|
      decreases |rest|
    {
      var x :| x in rest;
      EnumerateStep(xs, x);
      xs := xs + [x];
      rest := rest - {x};
    }
  }

  /** Appending an element not yet listed keeps the list free of repeats and lists one element more. */
  lemma EnumerateStep<T>(xs: seq<T>, x: T)
    requires Distinct(xs) && x !in Elems(xs)
    ensures Elems(xs + [x]) == Elems(xs) + {x}
    ensures Distinct(xs + [x])
  {
    var ys := xs + [x];
    forall i, j | 0 <= i < j < |ys| ensures ys[i] != ys[j] {
      assert ys[i] == xs[i];
      if j == |xs| {
        assert xs[i] in Elems(xs);
      } else {
        assert ys[j] == xs[j];
      }
    }
  }

  /** Concatenation of a sequence of sequences (`"".join(parts)`, `list.extend` in a loop). */
  function Flatten<T>(ss: seq<seq<T>>): seq<T>
  {
    if ss == [] then [] else ss[0] + Flatten(ss[1..])
  }

  lemma {:induction false} FlattenAppend<T>(a: seq<seq<T>>, b: seq<seq<T>>)
    ensures Flatten(a + b) == Flatten(a) + Flatten(b)
  {
    if a == [] {
      assert a + b == b;
    } else {
      assert (a + b)[1..] == a[1..] + b;
      FlattenAppend(a[1..], b);
    }
  }

  lemma FlattenSnoc<T>(a: seq<seq<T>>, x: seq<T>)
    ensures Flatten(a + [x]) == Flatten(a) + x
  {
    FlattenAppend(a, [x]);
    assert Flatten([x]) == x + Flatten([]);
  }

  /**
   * The slices `s[i:i+n]` for `i in range(0, len(s), n)`: consecutive, non-empty,
   * all of length `n` except possibly the last, and together exactly `s`.
   */
  function Slices<T>(s: seq<T>, n: nat): (r: seq<seq<T>>)
    requires n > 0
    ensures Flatten(r) == s
    ensures forall j :: 0 <= j < |r| ==> 0 < |r[j]| <= n
    ensures forall j :: 0 <= j < |r| - 1 ==> |r[j]| == n
    ensures s == [] <==> r == []
    decreases |s|
  {
    if s == [] then []
    else if |s| <= n then
      assert Flatten([s]) == s + Flatten([]);
      [s]
    else
      var rest := Slices(s[n..], n);
      assert Flatten([s[..n]] + rest) == s[..n] + Flatten(rest);
      [s[..n]] + rest
  }

  /** One step of the slicing loop: the slice starting at `i` comes first among the slices of `s[i..]`. */
  lemma SlicesStep<T>(s: seq<T>, n: nat, i: nat, hi: nat)
    requires n > 0 && i < |s|
    requires hi == if i + n <= |s| then i + n else |s|
    ensures Slices(s[i..], n) == [s[i..hi]] + Slices(s[hi..], n)
  {
    var t := s[i..];
    if |t| <= n {
      assert hi == |s| && t == s[i..hi];
      assert s[hi..] == [];
    } else {
      assert t[..n] == s[i..hi];
      assert t[n..] == s[hi..];
    }
  }

  function Sum(xs: seq<nat>): nat
  {
    if xs == [] then 0 else xs[0] + Sum(xs[1..])
  }

  /**
   * `ps` collects, in order, the outputs of `outs` that are not empty: `idx`
   * lists the strictly increasing positions of those outputs, each of which
   * is the one-element sequence holding the matching element of `ps`.
   */
  ghost predicate Selects<T>(ps: seq<T>, outs: seq<seq<T>>, idx: seq<int>)
  {
    && |idx| == |ps|
    && (forall k :: 0 <= k < |idx| ==> 0 <= idx[k] < |outs| && outs[idx[k]] == [ps[k]])
    && (forall k, l :: 0 <= k < l < |idx| ==> idx[k] < idx[l])
    && (forall i :: 0 <= i < |outs| ==> (outs[i] != [] <==> i in idx))
  }

  /** One more output of at most one element extends the selection. */
  lemma SelectsSnoc<T>(ps: seq<T>, outs: seq<seq<T>>, idx: seq<int>, o: seq<T>)
    requires Selects(ps, outs, idx) && |o| <= 1
    ensures Selects(ps + o, outs + [o], idx + (if o != [] then [|outs|] else []))
  {
    var ps', outs' := ps + o, outs + [o];
    var idx' := idx + (if o != [] then [|outs|] else []);
    forall k | 0 <= k < |idx'| ensures 0 <= idx'[k] < |outs'| && outs'[idx'[k]] == [ps'[k]] {
      if k < |idx| {
        assert ps'[k] == ps[k] && idx'[k] == idx[k] && outs'[idx[k]] == outs[idx[k]];
      } else {
        assert o == [o[0]];
      }
    }
    forall i | 0 <= i < |outs'| ensures outs'[i] != [] <==> i in idx' {
      if i < |outs| {
        assert outs'[i] == outs[i];
        assert i in idx <==> i in idx';
      }
    }
  }

  /** Every position moved one place to the right. */
  function Shifted(idx: seq<int>): (r: seq<int>)
    ensures |r| == |idx|
  {
    seq(|idx|, k requires 0 <= k < |idx| => idx[k] + 1)
  }

  /** One more output of at most one element in front extends the selection, with every position shifted. */
  lemma SelectsCons<T>(ps: seq<T>, outs: seq<seq<T>>, idx: seq<int>, o: seq<T>)
    requires Selects(ps, outs, idx) && |o| <= 1
    ensures Selects(o + ps, [o] + outs, (if o != [] then [0] else []) + Shifted(idx))
  {
    var head: seq<int> := if o != [] then [0] else [];
    ConsPicks(ps, outs, idx, o, head);
    ConsIncreasing(idx, head);
    ConsCovers(outs, idx, o, head);
  }

  lemma ConsPicks<T>(ps: seq<T>, outs: seq<seq<T>>, idx: seq<int>, o: seq<T>, head: seq<int>)
    requires Selects(ps, outs, idx) && |o| <= 1
    requires head == if o != [] then [0] else []
    ensures var idx', ps', outs' := head + Shifted(idx), o + ps, [o] + outs;
      forall k :: 0 <= k < |idx'| ==> 0 <= idx'[k] < |outs'| && outs'[idx'[k]] == [ps'[k]]
  {
    var ps', outs' := o + ps, [o] + outs;
    var idx' := head + Shifted(idx);
    forall k | 0 <= k < |idx'| ensures 0 <= idx'[k] < |outs'| && outs'[idx'[k]] == [ps'[k]] {
      if k < |head| {
        assert o == [o[0]];
      } else {
        var k0 := k - |head|;
        assert idx'[k] == idx[k0] + 1 && ps'[k] == ps[k0];
        assert outs'[idx[k0] + 1] == outs[idx[k0]];
      }
    }
  }

  lemma ConsIncreasing(idx: seq<int>, head: seq<int>)
    requires forall k :: 0 <= k < |idx| ==> 0 <= idx[k]
    requires forall k, l :: 0 <= k < l < |idx| ==> idx[k] < idx[l]
    requires head == [] || head == [0]
    ensures var idx' := head + Shifted(idx);
      forall k, l :: 0 <= k < l < |idx'| ==> idx'[k] < idx'[l]
  {
    var idx' := head + Shifted(idx);
    assert forall k :: |head| <= k < |idx'| ==> idx'[k] == idx[k - |head|] + 1;
  }

  lemma ConsCovers<T>(outs: seq<seq<T>>, idx: seq<int>, o: seq<T>, head: seq<int>)
    requires forall k :: 0 <= k < |idx| ==> 0 <= idx[k]
    requires forall i :: 0 <= i < |outs| ==> (outs[i] != [] <==> i in idx)
    requires head == if o != [] then [0] else []
    ensures var idx', outs' := head + Shifted(idx), [o] + outs;
      forall i :: 0 <= i < |outs'| ==> (outs'[i] != [] <==> i in idx')
  {
    var idx', outs' := head + Shifted(idx), [o] + outs;
    forall i | 0 <= i < |outs'| ensures outs'[i] != [] <==> i in idx' {
      ShiftedIn(idx, i);
      if i > 0 {
        assert outs'[i] == outs[i - 1];
      }
    }
  }

  lemma ShiftedIn(idx: seq<int>, i: int)
    requires forall k :: 0 <= k < |idx| ==> 0 <= idx[k]
    ensures i in Shifted(idx) <==> i > 0 && i - 1 in idx
  {
    if i - 1 in idx {
      var k :| 0 <= k < |idx| && idx[k] == i - 1;
      assert Shifted(idx)[k] == i;
    }
  }

  /** Strictly increasing positions below `n` are at most `n` many. */
  lemma {:induction false} IncreasingBounded(idx: seq<int>, n: nat)
    requires forall k :: 0 <= k < |idx| ==> 0 <= idx[k] < n
    requires forall k, l :: 0 <= k < l < |idx| ==> idx[k] < idx[l]
    ensures |idx| <= n
    decreases |idx|
  {
    if idx != [] {
      var m, init := idx[|idx| - 1], idx[..|idx| - 1];
      assert forall k :: 0 <= k < |init| ==> init[k] == idx[k] && idx[k] < m;
      IncreasingBounded(init, m);
    }
  }
}
