/** Fisher-Yates permutations kept as their choice vectors and applied in place. */
module Permutations {
  import opened Words
  import opened Tables

  /** Every choice is a position: all the source needs, though it draws `fy[i] <= i`. */
  predicate Choices(fy: seq<nat>) {
    forall i {:trigger fy[i]} :: 0 <= i < |fy| ==> fy[i] < |fy|
  }

  function Swapped<T>(v: seq<T>, i: nat, j: nat): (r: seq<T>)
    requires i < |v| && j < |v|
    ensures |r| == |v|
  {
    v[i := v[j]][j := v[i]]
  }

  /** The swaps at positions `i - 1` down to 1. */
  function Forward<T>(fy: seq<nat>, v: seq<T>, i: nat): (r: seq<T>)
    requires Choices(fy) && i <= |fy| == |v|
    ensures |r| == |v|
    decreases i
  {
    if i <= 1 then v else Forward(fy, Swapped(v, i - 1, fy[i - 1]), i - 1)
  }

  /** The swaps at positions 1 up to `i - 1`. */
  function Backward<T>(fy: seq<nat>, v: seq<T>, i: nat): (r: seq<T>)
    requires Choices(fy) && i <= |fy| == |v|
    ensures |r| == |v|
    decreases i
  {
    if i <= 1 then v else Swapped(Backward(fy, v, i - 1), i - 1, fy[i - 1])
  }

  function ShuffleOf<T>(fy: seq<nat>, v: seq<T>): (r: seq<T>)
    requires Choices(fy) && |fy| == |v|
    ensures |r| == |v|
  {
    Forward(fy, v, |fy|)
  }

  function InverseOf<T>(fy: seq<nat>, v: seq<T>): (r: seq<T>)
    requires Choices(fy) && |fy| == |v|
    ensures |r| == |v|
  {
    Backward(fy, v, |fy|)
  }

  function Identity(n: nat): (ids: seq<nat>)
    ensures |ids| == n && forall i :: 0 <= i < n ==> ids[i] == i
  {
    seq(n, i => i)
  }

  lemma SwapTwice<T>(v: seq<T>, i: nat, j: nat)
    requires i < |v| && j < |v|
    ensures Swapped(Swapped(v, i, j), i, j) == v
  {
  }

  /** The swaps undone in the opposite order restore every array. */
  lemma {:induction false} Undo<T>(fy: seq<nat>, v: seq<T>, i: nat)
    requires Choices(fy) && i <= |fy| == |v|
    ensures Backward(fy, Forward(fy, v, i), i) == v
    ensures Forward(fy, Backward(fy, v, i), i) == v
    decreases i
  {
    if i > 1 {
      var w := Swapped(v, i - 1, fy[i - 1]);
      Undo(fy, w, i - 1);
      SwapTwice(v, i - 1, fy[i - 1]);
      SwapTwice(Backward(fy, v, i - 1), i - 1, fy[i - 1]);
      Undo(fy, v, i - 1);
    }
  }

  predicate Bounded(from: seq<nat>, n: nat) {
    forall k {:trigger from[k]} :: 0 <= k < |from| ==> from[k] < n
  }

  /** The row at each position `from` names. */
  function Picked<T>(v: seq<T>, from: seq<nat>): (r: seq<T>)
    requires Bounded(from, |v|)
    ensures |r| == |from|
  {
    seq(|from|, k requires 0 <= k < |from| => v[from[k]])
  }

  lemma {:induction false} ForwardPicks<T>(fy: seq<nat>, v: seq<T>, ids: seq<nat>, i: nat)
    requires Choices(fy) && i <= |fy| == |ids| && Bounded(ids, |v|)
    ensures Bounded(Forward(fy, ids, i), |v|)
    ensures Forward(fy, Picked(v, ids), i) == Picked(v, Forward(fy, ids, i))
    decreases i
  {
    if i > 1 {
      var swapped := Swapped(ids, i - 1, fy[i - 1]);
      assert Swapped(Picked(v, ids), i - 1, fy[i - 1]) == Picked(v, swapped);
      ForwardPicks(fy, v, swapped, i - 1);
    }
  }

  lemma {:induction false} BackwardPicks<T>(fy: seq<nat>, v: seq<T>, ids: seq<nat>, i: nat)
    requires Choices(fy) && i <= |fy| == |ids| && Bounded(ids, |v|)
    ensures Bounded(Backward(fy, ids, i), |v|)
    ensures Backward(fy, Picked(v, ids), i) == Picked(v, Backward(fy, ids, i))
    decreases i
  {
    if i > 1 { BackwardPicks(fy, v, ids, i - 1); }
  }

  /** Where each row goes, and where each new row came from. */
  function AsPerm(fy: seq<nat>): (p: Perm)
    requires Choices(fy)
    ensures |p.to| == |p.from| == |fy|
  {
    Perm(InverseOf(fy, Identity(|fy|)), ShuffleOf(fy, Identity(|fy|)))
  }

  lemma PickedAll<T>(v: seq<T>)
    ensures Picked(v, Identity(|v|)) == v
  {
  }

  /** Shuffling takes the rows `from` names, and the inverse shuffle those `to` names. */
  lemma ShufflePicks<T>(fy: seq<nat>, v: seq<T>)
    requires Choices(fy) && |v| == |fy|
    ensures Bounded(AsPerm(fy).from, |v|) && Bounded(AsPerm(fy).to, |v|)
    ensures ShuffleOf(fy, v) == Picked(v, AsPerm(fy).from)
    ensures InverseOf(fy, v) == Picked(v, AsPerm(fy).to)
  {
    PickedAll(v);
    ForwardPicks(fy, v, Identity(|v|), |v|);
    BackwardPicks(fy, v, Identity(|v|), |v|);
  }

  /** A choice vector describes a permutation, and row `j` lands where `to[j]` says. */
  lemma ShuffleIsPerm<T>(fy: seq<nat>, v: seq<T>)
    requires Choices(fy) && |v| == |fy|
    ensures IsPerm(AsPerm(fy), |fy|)
    ensures forall j {:trigger AsPerm(fy).to[j]} :: 0 <= j < |v| ==> ShuffleOf(fy, v)[AsPerm(fy).to[j]] == v[j]
    ensures InverseOf(fy, ShuffleOf(fy, v)) == v && ShuffleOf(fy, InverseOf(fy, v)) == v
  {
    var ids, p := Identity(|fy|), AsPerm(fy);
    ShufflePicks(fy, v);
    ShufflePicks(fy, p.from);
    ShufflePicks(fy, p.to);
    Undo(fy, ids, |fy|);
    Undo(fy, v, |fy|);
    assert Picked(p.from, p.to) == ids && Picked(p.to, p.from) == ids;
    forall i | 0 <= i < |fy| ensures p.from[p.to[i]] == i && p.to[p.from[i]] == i {
      assert Picked(p.from, p.to)[i] == i && Picked(p.to, p.from)[i] == i;
    }
    ShufflePicks(fy, ShuffleOf(fy, v));
    assert Picked(ShuffleOf(fy, v), p.to) == v;
    forall j | 0 <= j < |v| ensures ShuffleOf(fy, v)[p.to[j]] == v[j] {
      assert Picked(ShuffleOf(fy, v), p.to)[j] == v[j];
    }
  }

  /** One permutation after the other. */
  function Composed(p: Perm, q: Perm): (r: Perm)
    requires |p.to| == |p.from| == |q.to| == |q.from|
    requires Bounded(p.to, |p.to|) && Bounded(q.from, |q.from|)
  {
    Perm(Picked(q.to, p.to), Picked(p.from, q.from))
  }

  lemma ComposedIsPerm(p: Perm, q: Perm, n: nat)
    requires IsPerm(p, n) && IsPerm(q, n)
    ensures IsPerm(Composed(p, q), n)
  {
    var r := Composed(p, q);
    forall i | 0 <= i < n ensures r.to[i] < n && r.from[r.to[i]] == i {
      var j := p.to[i];
      assert q.from[q.to[j]] == j && r.to[i] == q.to[j];
    }
    forall j | 0 <= j < n ensures r.from[j] < n && r.to[r.from[j]] == j {
      var i := q.from[j];
      assert p.to[p.from[i]] == i && q.to[q.from[j]] == j;
    }
  }

  /** `LocalPermutation`: the choices of one shuffle and, once asked for, where each row goes. */
  class LocalPermutation {
    const n: nat
    const fy: seq<nat>
    var pi: Option<seq<nat>>

    ghost predicate Valid() reads this {
      && n == |fy| && Choices(fy) && (pi.Some? ==> pi.value == AsPerm(fy).to)
    }

    constructor FromFisherYates(fy: seq<nat>)
      requires Choices(fy)
      ensures Valid() && this.fy == fy && this.n == |fy|
    {
      this.n, this.fy, this.pi := |fy|, fy, None;
    }

    method Shuffle<T>(values: array<T>)
      requires Valid() && values.Length == n
      modifies values
      ensures values[..] == ShuffleOf(fy, old(values[..]))
    {
      var i: nat := n;
      while i > 1
        invariant i <= n && (n > 0 ==> i > 0)
        invariant Forward(fy, values[..], i) == ShuffleOf(fy, old(values[..]))
      {
        i := i - 1;
        ghost var was := values[..];
        values[i], values[fy[i]] := values[fy[i]], values[i];
        assert values[..] == Swapped(was, i, fy[i]);
      }
    }

    method InverseShuffle<T>(values: array<T>)
      requires Valid() && values.Length == n
      modifies values
      ensures values[..] == InverseOf(fy, old(values[..]))
    {
      var i := 1;
      while i < n
        invariant i <= n || i == 1
        invariant values[..] == Backward(fy, old(values[..]), if i <= n then i else n)
      {
        ghost var was := values[..];
        values[i], values[fy[i]] := values[fy[i]], values[i];
        assert values[..] == Swapped(was, i, fy[i]);
        i := i + 1;
      }
    }

    /** Where row `input` goes. */
    method EvaluateAt(input: nat) returns (to: nat)
      requires Valid() && input < n
      modifies this`pi
      ensures Valid() && to == AsPerm(fy).to[input] && to < n
      ensures forall v: seq<int> {:trigger ShuffleOf(fy, v)} :: |v| == n ==> ShuffleOf(fy, v)[to] == v[input]
    {
      if pi.None? {
        var ids := new nat[n](i => i);
        assert ids[..] == Identity(n);
        InverseShuffle(ids);
        pi := Some(ids[..]);
      }
      to := pi.value[input];
      ShuffleIsPerm(fy, Identity(n));
      forall v: seq<int> | |v| == n ensures ShuffleOf(fy, v)[to] == v[input] {
        ShuffleIsPerm(fy, v);
      }
    }
  }
}
