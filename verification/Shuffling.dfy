/** The three-party array shuffle: three steps, each permuting a column shared between two parties. */
module Shuffling {
  import opened Words
  import opened Tables
  import opened Permutations
  import opened Shares

  class ArrayShuffler {
    const prevSharedPerm: LocalPermutation
    const nextSharedPerm: LocalPermutation

    ghost predicate Valid(n: nat) reads this, prevSharedPerm, nextSharedPerm {
      prevSharedPerm.Valid() && nextSharedPerm.Valid() && prevSharedPerm.n == nextSharedPerm.n == n
    }

    /** The two parties' choices; each of them is also drawn by the neighbour. */
    constructor (prevFy: seq<nat>, nextFy: seq<nat>)
      requires Choices(prevFy) && Choices(nextFy) && |prevFy| == |nextFy|
      ensures Valid(|prevFy|) && fresh(prevSharedPerm) && fresh(nextSharedPerm)
      ensures prevSharedPerm.fy == prevFy && nextSharedPerm.fy == nextFy
    {
      prevSharedPerm := new LocalPermutation.FromFisherYates(prevFy);
      nextSharedPerm := new LocalPermutation.FromFisherYates(nextFy);
    }

    /** The permutation of step `p`, which only `p` and its successor know. */
    function PermutationFor(p: nat, id: nat): Option<LocalPermutation> {
      if id == p then Some(nextSharedPerm) else if id == Next(p) then Some(prevSharedPerm) else None
    }
  }

  /** Three parties' shufflers of length `n` in which neighbours hold the same permutations. */
  ghost predicate Together(sh: seq<ArrayShuffler>, n: nat)
    reads set i | 0 <= i < |sh| :: sh[i], set i | 0 <= i < |sh| :: sh[i].prevSharedPerm, set i | 0 <= i < |sh| :: sh[i].nextSharedPerm
  {
    && |sh| == 3 && sh[0].Valid(n) && sh[1].Valid(n) && sh[2].Valid(n)
    && sh[0].nextSharedPerm.fy == sh[1].prevSharedPerm.fy
    && sh[1].nextSharedPerm.fy == sh[2].prevSharedPerm.fy
    && sh[2].nextSharedPerm.fy == sh[0].prevSharedPerm.fy
  }

  /** The choices of step `p`. */
  function Fy(sh: seq<ArrayShuffler>, p: nat): seq<nat>
    requires |sh| == 3 && p < 3
  {
    sh[p].nextSharedPerm.fy
  }

  function Turned<T>(fy: seq<nat>, v: seq<T>, backward: bool): (r: seq<T>)
    requires Choices(fy) && |fy| == |v|
    ensures |r| == |v|
  {
    if backward then InverseOf(fy, v) else ShuffleOf(fy, v)
  }

  lemma TurnedXor(fy: seq<nat>, a: seq<Word>, b: seq<Word>, backward: bool)
    requires Choices(fy) && |fy| == |a| == |b|
    ensures Xored(Turned(fy, a, backward), Turned(fy, b, backward)) == Turned(fy, Xored(a, b), backward)
  {
    ShufflePicks(fy, a);
    ShufflePicks(fy, b);
    ShufflePicks(fy, Xored(a, b));
  }

  /** What one party does locally in step `p`: reshare, and permute if it knows the permutation. */
  method LocalStep(sh: ArrayShuffler, id: nat, p: nat, backward: bool, column: seq<Share>) returns (shares: seq<Word>)
    requires sh.Valid(|column|) && id < 3 && p < 3
    ensures |shares| == |column|
    ensures var two := Reshare3To2(id, column, p, Next(p));
      match sh.PermutationFor(p, id)
      case Some(perm) => shares == Turned(perm.fy, two, backward)
      case None => shares == two
  {
    shares := Reshare3To2(id, column, p, Next(p));
    var permutation := sh.PermutationFor(p, id);
    if permutation.Some? {
      var values := new Word[|shares|](i requires 0 <= i < |shares| => shares[i]);
      assert values[..] == shares;
      if backward { permutation.value.InverseShuffle(values); } else { permutation.value.Shuffle(values); }
      shares := values[..];
    }
  }

  /** One step on one column: whatever the masks, what opens is permuted by the step's permutation. */
  method StepColumn(sh: seq<ArrayShuffler>, p: nat, backward: bool, c: Column, ghost n: nat, masks: seq<seq<Word>>) returns (r: Column)
    requires Together(sh, n) && p < 3 && Valid(c, n) && Sized(masks, n)
    ensures Valid(r, n) && Open(r, n) == Turned(Fy(sh, p), Open(c, n), backward)
  {
    var locals: seq<seq<Word>> := [];
    for id := 0 to 3
      invariant |locals| == id
      invariant forall i :: 0 <= i < id ==> |locals[i]| == n
      invariant forall i :: 0 <= i < id && (i == p || i == Next(p)) ==>
        locals[i] == Turned(Fy(sh, p), Reshare3To2(i, c[i], p, Next(p)), backward)
    {
      var local := LocalStep(sh[id], id, p, backward, c[id]);
      assert id == p || id == Next(p) ==> sh[id].PermutationFor(p, id).Some? && sh[id].PermutationFor(p, id).value.fy == Fy(sh, p);
      locals := locals + [local];
    }
    r := From2Shares(locals, p, Next(p), masks, |c[0]|);
    From2Opens(locals, p, Next(p), masks, n);
    ReshareOpens(c, n, p, Next(p));
    TurnedXor(Fy(sh, p), Reshare3To2(p, c[p], p, Next(p)), Reshare3To2(Next(p), c[Next(p)], p, Next(p)), backward);
  }

  ghost predicate AllValid(cs: seq<Column>, n: nat) {
    forall i {:trigger cs[i]} :: 0 <= i < |cs| ==> Valid(cs[i], n)
  }

  /** Every column opens to the permuted values. */
  ghost predicate AllTurned(before: seq<Column>, after: seq<Column>, n: nat, fy: seq<nat>, backward: bool)
    requires Choices(fy) && |fy| == n
  {
    && |before| == |after|
    && forall i {:trigger after[i]} {:trigger before[i]} :: 0 <= i < |before| && Valid(before[i], n) ==>
         Valid(after[i], n) && Open(after[i], n) == Turned(fy, Open(before[i], n), backward)
  }

  /** The masks of each step and column. */
  type Draws = (nat, nat) -> seq<seq<Word>>

  ghost predicate Drawn(draws: Draws, n: nat) {
    forall s: nat, i: nat {:trigger draws(s, i)} :: Sized(draws(s, i), n)
  }

  lemma StepsNone(n: nat, fy: seq<nat>, backward: bool)
    requires Choices(fy) && |fy| == n
    ensures AllTurned([], [], n, fy, backward)
  {
  }

  lemma TurnedNext(cs: seq<Column>, r: seq<Column>, i: nat, n: nat, fy: seq<nat>, backward: bool, c: Column)
    requires Choices(fy) && |fy| == n && i < |cs| && AllTurned(cs[..i], r, n, fy, backward) && AllValid(r, n)
    requires Valid(cs[i], n) && Valid(c, n) && Open(c, n) == Turned(fy, Open(cs[i], n), backward)
    ensures AllTurned(cs[..i + 1], r + [c], n, fy, backward) && AllValid(r + [c], n)
  {
    hide Valid, Turned, Open;
    assert cs[..i + 1] == cs[..i] + [cs[i]];
  }

  method StepAll(sh: seq<ArrayShuffler>, p: nat, backward: bool, cs: seq<Column>, ghost n: nat, step: nat, first: nat, draws: Draws)
    returns (r: seq<Column>)
    requires Together(sh, n) && p < 3 && AllValid(cs, n) && Drawn(draws, n)
    ensures AllValid(r, n) && AllTurned(cs, r, n, Fy(sh, p), backward)
  {
    hide Valid, Turned, Open, AllTurned;
    StepsNone(n, Fy(sh, p), backward);
    r := [];
    for i := 0 to |cs|
      invariant |r| == i && AllValid(r, n)
      invariant AllTurned(cs[..i], r, n, Fy(sh, p), backward)
    {
      var c := StepColumn(sh, p, backward, cs[i], n, draws(step, first + i));
      TurnedNext(cs, r, i, n, Fy(sh, p), backward, c);
      r := r + [c];
    }
    assert cs[..|cs|] == cs;
  }

  /** `apply_step_many`: forward columns by one party's permutation, inverse columns by another's. */
  method ApplyStepMany(sh: seq<ArrayShuffler>, forwardP: Option<nat>, inverseP: Option<nat>, forwards: seq<Column>, inverses: seq<Column>,
                       ghost n: nat, step: nat, draws: Draws)
    returns (f: seq<Column>, b: seq<Column>)
    requires Together(sh, n) && AllValid(forwards, n) && AllValid(inverses, n) && Drawn(draws, n)
    requires (forwardP.Some? ==> forwardP.value < 3) && (inverseP.Some? ==> inverseP.value < 3)
    ensures AllValid(f, n) && AllValid(b, n)
    ensures if forwardP.Some? then AllTurned(forwards, f, n, Fy(sh, forwardP.value), false) else f == forwards
    ensures if inverseP.Some? then AllTurned(inverses, b, n, Fy(sh, inverseP.value), true) else b == inverses
  {
    f, b := forwards, inverses;
    if forwardP.Some? { f := StepAll(sh, forwardP.value, false, forwards, n, step, 0, draws); }
    if inverseP.Some? { b := StepAll(sh, inverseP.value, true, inverses, n, step, |forwards|, draws); }
  }

  /** All three permutations in turn. */
  function Through<T>(f0: seq<nat>, f1: seq<nat>, f2: seq<nat>, v: seq<T>): (r: seq<T>)
    requires Choices(f0) && Choices(f1) && Choices(f2) && |f0| == |f1| == |f2| == |v|
    ensures |r| == |v|
  {
    ShuffleOf(f2, ShuffleOf(f1, ShuffleOf(f0, v)))
  }

  function Back<T>(f0: seq<nat>, f1: seq<nat>, f2: seq<nat>, v: seq<T>): (r: seq<T>)
    requires Choices(f0) && Choices(f1) && Choices(f2) && |f0| == |f1| == |f2| == |v|
    ensures |r| == |v|
  {
    InverseOf(f0, InverseOf(f1, InverseOf(f2, v)))
  }

  /** The permutation the three steps make together. */
  function Whole(f0: seq<nat>, f1: seq<nat>, f2: seq<nat>): (p: Perm)
    requires Choices(f0) && Choices(f1) && Choices(f2) && |f0| == |f1| == |f2|
    ensures |p.to| == |p.from| == |f0|
  {
    Perm(Back(f0, f1, f2, Identity(|f0|)), Through(f0, f1, f2, Identity(|f0|)))
  }

  lemma PickedTwice<T>(v: seq<T>, a: seq<nat>, b: seq<nat>)
    requires Bounded(a, |v|) && Bounded(b, |a|)
    ensures Bounded(Picked(a, b), |v|) && Picked(Picked(v, a), b) == Picked(v, Picked(a, b))
  {
  }

  /** The forward steps take the rows `from` names, the inverse steps those `to` names. */
  lemma WholePicks<T>(f0: seq<nat>, f1: seq<nat>, f2: seq<nat>, v: seq<T>)
    requires Choices(f0) && Choices(f1) && Choices(f2) && |f0| == |f1| == |f2| == |v|
    ensures var p := Whole(f0, f1, f2);
      && Bounded(p.from, |v|) && Bounded(p.to, |v|)
      && Through(f0, f1, f2, v) == Picked(v, p.from) && Back(f0, f1, f2, v) == Picked(v, p.to)
  {
    var n := |v|;
    var p0, p1, p2 := AsPerm(f0), AsPerm(f1), AsPerm(f2);
    ShufflePicks(f0, v);
    ShufflePicks(f1, ShuffleOf(f0, v));
    ShufflePicks(f2, ShuffleOf(f1, ShuffleOf(f0, v)));
    ShufflePicks(f1, p0.from);
    ShufflePicks(f2, Picked(p0.from, p1.from));
    PickedTwice(v, p0.from, p1.from);
    PickedTwice(v, Picked(p0.from, p1.from), p2.from);
    ShufflePicks(f2, v);
    ShufflePicks(f1, InverseOf(f2, v));
    ShufflePicks(f0, InverseOf(f1, InverseOf(f2, v)));
    ShufflePicks(f1, p2.to);
    ShufflePicks(f0, Picked(p2.to, p1.to));
    PickedTwice(v, p2.to, p1.to);
    PickedTwice(v, Picked(p2.to, p1.to), p0.to);
  }

  /** The inverse steps undo the forward ones, and the whole is a permutation. */
  lemma WholeIsPerm<T>(f0: seq<nat>, f1: seq<nat>, f2: seq<nat>, v: seq<T>)
    requires Choices(f0) && Choices(f1) && Choices(f2) && |f0| == |f1| == |f2| == |v|
    ensures Back(f0, f1, f2, Through(f0, f1, f2, v)) == v && Through(f0, f1, f2, Back(f0, f1, f2, v)) == v
    ensures IsPerm(Whole(f0, f1, f2), |v|)
  {
    var ids, p := Identity(|v|), Whole(f0, f1, f2);
    UndoThrough(f0, f1, f2, v);
    UndoThrough(f0, f1, f2, ids);
    WholePicks(f0, f1, f2, v);
    WholePicks(f0, f1, f2, p.from);
    WholePicks(f0, f1, f2, p.to);
    hide Whole, Through, Back;
    forall i | 0 <= i < |v| ensures p.from[p.to[i]] == i && p.to[p.from[i]] == i {
      assert Picked(p.from, p.to)[i] == i && Picked(p.to, p.from)[i] == i;
    }
  }

  lemma UndoThrough<T>(f0: seq<nat>, f1: seq<nat>, f2: seq<nat>, v: seq<T>)
    requires Choices(f0) && Choices(f1) && Choices(f2) && |f0| == |f1| == |f2| == |v|
    ensures Back(f0, f1, f2, Through(f0, f1, f2, v)) == v && Through(f0, f1, f2, Back(f0, f1, f2, v)) == v
  {
    var n := |v|;
    Undo(f0, v, n);
    Undo(f1, ShuffleOf(f0, v), n);
    Undo(f2, ShuffleOf(f1, ShuffleOf(f0, v)), n);
    Undo(f2, v, n);
    Undo(f1, InverseOf(f2, v), n);
    Undo(f0, InverseOf(f1, InverseOf(f2, v)), n);
  }

  /** Inverse-shuffled row numbers say where each row went: looking there finds the original rows. */
  lemma InverseIdsArePositions<T>(f0: seq<nat>, f1: seq<nat>, f2: seq<nat>, v: seq<T>)
    requires Choices(f0) && Choices(f1) && Choices(f2) && |f0| == |f1| == |f2| == |v|
    ensures Bounded(Back(f0, f1, f2, Identity(|v|)), |v|)
    ensures Picked(Through(f0, f1, f2, v), Back(f0, f1, f2, Identity(|v|))) == v
  {
    UndoThrough(f0, f1, f2, v);
    WholePicks(f0, f1, f2, Through(f0, f1, f2, v));
  }

  ghost predicate AllThrough(before: seq<Column>, after: seq<Column>, n: nat, f0: seq<nat>, f1: seq<nat>, f2: seq<nat>, backward: bool)
    requires Choices(f0) && Choices(f1) && Choices(f2) && |f0| == |f1| == |f2| == n
  {
    && |before| == |after|
    && forall i {:trigger after[i]} {:trigger before[i]} :: 0 <= i < |before| && Valid(before[i], n) ==>
         && Valid(after[i], n)
         && Open(after[i], n) == if backward then Back(f0, f1, f2, Open(before[i], n)) else Through(f0, f1, f2, Open(before[i], n))
  }

  function Steps(noForwards: bool, noInverses: bool): seq<(Option<nat>, Option<nat>)> {
    if !noForwards && noInverses then [(Some(0), None), (Some(1), None), (Some(2), None)]
    else if noForwards && !noInverses then [(None, Some(2)), (None, Some(1)), (None, Some(0))]
    else [(Some(0), Some(2)), (Some(1), Some(1)), (Some(2), Some(0))]
  }

  /** `shuffle_many`: the three permutations on the forward columns, exactly their inverse on the others. */
  method ShuffleMany(sh: seq<ArrayShuffler>, forwards: seq<Column>, inverses: seq<Column>, ghost n: nat, draws: Draws)
    returns (f: seq<Column>, b: seq<Column>)
    requires Together(sh, n) && AllValid(forwards, n) && AllValid(inverses, n) && Drawn(draws, n)
    ensures AllValid(f, n) && AllValid(b, n)
    ensures AllThrough(forwards, f, n, Fy(sh, 0), Fy(sh, 1), Fy(sh, 2), false)
    ensures AllThrough(inverses, b, n, Fy(sh, 0), Fy(sh, 1), Fy(sh, 2), true)
  {
    var steps := Steps(forwards == [], inverses == []);
    f, b := ApplyStepMany(sh, steps[0].0, steps[0].1, forwards, inverses, n, 0, draws);
    ghost var f0, b0 := f, b;
    f, b := ApplyStepMany(sh, steps[1].0, steps[1].1, f, b, n, 1, draws);
    ghost var f1, b1 := f, b;
    f, b := ApplyStepMany(sh, steps[2].0, steps[2].1, f, b, n, 2, draws);
    ThreeForward(forwards, f0, f1, f, n, Fy(sh, 0), Fy(sh, 1), Fy(sh, 2), forwards == [] && inverses != []);
    ThreeInverse(inverses, b0, b1, b, n, Fy(sh, 0), Fy(sh, 1), Fy(sh, 2), inverses == [] && forwards != []);
  }

  lemma ThreeForward(c0: seq<Column>, c1: seq<Column>, c2: seq<Column>, c3: seq<Column>, n: nat, f0: seq<nat>, f1: seq<nat>, f2: seq<nat>, none: bool)
    requires Choices(f0) && Choices(f1) && Choices(f2) && |f0| == |f1| == |f2| == n && AllValid(c0, n)
    requires none ==> c0 == c1 == c2 == c3 == []
    requires !none ==> AllTurned(c0, c1, n, f0, false) && AllTurned(c1, c2, n, f1, false) && AllTurned(c2, c3, n, f2, false)
    ensures AllThrough(c0, c3, n, f0, f1, f2, false)
  {
    if !none {
      forall i {:trigger c3[i]} {:trigger c0[i]} | 0 <= i < |c0|
        ensures Valid(c3[i], n) && Open(c3[i], n) == Through(f0, f1, f2, Open(c0[i], n))
      {
        assert Valid(c0[i], n) && Valid(c1[i], n) && Valid(c2[i], n);
      }
    }
  }

  lemma ThreeInverse(c0: seq<Column>, c1: seq<Column>, c2: seq<Column>, c3: seq<Column>, n: nat, f0: seq<nat>, f1: seq<nat>, f2: seq<nat>, none: bool)
    requires Choices(f0) && Choices(f1) && Choices(f2) && |f0| == |f1| == |f2| == n && AllValid(c0, n)
    requires none ==> c0 == c1 == c2 == c3 == []
    requires !none ==> AllTurned(c0, c1, n, f2, true) && AllTurned(c1, c2, n, f1, true) && AllTurned(c2, c3, n, f0, true)
    ensures AllThrough(c0, c3, n, f0, f1, f2, true)
  {
    if !none {
      forall i {:trigger c3[i]} {:trigger c0[i]} | 0 <= i < |c0|
        ensures Valid(c3[i], n) && Open(c3[i], n) == Back(f0, f1, f2, Open(c0[i], n))
      {
        assert Valid(c0[i], n) && Valid(c1[i], n) && Valid(c2[i], n);
      }
    }
  }
}
