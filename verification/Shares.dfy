/** Replicated exclusive-or sharing among three parties: party `i` holds `(x_i, x_{i-1})`. */
module Shares {
  import opened Words

  /** A ring element of any width. */
  type Word = nat

  datatype Share = Share(a: Word, b: Word)

  /** One shared column: what each of the three parties holds. */
  type Column = seq<seq<Share>>

  function Next(id: nat): (r: nat) ensures r < 3 { (id + 1) % 3 }

  function Prev(id: nat): (r: nat) ensures r < 3 { (id + 2) % 3 }

  ghost predicate Sized<T>(parts: seq<seq<T>>, n: nat) {
    |parts| == 3 && |parts[0]| == n && |parts[1]| == n && |parts[2]| == n
  }

  /** The parties' copies of each component agree. */
  ghost predicate Valid(c: Column, n: nat) {
    && Sized(c, n)
    && (forall k {:trigger c[0][k]} {:trigger c[1][k]} {:trigger c[2][k]} :: 0 <= k < n ==>
          c[0][k].b == c[2][k].a && c[1][k].b == c[0][k].a && c[2][k].b == c[1][k].a)
  }

  function Xor3(a: Word, b: Word, c: Word): Word { Xor(Xor(a, b), c) }

  ghost function Open(c: Column, n: nat): (v: seq<Word>)
    requires Sized(c, n)
    ensures |v| == n
  {
    seq(n, k requires 0 <= k < n => Xor3(c[0][k].a, c[1][k].a, c[2][k].a))
  }

  /** `open_many`: each party adds the component its predecessor sends. */
  function OpenedBy(c: Column, n: nat, id: nat): (v: seq<Word>)
    requires |c| == 3 && |c[0]| == |c[1]| == |c[2]| == n && id < 3
    ensures |v| == n
  {
    seq(n, k requires 0 <= k < n => Xor3(c[id][k].a, c[id][k].b, c[Prev(id)][k].b))
  }

  /** Every party opens a valid column to the same values. */
  lemma OpensAlike(c: Column, n: nat, id: nat)
    requires Valid(c, n) && id < 3
    ensures OpenedBy(c, n, id) == Open(c, n)
  {
    hide Xor, Xor3;
    forall k | 0 <= k < n ensures OpenedBy(c, n, id)[k] == Open(c, n)[k] {
      Rotations(c[0][k].a, c[1][k].a, c[2][k].a);
    }
  }

  lemma Rotations(x: Word, y: Word, z: Word)
    ensures Xor3(x, z, y) == Xor3(x, y, z) && Xor3(y, x, z) == Xor3(x, y, z) && Xor3(z, y, x) == Xor3(x, y, z)
  {
    hide Xor;
    XorComm(x, y);
    XorAssoc(x, z, y);
    XorComm(z, y);
    XorAssoc(x, y, z);
    XorComm(z, y);
    XorAssoc(z, y, x);
    XorComm(y, x);
    XorComm(z, Xor(y, x));
  }

  /** `promote_public`. */
  function PromotePublic(id: nat, v: Word): Share {
    if id == 0 then Share(v, 0) else if id == 1 then Share(0, v) else Share(0, 0)
  }

  /** `reshare_3_to_2` at party `id`. */
  function Reshare3To2(id: nat, column: seq<Share>, to1: nat, to2: nat): (r: seq<Word>)
    ensures |r| == |column|
  {
    seq(|column|, k requires 0 <= k < |column| =>
      if id == to1 then Xor(column[k].a, column[k].b)
      else if id == to2 then (if to2 == Prev(to1) then column[k].b else column[k].a)
      else 0)
  }

  /** `from_2_shares`: the two owners' words, masked with the words neighbours draw together. */
  function From2Shares(locals: seq<seq<Word>>, from1: nat, from2: nat, masks: seq<seq<Word>>, n: nat): (c: Column)
    requires Sized(locals, n) && Sized(masks, n)
    ensures Sized(c, n)
  {
    seq(3, id requires 0 <= id < 3 => seq(n, k requires 0 <= k < n =>
      Share(Component(locals, from1, from2, masks, n, id, k), Component(locals, from1, from2, masks, n, Prev(id), k))))
  }

  function Component(locals: seq<seq<Word>>, from1: nat, from2: nat, masks: seq<seq<Word>>, n: nat, id: nat, k: nat): Word
    requires Sized(locals, n) && Sized(masks, n) && id < 3 && k < n
  {
    Xor3(masks[id][k], masks[Prev(id)][k], if id == from1 || id == from2 then locals[id][k] else 0)
  }

  function Xored(a: seq<Word>, b: seq<Word>): (r: seq<Word>)
    requires |a| == |b|
    ensures |r| == |a|
  {
    seq(|a|, k requires 0 <= k < |a| => Xor(a[k], b[k]))
  }

  lemma MasksCancel(r0: Word, r1: Word, r2: Word, x: Word, y: Word, z: Word)
    ensures Xor3(Xor3(r0, r2, x), Xor3(r1, r0, y), Xor3(r2, r1, z)) == Xor3(x, y, z)
  {
    hide Xor;
    Swap4(Xor(r0, r2), x, Xor(r1, r0), y);
    XorComm(r1, r0);
    Swap4(r0, r2, r0, r1);
    XorSelf(r0);
    Swap4(Xor(r2, r1), Xor(x, y), Xor(r2, r1), z);
    XorSelf(Xor(r2, r1));
  }

  lemma Swap4(a: Word, b: Word, c: Word, d: Word)
    ensures Xor(Xor(a, b), Xor(c, d)) == Xor(Xor(a, c), Xor(b, d))
  {
    hide Xor;
    XorAssoc(a, b, Xor(c, d));
    XorAssoc(b, c, d);
    XorComm(b, c);
    XorAssoc(c, b, d);
    XorAssoc(a, c, Xor(b, d));
  }

  lemma Pairs(x: Word, y: Word)
    ensures Xor3(x, y, 0) == Xor(x, y) && Xor3(0, x, y) == Xor(x, y) && Xor3(x, 0, y) == Xor(x, y) && Xor(y, x) == Xor(x, y)
  {
    XorComm(x, y);
    hide Xor;
  }

  /** Whatever the masks, the two owners' words are replicated to their exclusive or. */
  lemma From2Opens(locals: seq<seq<Word>>, from1: nat, from2: nat, masks: seq<seq<Word>>, n: nat)
    requires Sized(locals, n) && Sized(masks, n) && from1 < 3 && from2 < 3 && from1 != from2
    ensures Valid(From2Shares(locals, from1, from2, masks, n), n)
    ensures Open(From2Shares(locals, from1, from2, masks, n), n) == Xored(locals[from1], locals[from2])
  {
    hide Xor, Xor3;
    var c := From2Shares(locals, from1, from2, masks, n);
    forall k | 0 <= k < n ensures Open(c, n)[k] == Xor(locals[from1][k], locals[from2][k]) {
      var x := if 0 == from1 || 0 == from2 then locals[0][k] else 0;
      var y := if 1 == from1 || 1 == from2 then locals[1][k] else 0;
      var z := if 2 == from1 || 2 == from2 then locals[2][k] else 0;
      MasksCancel(masks[0][k], masks[1][k], masks[2][k], x, y, z);
      Pairs(locals[from1][k], locals[from2][k]);
      Pairs(locals[from2][k], locals[from1][k]);
      assert Prev(0) == 2 && Prev(1) == 0 && Prev(2) == 1;
      assert c[0][k].a == Xor3(masks[0][k], masks[2][k], x);
      assert c[1][k].a == Xor3(masks[1][k], masks[0][k], y);
      assert c[2][k].a == Xor3(masks[2][k], masks[1][k], z);
    }
  }

  lemma ThreeToTwo(x: Word, y: Word, z: Word)
    ensures Xor(Xor(x, z), y) == Xor3(x, y, z) && Xor(y, Xor(x, z)) == Xor3(x, y, z)
    ensures Xor(Xor(y, x), z) == Xor3(x, y, z) && Xor(z, Xor(y, x)) == Xor3(x, y, z)
    ensures Xor(Xor(z, y), x) == Xor3(x, y, z) && Xor(x, Xor(z, y)) == Xor3(x, y, z)
  {
    hide Xor;
    Rotations(x, y, z);
    XorComm(y, Xor(x, z));
    XorComm(z, Xor(y, x));
    XorComm(x, Xor(z, y));
  }

  /** The two chosen parties' words open to the column. */
  lemma ReshareOpens(c: Column, n: nat, to1: nat, to2: nat)
    requires Valid(c, n) && to1 < 3 && to2 < 3 && to1 != to2
    ensures Xored(Reshare3To2(to1, c[to1], to1, to2), Reshare3To2(to2, c[to2], to1, to2)) == Open(c, n)
  {
    hide Xor, Xor3;
    var a, b := Reshare3To2(to1, c[to1], to1, to2), Reshare3To2(to2, c[to2], to1, to2);
    forall k | 0 <= k < n ensures Xor(a[k], b[k]) == Open(c, n)[k] {
      TwoOf(c, n, to1, to2, k);
    }
  }

  lemma TwoOf(c: Column, n: nat, to1: nat, to2: nat, k: nat)
    requires Valid(c, n) && to1 < 3 && to2 < 3 && to1 != to2 && k < n
    ensures Xor(Reshare3To2(to1, c[to1], to1, to2)[k], Reshare3To2(to2, c[to2], to1, to2)[k]) == Open(c, n)[k]
  {
    hide Xor, Xor3;
    var x, y, z := c[0][k].a, c[1][k].a, c[2][k].a;
    ThreeToTwo(x, y, z);
    assert c[0][k].b == z && c[1][k].b == x && c[2][k].b == y;
    assert Reshare3To2(to1, c[to1], to1, to2)[k] == Xor(c[to1][k].a, c[to1][k].b);
  }

  /** `input`: one party shares its words. */
  function Input(owner: nat, secrets: seq<Word>, masks: seq<seq<Word>>): (c: Column)
    requires owner < 3 && Sized(masks, |secrets|)
    ensures Sized(c, |secrets|)
  {
    var zeros := seq(|secrets|, _ => 0);
    From2Shares(seq(3, id => if id == owner then secrets else zeros), owner, Next(owner), masks, |secrets|)
  }

  lemma InputOpens(owner: nat, secrets: seq<Word>, masks: seq<seq<Word>>)
    requires owner < 3 && Sized(masks, |secrets|)
    ensures Valid(Input(owner, secrets, masks), |secrets|) && Open(Input(owner, secrets, masks), |secrets|) == secrets
  {
    var zeros := seq(|secrets|, _ => 0);
    var locals := seq(3, id => if id == owner then secrets else zeros);
    From2Opens(locals, owner, Next(owner), masks, |secrets|);
    forall k | 0 <= k < |secrets| ensures Xored(locals[owner], locals[Next(owner)])[k] == secrets[k] {
    }
  }
}
