/** Words of bits of any width, and their three-component replicated shares. */
module SharedBits {

  type Bits = seq<bool>

  function Plus(x: Bits, y: Bits): (z: Bits)
    requires |x| == |y|
    ensures |z| == |x|
  {
    seq(|x|, i requires 0 <= i < |x| => x[i] != y[i])
  }

  function And(x: Bits, y: Bits): (z: Bits)
    requires |x| == |y|
    ensures |z| == |x|
  {
    seq(|x|, i requires 0 <= i < |x| => x[i] && y[i])
  }

  function ShiftRight(x: Bits, k: nat): (y: Bits)
    ensures |y| == |x|
  {
    seq(|x|, i requires 0 <= i < |x| => i + k < |x| && x[i + k])
  }

  /** The three components of a shared word; party `i` holds the components `i` and `i - 1`. */
  datatype Shared = Shared(x0: Bits, x1: Bits, x2: Bits)
  {
    ghost predicate Sized(n: nat) { |x0| == |x1| == |x2| == n }

    ghost function Open(): (x: Bits)
      requires |x0| == |x1| == |x2|
      ensures |x| == |x0|
    {
      Plus(Plus(x0, x1), x2)
    }
  }

  // ------------------------------------------------------- products of shares

  /** One party's term of the product of two shared bits. */
  function AndTerm(ua: bool, ub: bool, va: bool, vb: bool, m0: bool, m1: bool): bool {
    ((((ua && va) != (ub && va)) != (ua && vb)) != m0) != m1
  }

  /** The three parties' terms add up to the product, whatever the masks. */
  lemma AndTermsSum(u0: bool, u1: bool, u2: bool, v0: bool, v1: bool, v2: bool, m0: bool, m1: bool, m2: bool)
    ensures ((AndTerm(u0, u2, v0, v2, m0, m2) != AndTerm(u1, u0, v1, v0, m1, m0)) != AndTerm(u2, u1, v2, v1, m2, m1))
         == (((u0 != u1) != u2) && ((v0 != v1) != v2))
  {
  }

  /** One party's masked term of the product of two shared words. */
  function MaskedProduct(ua: Bits, ub: Bits, va: Bits, vb: Bits, m0: Bits, m1: Bits): (y: Bits)
    requires |ua| == |ub| == |va| == |vb| == |m0| == |m1|
    ensures |y| == |ua|
  {
    Plus(Plus(Plus(Plus(And(ua, va), And(ub, va)), And(ua, vb)), m0), m1)
  }

  lemma ProductAt(ua: Bits, ub: Bits, va: Bits, vb: Bits, m0: Bits, m1: Bits, i: nat)
    requires |ua| == |ub| == |va| == |vb| == |m0| == |m1| && i < |ua|
    ensures MaskedProduct(ua, ub, va, vb, m0, m1)[i] == AndTerm(ua[i], ub[i], va[i], vb[i], m0[i], m1[i])
  {
  }

  /** The terms of all parties, each passed on to the next. */
  function AndShared(s: Shared, t: Shared, m: Shared): (r: Shared)
    requires |s.x0| == |s.x1| == |s.x2| == |t.x0| == |t.x1| == |t.x2| == |m.x0| == |m.x1| == |m.x2|
  {
    Shared(MaskedProduct(s.x0, s.x2, t.x0, t.x2, m.x0, m.x2),
           MaskedProduct(s.x1, s.x0, t.x1, t.x0, m.x1, m.x0),
           MaskedProduct(s.x2, s.x1, t.x2, t.x1, m.x2, m.x1))
  }

  lemma ProductParts(s: Shared, t: Shared, m: Shared)
    requires |s.x0| == |s.x1| == |s.x2| == |t.x0| == |t.x1| == |t.x2| == |m.x0| == |m.x1| == |m.x2|
    ensures AndShared(s, t, m) == Shared(MaskedProduct(s.x0, s.x2, t.x0, t.x2, m.x0, m.x2), MaskedProduct(s.x1, s.x0, t.x1, t.x0, m.x1, m.x0),
                                         MaskedProduct(s.x2, s.x1, t.x2, t.x1, m.x2, m.x1))
  {
  }

  lemma OpenBit(s: Shared, i: nat, n: nat)
    requires s.Sized(n) && i < n
    ensures s.Open()[i] == ((s.x0[i] != s.x1[i]) != s.x2[i])
  {
  }

  /** For all masks the product opens to the product of what its factors open to. */
  lemma AndOpens(s: Shared, t: Shared, m: Shared, n: nat)
    requires s.Sized(n) && t.Sized(n) && m.Sized(n)
    ensures AndShared(s, t, m).Sized(n) && AndShared(s, t, m).Open() == And(s.Open(), t.Open())
  {
    hide MaskedProduct, AndTerm, Plus;
    var r := AndShared(s, t, m);
    hide AndShared, Shared.Open;
    assert r == Shared(MaskedProduct(s.x0, s.x2, t.x0, t.x2, m.x0, m.x2), MaskedProduct(s.x1, s.x0, t.x1, t.x0, m.x1, m.x0),
                       MaskedProduct(s.x2, s.x1, t.x2, t.x1, m.x2, m.x1)) by { ProductParts(s, t, m); }
    forall i: nat | i < n ensures r.Open()[i] == And(s.Open(), t.Open())[i] {
      OpenBit(r, i, n);
      OpenBit(s, i, n);
      OpenBit(t, i, n);
      ProductAt(s.x0, s.x2, t.x0, t.x2, m.x0, m.x2, i);
      ProductAt(s.x1, s.x0, t.x1, t.x0, m.x1, m.x0, i);
      ProductAt(s.x2, s.x1, t.x2, t.x1, m.x2, m.x1, i);
      AndTermsSum(s.x0[i], s.x1[i], s.x2[i], t.x0[i], t.x1[i], t.x2[i], m.x0[i], m.x1[i], m.x2[i]);
    }
  }

  ghost predicate AllOf(xs: seq<Shared>, n: nat) {
    forall k {:trigger xs[k]} :: 0 <= k < |xs| ==> xs[k].Sized(n)
  }

  /** Many products, each with its own mask: the two vectors multiplied position by position. */
  function Products(lhs: seq<Shared>, rhs: seq<Shared>, masks: seq<Shared>, ghost n: nat): (ands: seq<Shared>)
    requires |lhs| == |rhs| == |masks| && AllOf(lhs, n) && AllOf(rhs, n) && AllOf(masks, n)
    ensures |ands| == |lhs|
  {
    seq(|lhs|, i requires 0 <= i < |lhs| => AndShared(lhs[i], rhs[i], masks[i]))
  }

  lemma ProductsOpen(lhs: seq<Shared>, rhs: seq<Shared>, masks: seq<Shared>, n: nat)
    requires |lhs| == |rhs| == |masks| && AllOf(lhs, n) && AllOf(rhs, n) && AllOf(masks, n)
    ensures var ands := Products(lhs, rhs, masks, n);
      AllOf(ands, n) && forall i {:trigger ands[i]} :: 0 <= i < |ands| ==> ands[i].Open() == And(lhs[i].Open(), rhs[i].Open())
  {
    var ands := Products(lhs, rhs, masks, n);
    hide AndShared, And, Shared.Open;
    forall i {:trigger ands[i]} | 0 <= i < |ands| ensures ands[i].Sized(n) && ands[i].Open() == And(lhs[i].Open(), rhs[i].Open()) {
      AndOpens(lhs[i], rhs[i], masks[i], n);
    }
  }
}
