/** Single bits of words. */
module Bits {
  import opened Words

  function Bit(x: nat, i: nat): bool
    decreases i
  {
    if i == 0 then x % 2 == 1 else Bit(x / 2, i - 1)
  }

  lemma {:induction false} BitXor(a: nat, b: nat, i: nat)
    ensures Bit(Xor(a, b), i) == (Bit(a, i) != Bit(b, i))
    decreases i
  {
    XorHalves(a, b);
    if i > 0 { BitXor(a / 2, b / 2, i - 1); }
  }

  lemma {:induction false} ZeroBits(i: nat)
    ensures !Bit(0, i)
  {
    if i > 0 { ZeroBits(i - 1); }
  }

  /** A position where two different words differ. */
  lemma {:induction false} Differ(x: nat, y: nat, w: nat) returns (i: nat)
    requires x < Pow2(w) && y < Pow2(w) && x != y
    ensures i < w && Bit(x, i) != Bit(y, i)
    decreases w
  {
    assert w > 0;
    if x % 2 != y % 2 {
      i := 0;
    } else {
      assert x == 2 * (x / 2) + x % 2 && y == 2 * (y / 2) + y % 2;
      i := Differ(x / 2, y / 2, w - 1);
      i := i + 1;
    }
  }

  /** Words of `w` bits are equal exactly when all of them agree. */
  lemma BitsDecide(x: nat, y: nat, w: nat)
    requires x < Pow2(w) && y < Pow2(w)
    ensures x == y <==> forall i :: 0 <= i < w ==> Bit(x, i) == Bit(y, i)
  {
    if x != y { var i := Differ(x, y, w); }
  }

  /** The bits of a word put above another one of `k` bits. */
  lemma {:induction false} BitJoin(u: nat, v: nat, k: nat, i: nat)
    requires u < Pow2(k)
    ensures Bit(u + v * Pow2(k), i) == if i < k then Bit(u, i) else Bit(v, i - k)
    decreases k
  {
    if k == 0 {
      assert v * Pow2(0) == v;
    } else {
      var h := Pow2(k - 1);
      assert v * Pow2(k) == 2 * (v * h);
      assert (u + 2 * (v * h)) / 2 == u / 2 + v * h && (u + 2 * (v * h)) % 2 == u % 2;
      if i > 0 { BitJoin(u / 2, v, k - 1, i - 1); }
    }
  }

  /** The bits of a word `y` that is `x` shifted right by `k`. */
  lemma {:induction false} BitShift(x: nat, k: nat, y: nat, i: nat)
    requires Pow2(k) * y <= x < Pow2(k) * y + Pow2(k)
    ensures Bit(y, i) == Bit(x, i + k)
    decreases k
  {
    if k == 0 {
      assert Pow2(0) * y == y;
    } else {
      Doubled(Pow2(k - 1), y);
      BitShift(x / 2, k - 1, y, i);
    }
  }

  lemma Doubled(h: nat, y: nat)
    ensures (2 * h) * y == 2 * (h * y)
  {
  }

  /** The low bits of a word. */
  lemma BitLow(x: nat, k: nat, i: nat)
    requires i < k
    ensures Bit(x % Pow2(k), i) == Bit(x, i)
  {
    hide Bit, Pow2;
    Rejoin(x, Pow2(k));
    BitJoin(x % Pow2(k), x / Pow2(k), k, i);
  }

  lemma Rejoin(x: nat, p: nat)
    requires p >= 1
    ensures x == x % p + (x / p) * p && x % p < p
  {
  }

  /** Exclusive or stays within the width. */
  lemma {:induction false} XorBound(a: nat, b: nat, w: nat)
    requires a < Pow2(w) && b < Pow2(w)
    ensures Xor(a, b) < Pow2(w)
    decreases w
  {
    XorHalves(a, b);
    if w > 0 { XorBound(a / 2, b / 2, w - 1); }
  }

  lemma PowerSum(a: nat, b: nat, x: nat, y: nat)
    requires Pow2(a) == x && Pow2(b) == y
    ensures Pow2(a + b) == x * y
  {
    Pow2Add(a, b);
  }

  lemma PowersOf32()
    ensures Pow2(32) == TWO32 && Pow2(96) == TWO96 && Pow2(128) == TWO96 * TWO32
  {
    assert Pow2(8) == 256;
    hide Pow2;
    PowerSum(8, 8, 256, 256);
    PowerSum(16, 16, 65536, 65536);
    PowerSum(32, 32, TWO32, TWO32);
    PowerSum(64, 32, TWO64, TWO32);
    PowerSum(96, 32, TWO96, TWO32);
  }
}
