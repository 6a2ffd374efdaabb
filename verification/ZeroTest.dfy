/** The zero test of shared words: the logarithmic fold, and the byte schedule hidden in the cipher's rounds. */
module ZeroTest {
  import opened SharedBits

  function Not(x: Bits): (y: Bits)
    ensures |y| == |x|
  {
    seq(|x|, i requires 0 <= i < |x| => !x[i])
  }

  /** The complement, taken in every component. */
  function NotShared(s: Shared): Shared { Shared(Not(s.x0), Not(s.x1), Not(s.x2)) }

  ghost predicate IsZero(x: Bits) { forall i :: 0 <= i < |x| ==> !x[i] }

  ghost predicate AllSet(x: Bits) { forall i :: 0 <= i < |x| ==> x[i] }

  lemma NotOpens(s: Shared, n: nat)
    requires s.Sized(n)
    ensures NotShared(s).Sized(n) && NotShared(s).Open() == Not(s.Open())
    ensures AllSet(Not(s.Open())) <==> IsZero(s.Open())
  {
    var x := s.Open();
    if AllSet(Not(x)) { forall i | 0 <= i < |x| ensures !x[i] { assert Not(x)[i]; } }
  }

  // -------------------------------------------------------------- the fold

  /** Each of the `keep` low bits times the one `shift` above it. */
  function Fold(x: Bits, shift: nat, keep: nat): (y: Bits)
    requires keep <= |x|
    ensures |y| == keep
  {
    seq(keep, i requires 0 <= i < keep => x[i] && i + shift < |x| && x[i + shift])
  }

  /** One party's term of that product, cut to `keep` bits. */
  function FoldLocal(a: Bits, b: Bits, shift: nat, keep: nat, m0: Bits, m1: Bits): (y: Bits)
    requires |a| == |b| && keep <= |a| && |m0| == |m1| == keep
    ensures |y| == keep
  {
    seq(keep, i requires 0 <= i < keep =>
      var (ha, hb) := (i + shift < |a| && a[i + shift], i + shift < |b| && b[i + shift]);
      AndTerm(a[i], b[i], ha, hb, m0[i], m1[i]))
  }

  /** `fold_zero_stage_many` on one word. */
  function FoldShared(s: Shared, shift: nat, keep: nat, m: Shared): (r: Shared)
    requires |s.x0| == |s.x1| == |s.x2| && keep <= |s.x0| && |m.x0| == |m.x1| == |m.x2| == keep
  {
    Shared(FoldLocal(s.x0, s.x2, shift, keep, m.x0, m.x2), FoldLocal(s.x1, s.x0, shift, keep, m.x1, m.x0), FoldLocal(s.x2, s.x1, shift, keep, m.x2, m.x1))
  }

  /** For all masks a stage opens to the fold of the opened word. */
  lemma FoldOpens(s: Shared, n: nat, shift: nat, keep: nat, m: Shared)
    requires s.Sized(n) && keep <= n && m.Sized(keep)
    ensures FoldShared(s, shift, keep, m).Sized(keep) && FoldShared(s, shift, keep, m).Open() == Fold(s.Open(), shift, keep)
  {
    var r := FoldShared(s, shift, keep, m);
    forall i | 0 <= i < keep ensures r.Open()[i] == Fold(s.Open(), shift, keep)[i] {
      var (h0, h1, h2) := (i + shift < n && s.x0[i + shift], i + shift < n && s.x1[i + shift], i + shift < n && s.x2[i + shift]);
      AndTermsSum(s.x0[i], s.x1[i], s.x2[i], h0, h1, h2, m.x0[i], m.x1[i], m.x2[i]);
    }
  }

  function Half(k: nat): (p: nat) ensures p >= 1 { if k == 0 then 1 else 2 * Half(k - 1) }

  /** The width a stage keeps: half, but never less than a byte. */
  function Kept(shift: nat): (keep: nat) ensures keep >= shift { if shift < 8 then 8 else shift }

  /** The stages from shift `2^k` down to 1. */
  function FoldAll(x: Bits, k: nat): (y: Bits)
    requires |x| >= Half(k) && |x| >= 8
    ensures |y| >= 1
    decreases k
  {
    var y := Fold(x, Half(k), Kept(Half(k)));
    if k == 0 then y else FoldAll(y, k - 1)
  }

  /** The first `n` bits are set. */
  ghost predicate LowSet(x: Bits, n: nat) { n <= |x| && forall i :: 0 <= i < n ==> x[i] }

  lemma FoldLow(x: Bits, shift: nat, keep: nat)
    requires 2 * shift <= |x| && shift <= keep <= |x|
    ensures LowSet(Fold(x, shift, keep), shift) <==> LowSet(x, 2 * shift)
  {
    var y := Fold(x, shift, keep);
    if LowSet(y, shift) {
      forall i | 0 <= i < 2 * shift ensures x[i] {
        assert y[if i < shift then i else i - shift];
      }
    }
  }

  /** The fold of any width `2^(k+1)` ends with bit 0 saying whether all bits were set. */
  lemma {:induction false} FoldDecides(x: Bits, k: nat)
    requires |x| >= 2 * Half(k) && |x| >= 8
    ensures FoldAll(x, k)[0] <==> LowSet(x, 2 * Half(k))
    decreases k
  {
    var shift := Half(k);
    FoldLow(x, shift, Kept(shift));
    var y := Fold(x, shift, Kept(shift));
    if k == 0 {
      assert LowSet(y, 1) <==> y[0];
    } else {
      FoldDecides(y, k - 1);
    }
  }

  /** A shared bit that opens to `b`. */
  ghost predicate Flag(s: Shared, b: bool) { s.Sized(1) && s.Open() == [b] }

  /** `get_bit(0)`. */
  function LowBit(s: Shared): Shared
    requires |s.x0| == |s.x1| == |s.x2| >= 1
  {
    Shared([s.x0[0]], [s.x1[0]], [s.x2[0]])
  }

  lemma LowBitOpens(s: Shared)
    requires |s.x0| == |s.x1| == |s.x2| >= 1
    ensures Flag(LowBit(s), s.Open()[0])
  {
  }

  /** Every value is `n` bits wide and still decides what the inputs ask. */
  ghost predicate Folding(inputs: seq<Shared>, values: seq<Shared>, k: nat, j: int, n: nat) {
    && |values| == |inputs| && -1 <= j <= k && n >= 8 && (j >= 0 ==> n >= 2 * Half(j))
    && forall w {:trigger values[w]} :: 0 <= w < |values| ==> FoldingWord(inputs[w], values[w], k, j, n)
  }

  ghost predicate FoldingWord(input: Shared, value: Shared, k: nat, j: int, n: nat)
    requires -1 <= j <= k && n >= 8 && (j >= 0 ==> n >= 2 * Half(j))
  {
    && input.Sized(2 * Half(k)) && 2 * Half(k) >= 8 && value.Sized(n)
    && (if j >= 0 then FoldAll(value.Open(), j) else value.Open()) == FoldAll(Not(input.Open()), k)
  }

  /** `fold_zero_stage_many`: one stage on every word, each with its own mask. */
  method FoldStageMany(values: seq<Shared>, j: nat, masks: nat -> Shared, ghost inputs: seq<Shared>, ghost k: nat, ghost n: nat) returns (next: seq<Shared>)
    requires j <= k && Folding(inputs, values, k, j, n) && forall w: nat {:trigger masks(w)} :: masks(w).Sized(Kept(Half(j)))
    ensures Folding(inputs, next, k, j as int - 1, Kept(Half(j)))
  {
    next := [];
    HalfOf(j);
    hide Half, Kept, FoldAll, FoldShared, Shared.Open;
    for w := 0 to |values|
      invariant |next| == w
      invariant forall v {:trigger next[v]} :: 0 <= v < w ==> FoldingWord(inputs[v], next[v], k, j as int - 1, Kept(Half(j)))
    {
      assert FoldingWord(inputs[w], values[w], k, j, n);
      FoldOpens(values[w], n, Half(j), Kept(Half(j)), masks(w));
      FoldNext(values[w].Open(), j);
      next := next + [FoldShared(values[w], Half(j), Kept(Half(j)), masks(w))];
    }
  }

  lemma HalfOf(j: nat)
    ensures Kept(Half(j)) >= 8 && (j > 0 ==> Half(j) == 2 * Half(j - 1) && Kept(Half(j)) >= 2 * Half(j - 1))
    ensures Half(j) >= 8 ==> Kept(Half(j)) == Half(j)
    ensures Half(j) < 8 ==> Kept(Half(j)) == 8
  {
  }

  lemma FoldNext(x: Bits, j: nat)
    requires |x| >= 2 * Half(j) && |x| >= 8
    ensures Kept(Half(j)) <= |x| && (j > 0 ==> Kept(Half(j)) >= Half(j - 1))
    ensures FoldAll(x, j) == if j == 0 then Fold(x, 1, Kept(1)) else FoldAll(Fold(x, Half(j), Kept(Half(j))), j - 1)
    ensures j == 0 ==> Half(0) == 1
  {
  }

  /** `is_zero_many` on words of `2^(k+1)` bits: for all masks, every found bit says whether its word is zero. */
  method IsZeroMany(inputs: seq<Shared>, k: nat, masks: (nat, nat) -> Shared) returns (found: seq<Shared>)
    requires 2 * Half(k) >= 8 && forall w {:trigger inputs[w]} :: 0 <= w < |inputs| ==> inputs[w].Sized(2 * Half(k))
    requires forall j: nat, w: nat {:trigger masks(j, w)} :: masks(j, w).Sized(Kept(Half(j)))
    ensures |found| == |inputs| && forall w {:trigger found[w]} :: 0 <= w < |inputs| ==> Decides(found[w], inputs[w])
  {
    var values := NotMany(inputs, k);
    ghost var n: nat := 2 * Half(k);
    hide Folding, FoldingWord, Half, Kept, Decides;
    var j: int := k;
    while j >= 0
      invariant -1 <= j <= k && Folding(inputs, values, k, j, n)
    {
      var stage: nat := j;
      values := FoldStageMany(values, stage, (w: nat) => masks(stage, w), inputs, k, n);
      n, j := Kept(Half(stage)), j - 1;
    }
    found := LowBits(inputs, values, k, n);
  }

  method NotMany(inputs: seq<Shared>, k: nat) returns (values: seq<Shared>)
    requires 2 * Half(k) >= 8 && forall w {:trigger inputs[w]} :: 0 <= w < |inputs| ==> inputs[w].Sized(2 * Half(k))
    ensures Folding(inputs, values, k, k, 2 * Half(k))
  {
    values := [];
    hide FoldAll, Half;
    for w := 0 to |inputs|
      invariant |values| == w && forall v {:trigger values[v]} :: 0 <= v < w ==> FoldingWord(inputs[v], values[v], k, k, 2 * Half(k))
    {
      NotOpens(inputs[w], 2 * Half(k));
      values := values + [NotShared(inputs[w])];
    }
  }

  /** The bit opens to whether the word opens to zero. */
  ghost predicate Decides(found: Shared, word: Shared) {
    |word.x0| == |word.x1| == |word.x2| && Flag(found, IsZero(word.Open()))
  }

  method LowBits(ghost inputs: seq<Shared>, values: seq<Shared>, ghost k: nat, ghost n: nat) returns (found: seq<Shared>)
    requires Folding(inputs, values, k, -1, n)
    ensures |found| == |inputs| && forall w {:trigger found[w]} :: 0 <= w < |inputs| ==> Decides(found[w], inputs[w])
  {
    found := [];
    hide FoldAll, Half, Flag, IsZero, LowBit, AllSet, Not, NotShared;
    for w := 0 to |values|
      invariant |found| == w && forall v {:trigger found[v]} :: 0 <= v < w ==> Decides(found[v], inputs[v])
    {
      assert FoldingWord(inputs[w], values[w], k, -1, n);
      LowBitOpens(values[w]);
      NotZero(inputs[w].Open(), k);
      found := found + [LowBit(values[w])];
    }
  }

  lemma NotZero(x: Bits, k: nat)
    requires |x| == 2 * Half(k) && |x| >= 8
    ensures FoldAll(Not(x), k)[0] <==> IsZero(x)
  {
    FoldDecides(Not(x), k);
    hide FoldAll, Half;
    if LowSet(Not(x), |x|) { forall i | 0 <= i < |x| ensures !x[i] { assert Not(x)[i]; } }
  }

  // ------------------------------------------------- the schedule over bytes

  /** The bytes of a 32-bit word. */
  function Bytes(x: Bits): (b: seq<Bits>)
    requires |x| == 32
    ensures |b| == 4 && forall j :: 0 <= j < 4 ==> |b[j]| == 8
  {
    [x[..8], x[8..16], x[16..24], x[24..]]
  }

  /** The products of the first three rounds and of the later ones, on one word's bytes. */
  function Schedule(b: seq<Bits>): (r: bool)
    requires |b| == 4 && |b[0]| == |b[1]| == |b[2]| == |b[3]| == 8
  {
    var (p, q) := (And(b[0], b[1]), And(b[2], b[3]));
    var v2 := And(p, q);
    var v3 := And(v2, ShiftRight(v2, 4));
    var v4 := And(v3, ShiftRight(v3, 2));
    And(v4, ShiftRight(v4, 1))[0]
  }

  /** The last three products fold a byte. */
  lemma ByteFolds(v2: Bits)
    requires |v2| == 8
    ensures var v3 := And(v2, ShiftRight(v2, 4));
      var v4 := And(v3, ShiftRight(v3, 2));
      And(v4, ShiftRight(v4, 1))[0] <==> AllSet(v2)
  {
    var v3 := And(v2, ShiftRight(v2, 4));
    var v4 := And(v3, ShiftRight(v3, 2));
    assert v3[0] == (v2[0] && v2[4]) && v3[1] == (v2[1] && v2[5]) && v3[2] == (v2[2] && v2[6]) && v3[3] == (v2[3] && v2[7]);
    assert v4[0] == (v3[0] && v3[2]) && v4[1] == (v3[1] && v3[3]);
    assert And(v4, ShiftRight(v4, 1))[0] == (v4[0] && v4[1]);
  }

  /** After five rounds the found bit says whether all 32 bits were set. */
  lemma ScheduleDecides(x: Bits)
    requires |x| == 32
    ensures Schedule(Bytes(x)) <==> AllSet(x)
  {
    var b := Bytes(x);
    var v2 := And(And(b[0], b[1]), And(b[2], b[3]));
    hide *;
    ByteFolds(v2);
    forall i: nat {:trigger v2[i]} | i < 8 ensures v2[i] == (x[i] && x[8 + i] && x[16 + i] && x[24 + i]) { ByteProduct(x, i); }
    AllOfBytes(x, v2);
    ScheduleIs(b);
  }

  lemma ScheduleIs(b: seq<Bits>)
    requires |b| == 4 && |b[0]| == |b[1]| == |b[2]| == |b[3]| == 8
    ensures var v2 := And(And(b[0], b[1]), And(b[2], b[3]));
      var v3 := And(v2, ShiftRight(v2, 4));
      var v4 := And(v3, ShiftRight(v3, 2));
      Schedule(b) == And(v4, ShiftRight(v4, 1))[0]
  {
    hide And, ShiftRight;
  }

  lemma AllOfBytes(x: Bits, v2: Bits)
    requires |x| == 32 && |v2| == 8 && forall i: nat {:trigger v2[i]} :: i < 8 ==> v2[i] == (x[i] && x[8 + i] && x[16 + i] && x[24 + i])
    ensures AllSet(v2) <==> AllSet(x)
  {
    if AllSet(v2) {
      forall i | 0 <= i < 32 ensures x[i] {
        var k: nat := if i < 8 then i else if i < 16 then i - 8 else if i < 24 then i - 16 else i - 24;
        assert v2[k] && v2[k] == (x[k] && x[8 + k] && x[16 + k] && x[24 + k]);
      }
    }
  }

  lemma ByteProduct(x: Bits, i: nat)
    requires |x| == 32 && i < 8
    ensures var b := Bytes(x); And(And(b[0], b[1]), And(b[2], b[3]))[i] == (x[i] && x[8 + i] && x[16 + i] && x[24 + i])
  {
  }

  /** The fused schedule and the fold compute the same bit. */
  lemma FusedAgrees(x: Bits)
    requires |x| == 32
    ensures Schedule(Bytes(Not(x))) == FoldAll(Not(x), 4)[0]
    ensures Schedule(Bytes(Not(x))) <==> IsZero(x)
  {
    ScheduleDecides(Not(x));
    assert Half(4) == 16;
    FoldDecides(Not(x), 4);
    if AllSet(Not(x)) { forall i | 0 <= i < 32 ensures !x[i] { assert Not(x)[i]; } }
  }
}
