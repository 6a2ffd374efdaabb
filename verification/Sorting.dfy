/** The oblivious stable sort on shares: dummies to the end, otherwise in order. */
module Sorting {
  import opened Words
  import opened Permutations
  import opened Shares

  // ----------------------------------------------------- the ring of 32-bit words

  /** A wrapped 32-bit result. */
  function W(x: int): (r: nat) ensures r < TWO32 { x % TWO32 }

  lemma WrapAdd(x: int, y: int)
    ensures W(W(x) + y) == W(x + y) && W(x + W(y)) == W(x + y) && W(W(x) + W(y)) == W(x + y)
  {
  }

  lemma WrapTimes(x: int, k: int)
    ensures W(x + TWO32 * k) == W(x)
  {
  }

  /** How often `x` wraps around. */
  function Q(x: int): int { x / TWO32 }

  lemma Split(x: int)
    ensures x == TWO32 * Q(x) + W(x)
  {
  }

  lemma Same(x: int, y: int, k: int)
    requires x == y + TWO32 * k
    ensures W(x) == W(y)
  {
    WrapTimes(y, k);
  }

  lemma WrapMul(x: int, y: int)
    ensures W(W(x) * W(y)) == W(x * y)
  {
    var p, q := x / TWO32, y / TWO32;
    var k := p * W(y) + q * W(x) + TWO32 * p * q;
    assert x == TWO32 * p + W(x) && y == TWO32 * q + W(y);
    Expand(TWO32, p, W(x), q, W(y));
    WrapTimes(W(x) * W(y), k);
  }

  lemma Expand(m: int, p: int, a: int, q: int, b: int)
    ensures (m * p + a) * (m * q + b) == a * b + m * (p * b + q * a + m * p * q)
  {
    assert (m * p + a) * (m * q + b) == (m * p) * (m * q) + (m * p) * b + a * (m * q) + a * b;
    assert (m * p) * (m * q) == m * (m * p * q);
    assert (m * p) * b == m * (p * b) && a * (m * q) == m * (q * a);
  }

  /** What an additively shared column holds at `k`. */
  ghost function SumAt(c: Column, n: nat, k: nat): (r: nat)
    requires Sized(c, n) && k < n
  {
    W(c[0][k].a + c[1][k].a + c[2][k].a)
  }

  function AddShare(s: Share, t: Share): Share { Share(W(s.a + t.a), W(s.b + t.b)) }

  function NegShare(s: Share): Share { Share(W(0 - s.a), W(0 - s.b)) }

  /** `add_public`: the first component grows, at the two parties that hold it. */
  function AddPublic(s: Share, v: nat, id: nat): Share {
    Share(if id == 0 then W(s.a + v) else s.a, if id == 1 then W(s.b + v) else s.b)
  }

  /** One party's term of a product of two shared values. */
  function LocalMul(s: Share, t: Share): nat { W(s.a * t.a + s.a * t.b + s.b * t.a) }

  lemma LocalMulSums(x0: nat, x1: nat, x2: nat, y0: nat, y1: nat, y2: nat)
    ensures W(LocalMul(Share(x0, x2), Share(y0, y2)) + LocalMul(Share(x1, x0), Share(y1, y0)) + LocalMul(Share(x2, x1), Share(y2, y1)))
         == W(W(x0 + x1 + x2) * W(y0 + y1 + y2))
  {
    var a := x0 * y0 + x0 * y2 + x2 * y0;
    var b := x1 * y1 + x1 * y0 + x0 * y1;
    var c := x2 * y2 + x2 * y1 + x1 * y2;
    Square(x0, x1, x2, y0, y1, y2);
    WrapAdd(a, b);
    WrapAdd(a + b, c);
    WrapMul(x0 + x1 + x2, y0 + y1 + y2);
    assert W(W(a) + W(b) + W(c)) == W(a + b + c) by { WrapThree(a, b, c); }
  }

  lemma WrapThree(a: int, b: int, c: int)
    ensures W(W(a) + W(b) + W(c)) == W(a + b + c)
  {
    hide W, Q;
    Split(a);
    Split(b);
    Split(c);
    Same(a + b + c, W(a) + W(b) + W(c), Q(a) + Q(b) + Q(c));
  }

  lemma Square(x0: nat, x1: nat, x2: nat, y0: nat, y1: nat, y2: nat)
    ensures (x0 + x1 + x2) * (y0 + y1 + y2)
         == (x0 * y0 + x0 * y2 + x2 * y0) + (x1 * y1 + x1 * y0 + x0 * y1) + (x2 * y2 + x2 * y1 + x1 * y2)
  {
    var y := y0 + y1 + y2;
    assert (x0 + x1 + x2) * y == x0 * y + x1 * y + x2 * y;
    assert x0 * y == x0 * y0 + x0 * y1 + x0 * y2;
    assert x1 * y == x1 * y0 + x1 * y1 + x1 * y2;
    assert x2 * y == x2 * y0 + x2 * y1 + x2 * y2;
  }

  // ------------------------------------------------------- the stable partition

  function Count(flags: seq<bool>, b: bool, k: nat): (r: nat)
    requires k <= |flags|
    ensures r <= k
  {
    if k == 0 then 0 else Count(flags, b, k - 1) + (if flags[k - 1] == b then 1 else 0)
  }

  function Keep<T>(flags: seq<bool>, v: seq<T>, b: bool, k: nat): (r: seq<T>)
    requires k <= |flags| == |v|
    ensures |r| == Count(flags, b, k)
  {
    if k == 0 then [] else Keep(flags, v, b, k - 1) + (if flags[k - 1] == b then [v[k - 1]] else [])
  }

  /** The unflagged values and then the flagged ones, each in order. */
  function Partition<T>(flags: seq<bool>, v: seq<T>): (r: seq<T>)
    requires |flags| == |v|
  {
    Keep(flags, v, false, |v|) + Keep(flags, v, true, |v|)
  }

  /** The 1-based position of row `i` after the sort. */
  function Position(flags: seq<bool>, i: nat): nat
    requires i < |flags|
  {
    if flags[i] then Count(flags, false, |flags|) + Count(flags, true, i + 1) else Count(flags, false, i + 1)
  }

  lemma {:induction false} CountTotal(flags: seq<bool>, k: nat)
    requires k <= |flags|
    ensures Count(flags, false, k) + Count(flags, true, k) == k
  {
    if k > 0 { CountTotal(flags, k - 1); }
  }

  lemma {:induction false} CountGrows(flags: seq<bool>, b: bool, i: nat, k: nat)
    requires i <= k <= |flags|
    ensures Count(flags, b, i) <= Count(flags, b, k)
  {
    if i < k { CountGrows(flags, b, i, k - 1); }
  }

  lemma {:induction false} KeepAt<T>(flags: seq<bool>, v: seq<T>, i: nat, k: nat)
    requires i < k <= |flags| == |v|
    ensures 1 <= Count(flags, flags[i], i + 1) <= Count(flags, flags[i], k)
    ensures Keep(flags, v, flags[i], k)[Count(flags, flags[i], i + 1) - 1] == v[i]
  {
    CountGrows(flags, flags[i], i + 1, k);
    if i < k - 1 { KeepAt(flags, v, i, k - 1); }
  }

  /** Row `i` is where its position says. */
  lemma PartitionAt<T>(flags: seq<bool>, v: seq<T>, i: nat)
    requires i < |flags| == |v|
    ensures |Partition(flags, v)| == |v| && 1 <= Position(flags, i) <= |v|
    ensures Partition(flags, v)[Position(flags, i) - 1] == v[i]
  {
    CountTotal(flags, |v|);
    KeepAt(flags, v, i, |v|);
  }

  lemma {:induction false} KeepFrom(flags: seq<bool>, b: bool, k: nat, q: nat)
    requires k <= |flags| && q < Count(flags, b, k)
    ensures var i := Keep(flags, Identity(|flags|), b, k)[q]; i < k && flags[i] == b && Count(flags, b, i + 1) == q + 1
  {
    if q < Count(flags, b, k - 1) { KeepFrom(flags, b, k - 1, q); }
  }

  /** Every place is some row's position. */
  lemma PositionOnto(flags: seq<bool>, q: nat) returns (i: nat)
    requires q < |flags|
    ensures i < |flags| && Position(flags, i) == q + 1
  {
    var n, zeros := |flags|, Count(flags, false, |flags|);
    CountTotal(flags, n);
    if q < zeros {
      KeepFrom(flags, false, n, q);
      i := Keep(flags, Identity(n), false, n)[q];
    } else {
      KeepFrom(flags, true, n, q - zeros);
      i := Keep(flags, Identity(n), true, n)[q - zeros];
    }
  }

  lemma PositionDistinct(flags: seq<bool>, i: nat, j: nat)
    requires i < |flags| && j < |flags| && Position(flags, i) == Position(flags, j)
    ensures i == j
  {
    PartitionAt(flags, Identity(|flags|), i);
    PartitionAt(flags, Identity(|flags|), j);
  }

  // ------------------------------------------------------- the sort permutation

  /** One minus a shared bit. */
  function ZeroShare(s: Share, id: nat): Share { AddPublic(NegShare(s), 1, id) }

  function ZeroSum(id: nat, bits: seq<Share>, k: nat): Share
    requires k <= |bits|
  {
    if k == 0 then Share(0, 0) else AddShare(ZeroSum(id, bits, k - 1), ZeroShare(bits[k - 1], id))
  }

  /** The running sum goes on over the bits after all their complements. */
  function OneSum(id: nat, bits: seq<Share>, k: nat): Share
    requires k <= |bits|
  {
    if k == 0 then ZeroSum(id, bits, |bits|) else AddShare(OneSum(id, bits, k - 1), bits[k - 1])
  }

  /** One party's term of position `k`, with its two masks. */
  function PositionTerm(id: nat, bits: seq<Share>, k: nat, maskZero: nat, maskOne: nat): nat
    requires k < |bits|
  {
    W(W(LocalMul(ZeroShare(bits[k], id), ZeroSum(id, bits, k + 1)) + maskZero)
      + W(LocalMul(bits[k], OneSum(id, bits, k + 1)) + maskOne))
  }

  /** `gen_bit_perm` at one party, up to the exchange. */
  method GenBitPermAt(id: nat, bits: seq<Share>, maskZero: seq<nat>, maskOne: seq<nat>) returns (local: seq<nat>)
    requires |maskZero| == |maskOne| == |bits|
    ensures |local| == |bits|
    ensures forall k :: 0 <= k < |bits| ==> local[k] == PositionTerm(id, bits, k, maskZero[k], maskOne[k])
  {
    hide LocalMul, AddShare, ZeroShare, W, AddPublic, NegShare;
    var sum := Share(0, 0);
    var zeros, zeroCounts, oneCounts := [], [], [];
    for k := 0 to |bits|
      invariant |zeros| == |zeroCounts| == k && sum == ZeroSum(id, bits, k)
      invariant forall j {:trigger zeros[j]} {:trigger zeroCounts[j]} :: 0 <= j < k ==> zeros[j] == ZeroShare(bits[j], id) && zeroCounts[j] == ZeroSum(id, bits, j + 1)
    {
      zeros := zeros + [ZeroShare(bits[k], id)];
      sum := AddShare(sum, zeros[k]);
      zeroCounts := zeroCounts + [sum];
    }
    for k := 0 to |bits|
      invariant |oneCounts| == k && sum == OneSum(id, bits, k)
      invariant forall j {:trigger oneCounts[j]} :: 0 <= j < k ==> oneCounts[j] == OneSum(id, bits, j + 1)
    {
      sum := AddShare(sum, bits[k]);
      oneCounts := oneCounts + [sum];
    }
    local := seq(|bits|, k requires 0 <= k < |bits| =>
      W(W(LocalMul(zeros[k], zeroCounts[k]) + maskZero[k]) + W(LocalMul(bits[k], oneCounts[k]) + maskOne[k])));
  }

  /** The column opens, as a sum, to the flags. */
  ghost predicate OpensTo(c: Column, n: nat, flags: seq<bool>) {
    Valid(c, n) && |flags| == n && forall k :: 0 <= k < n ==> SumAt(c, n, k) == if flags[k] then 1 else 0
  }

  /** The three parties' running sums agree and add up to the count of unflagged rows. */
  lemma {:induction false} ZeroSums(c: Column, n: nat, flags: seq<bool>, k: nat)
    requires OpensTo(c, n, flags) && k <= n
    ensures var x, y, z := ZeroSum(0, c[0], k), ZeroSum(1, c[1], k), ZeroSum(2, c[2], k);
      x.b == z.a && y.b == x.a && z.b == y.a && W(x.a + y.a + z.a) == W(Count(flags, false, k))
  {
    hide W, ZeroShare, OpensTo, AddShare;
    OpenSizes(c, n, flags);
    if k > 0 {
      ZeroSums(c, n, flags, k - 1);
      ZerosOpen(c, n, flags, k - 1);
      AddedSums(ZeroSum(0, c[0], k - 1), ZeroSum(1, c[1], k - 1), ZeroSum(2, c[2], k - 1),
                ZeroShare(c[0][k - 1], 0), ZeroShare(c[1][k - 1], 1), ZeroShare(c[2][k - 1], 2));
      WrapAdd(Count(flags, false, k - 1), if flags[k - 1] then 0 else 1);
      SmallWrap();
    }
  }

  lemma SmallWrap()
    ensures W(0) == 0 && W(1) == 1
  {
  }

  /** Adding replicated shares adds the values. */
  lemma AddedSums(s0: Share, s1: Share, s2: Share, t0: Share, t1: Share, t2: Share)
    requires s0.b == s2.a && s1.b == s0.a && s2.b == s1.a && t0.b == t2.a && t1.b == t0.a && t2.b == t1.a
    ensures var x, y, z := AddShare(s0, t0), AddShare(s1, t1), AddShare(s2, t2);
      && x.b == z.a && y.b == x.a && z.b == y.a
      && W(x.a + y.a + z.a) == W(W(s0.a + s1.a + s2.a) + W(t0.a + t1.a + t2.a))
  {
    hide W;
    SumAdd(s0.a, s1.a, s2.a, t0.a, t1.a, t2.a);
  }

  lemma OneMinus(a: nat, b: nat, c: nat)
    ensures W(W(W(0 - a) + 1) + W(0 - b) + W(0 - c)) == W(1 - W(a + b + c))
  {
    hide W, Q;
    Split(0 - a);
    Split(0 - b);
    Split(0 - c);
    Split(W(0 - a) + 1);
    Split(a + b + c);
    Same(W(W(0 - a) + 1) + W(0 - b) + W(0 - c), 1 - W(a + b + c), 0 - Q(W(0 - a) + 1) - Q(0 - a) - Q(0 - b) - Q(0 - c) - Q(a + b + c));
  }

  lemma SumAdd(x: nat, y: nat, z: nat, a: nat, b: nat, c: nat)
    ensures W(W(x + a) + W(y + b) + W(z + c)) == W(W(x + y + z) + W(a + b + c))
  {
    hide W, Q;
    Split(x + a);
    Split(y + b);
    Split(z + c);
    Split(x + y + z);
    Split(a + b + c);
    Same(W(x + a) + W(y + b) + W(z + c), W(x + y + z) + W(a + b + c), Q(x + y + z) + Q(a + b + c) - Q(x + a) - Q(y + b) - Q(z + c));
  }

  lemma OpenSizes(c: Column, n: nat, flags: seq<bool>)
    requires OpensTo(c, n, flags)
    ensures Valid(c, n) && |c| == 3 && |c[0]| == |c[1]| == |c[2]| == n == |flags|
  {
  }

  lemma FlagAt(c: Column, n: nat, flags: seq<bool>, k: nat)
    requires OpensTo(c, n, flags) && k < n
    ensures c[0][k].b == c[2][k].a && c[1][k].b == c[0][k].a && c[2][k].b == c[1][k].a
    ensures W(c[0][k].a + c[1][k].a + c[2][k].a) == if flags[k] then 1 else 0
  {
    assert SumAt(c, n, k) == if flags[k] then 1 else 0;
  }

  lemma {:induction false} OneSums(c: Column, n: nat, flags: seq<bool>, k: nat)
    requires OpensTo(c, n, flags) && k <= n
    ensures var x, y, z := OneSum(0, c[0], k), OneSum(1, c[1], k), OneSum(2, c[2], k);
      && x.b == z.a && y.b == x.a && z.b == y.a
      && W(x.a + y.a + z.a) == W(Count(flags, false, n) + Count(flags, true, k))
  {
    hide W, OpensTo, AddShare, ZeroSum;
    OpenSizes(c, n, flags);
    if k == 0 {
      ZeroSums(c, n, flags, n);
    } else {
      OneSums(c, n, flags, k - 1);
      FlagAt(c, n, flags, k - 1);
      AddedSums(OneSum(0, c[0], k - 1), OneSum(1, c[1], k - 1), OneSum(2, c[2], k - 1), c[0][k - 1], c[1][k - 1], c[2][k - 1]);
      WrapAdd(Count(flags, false, n) + Count(flags, true, k - 1), if flags[k - 1] then 1 else 0);
      SmallWrap();
    }
  }

  /** The complements open to the other flags. */
  lemma ZerosOpen(c: Column, n: nat, flags: seq<bool>, k: nat)
    requires OpensTo(c, n, flags) && k < n
    ensures var x, y, z := ZeroShare(c[0][k], 0), ZeroShare(c[1][k], 1), ZeroShare(c[2][k], 2);
      x.b == z.a && y.b == x.a && z.b == y.a && W(x.a + y.a + z.a) == if flags[k] then 0 else 1
  {
    FlagAt(c, n, flags, k);
    OneMinus(c[0][k].a, c[1][k].a, c[2][k].a);
    SmallWrap();
    assert W(1 - W(c[0][k].a + c[1][k].a + c[2][k].a)) == if flags[k] then 0 else 1;
    hide W, OpensTo;
  }

  /** Masks that neighbours draw together and that add up to nothing. */
  function Mask(draws: seq<seq<nat>>, n: nat, id: nat, k: nat): nat
    requires Sized(draws, n) && id < 3 && k < n
  {
    W(draws[id][k] as int - draws[Prev(id)][k])
  }

  function MaskRow(draws: seq<seq<nat>>, n: nat, id: nat): (r: seq<nat>)
    requires Sized(draws, n) && id < 3
    ensures |r| == n
  {
    seq(n, k requires 0 <= k < n => Mask(draws, n, id, k))
  }

  lemma MasksVanish(draws: seq<seq<nat>>, n: nat, k: nat, x: nat, y: nat, z: nat)
    requires Sized(draws, n) && k < n
    ensures W(W(x + Mask(draws, n, 0, k)) + W(y + Mask(draws, n, 1, k)) + W(z + Mask(draws, n, 2, k))) == W(x + y + z)
  {
    assert Prev(0) == 2 && Prev(1) == 0 && Prev(2) == 1;
    MaskArith(draws[0][k], draws[1][k], draws[2][k], x, y, z);
  }

  lemma MaskArith(r0: nat, r1: nat, r2: nat, x: nat, y: nat, z: nat)
    ensures W(W(x + W(r0 as int - r2)) + W(y + W(r1 as int - r0)) + W(z + W(r2 as int - r1))) == W(x + y + z)
  {
    hide W, Q;
    var d0, d1, d2 := r0 as int - r2, r1 as int - r0, r2 as int - r1;
    Split(d0);
    Split(d1);
    Split(d2);
    Split(x + W(d0));
    Split(y + W(d1));
    Split(z + W(d2));
    Same(x + y + z, W(x + W(d0)) + W(y + W(d1)) + W(z + W(d2)), Q(x + W(d0)) + Q(y + W(d1)) + Q(z + W(d2)) + Q(d0) + Q(d1) + Q(d2));
  }

  /** `gen_bit_perm`: for all masks, a valid sharing of every row's 1-based position. */
  method GenBitPerm(bits: Column, ghost n: nat, ghost flags: seq<bool>, zeroDraws: seq<seq<nat>>, oneDraws: seq<seq<nat>>) returns (c: Column)
    requires OpensTo(bits, n, flags) && Sized(zeroDraws, n) && Sized(oneDraws, n) && n < TWO32
    ensures Valid(c, n) && forall k :: 0 <= k < n ==> SumAt(c, n, k) == Position(flags, k)
  {
    var m := |bits[0]|;
    var x := GenBitPermAt(0, bits[0], MaskRow(zeroDraws, m, 0), MaskRow(oneDraws, m, 0));
    var y := GenBitPermAt(1, bits[1], MaskRow(zeroDraws, m, 1), MaskRow(oneDraws, m, 1));
    var z := GenBitPermAt(2, bits[2], MaskRow(zeroDraws, m, 2), MaskRow(oneDraws, m, 2));
    c := Replicated(x, y, z);
    forall k | 0 <= k < n ensures SumAt(c, n, k) == Position(flags, k) {
      PositionOpens(bits, n, flags, zeroDraws, oneDraws, k);
    }
  }

  /** `reshare_vec`: each party sends its term to the next one. */
  function Replicated(x: seq<nat>, y: seq<nat>, z: seq<nat>): (c: Column)
    requires |x| == |y| == |z|
    ensures Valid(c, |x|)
    ensures forall k {:trigger c[0][k]} {:trigger c[1][k]} {:trigger c[2][k]} :: 0 <= k < |x| ==> c[0][k].a == x[k] && c[1][k].a == y[k] && c[2][k].a == z[k]
  {
    [seq(|x|, k requires 0 <= k < |x| => Share(x[k], z[k])),
     seq(|x|, k requires 0 <= k < |x| => Share(y[k], x[k])),
     seq(|x|, k requires 0 <= k < |x| => Share(z[k], y[k]))]
  }

  lemma PositionOpens(c: Column, n: nat, flags: seq<bool>, zd: seq<seq<nat>>, od: seq<seq<nat>>, k: nat)
    requires OpensTo(c, n, flags) && Sized(zd, n) && Sized(od, n) && n < TWO32 && k < n
    ensures W(PositionTerm(0, c[0], k, Mask(zd, n, 0, k), Mask(od, n, 0, k))
              + PositionTerm(1, c[1], k, Mask(zd, n, 1, k), Mask(od, n, 1, k))
              + PositionTerm(2, c[2], k, Mask(zd, n, 2, k), Mask(od, n, 2, k))) == Position(flags, k)
  {
    hide W, LocalMul, ZeroSum, OneSum, ZeroShare, PositionTerm, Position, Count, Mask, OpensTo, Valid;
    OpenSizes(c, n, flags);
    ZerosOpen(c, n, flags, k);
    ZeroSums(c, n, flags, k + 1);
    OneSums(c, n, flags, k + 1);
    FlagAt(c, n, flags, k);
    ProductSums(ZeroShare(c[0][k], 0), ZeroShare(c[1][k], 1), ZeroShare(c[2][k], 2),
                ZeroSum(0, c[0], k + 1), ZeroSum(1, c[1], k + 1), ZeroSum(2, c[2], k + 1));
    ProductSums(c[0][k], c[1][k], c[2][k], OneSum(0, c[0], k + 1), OneSum(1, c[1], k + 1), OneSum(2, c[2], k + 1));
    TermsSum(c, n, zd, od, k);
    Chosen(flags, k);
  }

  /** The local products of replicated values add up to the product. */
  lemma ProductSums(s0: Share, s1: Share, s2: Share, t0: Share, t1: Share, t2: Share)
    requires s0.b == s2.a && s1.b == s0.a && s2.b == s1.a && t0.b == t2.a && t1.b == t0.a && t2.b == t1.a
    ensures W(LocalMul(s0, t0) + LocalMul(s1, t1) + LocalMul(s2, t2)) == W(W(s0.a + s1.a + s2.a) * W(t0.a + t1.a + t2.a))
  {
    LocalMulSums(s0.a, s1.a, s2.a, t0.a, t1.a, t2.a);
  }

  function ZeroTerm(id: nat, c: Column, n: nat, k: nat): nat
    requires Sized(c, n) && id < 3 && k < n
  {
    LocalMul(ZeroShare(c[id][k], id), ZeroSum(id, c[id], k + 1))
  }

  function OneTerm(id: nat, c: Column, n: nat, k: nat): nat
    requires Sized(c, n) && id < 3 && k < n
  {
    LocalMul(c[id][k], OneSum(id, c[id], k + 1))
  }

  lemma TermsSum(c: Column, n: nat, zd: seq<seq<nat>>, od: seq<seq<nat>>, k: nat)
    requires Sized(c, n) && Sized(zd, n) && Sized(od, n) && k < n
    ensures W(PositionTerm(0, c[0], k, Mask(zd, n, 0, k), Mask(od, n, 0, k))
              + PositionTerm(1, c[1], k, Mask(zd, n, 1, k), Mask(od, n, 1, k))
              + PositionTerm(2, c[2], k, Mask(zd, n, 2, k), Mask(od, n, 2, k)))
         == W(W(ZeroTerm(0, c, n, k) + ZeroTerm(1, c, n, k) + ZeroTerm(2, c, n, k))
              + W(OneTerm(0, c, n, k) + OneTerm(1, c, n, k) + OneTerm(2, c, n, k)))
  {
    hide LocalMul, ZeroSum, OneSum, ZeroShare, W, Mask;
    MasksVanish(zd, n, k, ZeroTerm(0, c, n, k), ZeroTerm(1, c, n, k), ZeroTerm(2, c, n, k));
    MasksVanish(od, n, k, OneTerm(0, c, n, k), OneTerm(1, c, n, k), OneTerm(2, c, n, k));
    SumAdd(W(ZeroTerm(0, c, n, k) + Mask(zd, n, 0, k)), W(ZeroTerm(1, c, n, k) + Mask(zd, n, 1, k)), W(ZeroTerm(2, c, n, k) + Mask(zd, n, 2, k)),
           W(OneTerm(0, c, n, k) + Mask(od, n, 0, k)), W(OneTerm(1, c, n, k) + Mask(od, n, 1, k)), W(OneTerm(2, c, n, k) + Mask(od, n, 2, k)));
  }

  /** Multiplying by the flag and its complement picks the right count. */
  lemma Chosen(flags: seq<bool>, k: nat)
    requires k < |flags| < TWO32
    ensures var zero, one := if flags[k] then 0 else 1, if flags[k] then 1 else 0;
      W(W(zero * W(Count(flags, false, k + 1))) + W(one * W(Count(flags, false, |flags|) + Count(flags, true, k + 1)))) == Position(flags, k)
  {
    CountTotal(flags, |flags|);
    CountGrows(flags, true, k + 1, |flags|);
    Wraps(Count(flags, false, k + 1));
    Wraps(Count(flags, false, |flags|) + Count(flags, true, k + 1));
    SmallWrap();
    Wraps(Position(flags, k));
    hide W;
  }

  lemma Wraps(x: nat)
    requires x < TWO32
    ensures W(x) == x
  {
  }

  // ----------------------------------------------- shuffling rows and positions

  ghost predicate Permutes(a: seq<nat>, n: nat) {
    && |a| == n && Bounded(a, n)
    && (forall i, j {:trigger a[i], a[j]} :: 0 <= i < n && 0 <= j < n && a[i] == a[j] ==> i == j)
    && (forall q: nat {:trigger q in a} :: q < n ==> q in a)
  }

  /** The permutation party `i` shares with its successor. */
  ghost function PermOf(pi: Column, n: nat, i: nat): (a: seq<nat>)
    requires Sized(pi, n) && i < 3
    ensures |a| == n
  {
    seq(n, k requires 0 <= k < n => pi[i][k].a)
  }

  /** Three replicated permutations, one for each pair of neighbours. */
  ghost predicate SharedPerms(pi: Column, n: nat) {
    Valid(pi, n) && Permutes(PermOf(pi, n, 0), n) && Permutes(PermOf(pi, n, 1), n) && Permutes(PermOf(pi, n, 2), n)
  }

  /** The row that ends up at `j`: the first permutation after the third after the second. */
  ghost function Source(pi: Column, n: nat, j: nat): (i: nat)
    requires SharedPerms(pi, n) && j < n
    ensures i < n
  {
    PermOf(pi, n, 0)[PermOf(pi, n, 2)[PermOf(pi, n, 1)[j]]]
  }

  lemma SourceDistinct(pi: Column, n: nat, i: nat, j: nat)
    requires SharedPerms(pi, n) && i < n && j < n && Source(pi, n, i) == Source(pi, n, j)
    ensures i == j
  {
    var a, b, c := PermOf(pi, n, 0), PermOf(pi, n, 1), PermOf(pi, n, 2);
    assert c[b[i]] == c[b[j]] && b[i] == b[j];
  }

  lemma SourceOnto(pi: Column, n: nat, i: nat) returns (j: nat)
    requires SharedPerms(pi, n) && i < n
    ensures j < n && Source(pi, n, j) == i
  {
    var a, b, c := PermOf(pi, n, 0), PermOf(pi, n, 1), PermOf(pi, n, 2);
    assert i in a;
    var x :| 0 <= x < n && a[x] == i;
    assert x in c;
    var y :| 0 <= y < n && c[y] == x;
    assert y in b;
    j :| 0 <= j < n && b[j] == y;
  }

  lemma PiBounded(pi: Column, n: nat)
    requires SharedPerms(pi, n)
    ensures Valid(pi, n) && InBounds(pi[0]) && InBounds(pi[1]) && InBounds(pi[2])
  {
    forall i, k | 0 <= i < 3 && 0 <= k < n ensures pi[i][k].a < n && pi[i][k].b < n {
      assert pi[i][k].a == PermOf(pi, n, i)[k] && pi[i][k].b == PermOf(pi, n, Prev(i))[k];
    }
  }

  ghost predicate InBounds(pi: seq<Share>) {
    forall k {:trigger pi[k]} :: 0 <= k < |pi| ==> pi[k].a < |pi| && pi[k].b < |pi|
  }

  /** Party 0's message of `shuffle_reveal_perm`. */
  method Reveal0(pi: seq<Share>, input: seq<Share>, alpha: seq<nat>) returns (shuffled: seq<nat>)
    requires InBounds(pi) && |input| == |alpha| == |pi|
    ensures |shuffled| == |pi| && forall j :: 0 <= j < |pi| ==> shuffled[j] == W(W(input[pi[j].a].a + input[pi[j].a].b) as int - alpha[j])
  {
    shuffled := [];
    for j := 0 to |pi|
      invariant |shuffled| == j
      invariant forall i :: 0 <= i < j ==> shuffled[i] == W(W(input[pi[i].a].a + input[pi[i].a].b) as int - alpha[i])
    {
      shuffled := shuffled + [W(W(input[pi[j].a].a + input[pi[j].a].b) as int - alpha[j])];
    }
  }

  /** Party 1's message of `shuffle_reveal_perm`. */
  method Reveal1(pi: seq<Share>, input: seq<Share>, alpha: seq<nat>) returns (shuffled: seq<nat>)
    requires InBounds(pi) && |input| == |alpha| == |pi|
    ensures |shuffled| == |pi| && forall j :: 0 <= j < |pi| ==> shuffled[j] == W(input[pi[j].b].a + alpha[j])
  {
    shuffled := [];
    for j := 0 to |pi|
      invariant |shuffled| == j
      invariant forall i :: 0 <= i < j ==> shuffled[i] == W(input[pi[i].b].a + alpha[i])
    {
      shuffled := shuffled + [W(input[pi[j].b].a + alpha[j])];
    }
  }

  /** Party 2 combines both messages; all parties learn the result. */
  method Reveal2(pi: seq<Share>, delta: seq<nat>, gamma: seq<nat>) returns (shuffled: seq<nat>)
    requires InBounds(pi) && |delta| == |gamma| == |pi|
    ensures |shuffled| == |pi| && forall j {:trigger shuffled[j]} :: 0 <= j < |pi| ==> shuffled[j] == W(gamma[pi[pi[j].b].a] + delta[pi[pi[j].b].a])
  {
    hide W;
    shuffled := [];
    for j := 0 to |pi|
      invariant |shuffled| == j
      invariant forall i {:trigger shuffled[i]} :: 0 <= i < j ==> shuffled[i] == W(gamma[pi[pi[i].b].a] + delta[pi[pi[i].b].a])
    {
      shuffled := shuffled + [W(gamma[pi[pi[j].b].a] + delta[pi[pi[j].b].a])];
    }
  }

  lemma RevealSum(x0: nat, x1: nat, x2: nat, alpha: nat)
    ensures W(W(x1 + alpha) + W(W(x0 + x2) as int - alpha)) == W(x0 + x1 + x2)
  {
    hide W, Q;
    Split(x1 + alpha);
    Split(x0 + x2);
    Split(W(x0 + x2) as int - alpha);
    Same(x0 + x1 + x2, W(x1 + alpha) + W(W(x0 + x2) as int - alpha), Q(x1 + alpha) + Q(x0 + x2) + Q(W(x0 + x2) as int - alpha));
  }

  /** `shuffle_reveal_perm`: for all masks, the values open in the order of the three permutations. */
  method ShuffleRevealPerm(pi: Column, input: Column, ghost n: nat, alpha: seq<nat>) returns (shown: seq<nat>)
    requires SharedPerms(pi, n) && Valid(input, n) && |alpha| == n
    ensures |shown| == n && forall j :: 0 <= j < n ==> shown[j] == SumAt(input, n, Source(pi, n, j))
  {
    hide W, SharedPerms, Source;
    PiBounded(pi, n);
    var delta := Reveal0(pi[0], input[0], alpha);
    var gamma := Reveal1(pi[1], input[1], alpha);
    shown := Reveal2(pi[2], delta, gamma);
    forall j | 0 <= j < n ensures shown[j] == SumAt(input, n, Source(pi, n, j)) {
      SourceAt(pi, n, j);
      var x := pi[2][pi[2][j].b].a;
      assert delta[x] == W(W(input[0][pi[0][x].a].a + input[0][pi[0][x].a].b) as int - alpha[x]);
      assert gamma[x] == W(input[1][pi[1][x].b].a + alpha[x]);
      assert shown[j] == W(gamma[x] + delta[x]);
      RevealedAt(input, n, Source(pi, n, j), alpha[x]);
    }
  }

  /** The parties' copies of the three permutations, at one position. */
  lemma SourceAt(pi: Column, n: nat, j: nat)
    requires SharedPerms(pi, n) && j < n
    ensures pi[2][j].b < n && pi[1][j].a == pi[2][j].b
    ensures var y := pi[2][j].b; pi[2][y].a < n && pi[0][y].b == pi[2][y].a
    ensures var x := pi[2][pi[2][j].b].a; pi[0][x].a < n && pi[1][x].b == pi[0][x].a && pi[0][x].a == Source(pi, n, j)
  {
    var a, b, c := PermOf(pi, n, 0), PermOf(pi, n, 1), PermOf(pi, n, 2);
    assert b[j] < n && c[b[j]] < n && a[c[b[j]]] < n;
  }

  lemma RevealedAt(input: Column, n: nat, i: nat, alpha: nat)
    requires Valid(input, n) && i < n
    ensures W(W(input[1][i].a + alpha) + W(W(input[0][i].a + input[0][i].b) as int - alpha)) == SumAt(input, n, i)
  {
    hide W;
    RevealSum(input[0][i].a, input[1][i].a, input[2][i].a, alpha);
    assert input[0][i].b == input[2][i].a;
  }

  /** Party 0's message of `shuffle_rows_many`: the buffer of masks is overwritten by the result. */
  method Rows0(pi: seq<Share>, input: seq<Share>, alpha1: array<Word>, alpha3: seq<Word>) returns (shuffled3: seq<Word>)
    requires InBounds(pi) && |input| == alpha1.Length == |alpha3| == |pi|
    modifies alpha1
    ensures |shuffled3| == |pi|
    ensures forall j {:trigger shuffled3[j]} :: 0 <= j < |pi| ==>
      var i := pi[j].b;
      shuffled3[j] == Xor(Xor(Xor(input[pi[i].a].a, input[pi[i].a].b), old(alpha1[i])), alpha3[j])
  {
    hide Xor;
    var shuffled1 := new Word[|pi|];
    for j := 0 to |pi|
      invariant forall i :: 0 <= i < j ==> shuffled1[i] == Xor(Xor(input[pi[i].a].a, input[pi[i].a].b), alpha1[i])
      invariant alpha1[..] == old(alpha1[..])
    {
      shuffled1[j] := Xor(Xor(input[pi[j].a].a, input[pi[j].a].b), alpha1[j]);
    }
    for j := 0 to |pi|
      invariant forall i :: 0 <= i < |pi| ==> shuffled1[i] == Xor(Xor(input[pi[i].a].a, input[pi[i].a].b), old(alpha1[i]))
      invariant forall i :: 0 <= i < j ==> alpha1[i] == Xor(shuffled1[pi[i].b], alpha3[i])
    {
      alpha1[j] := Xor(shuffled1[pi[j].b], alpha3[j]);
    }
    shuffled3 := alpha1[..];
  }

  /** Party 1's message of `shuffle_rows_many`. */
  method Rows1(pi: seq<Share>, input: seq<Share>, alpha1: seq<Word>) returns (shuffled1: seq<Word>)
    requires InBounds(pi) && |input| == |alpha1| == |pi|
    ensures |shuffled1| == |pi| && forall j {:trigger shuffled1[j]} :: 0 <= j < |pi| ==> shuffled1[j] == Xor(input[pi[j].b].a, alpha1[j])
  {
    shuffled1 := [];
    for j := 0 to |pi|
      invariant |shuffled1| == j && forall i :: 0 <= i < j ==> shuffled1[i] == Xor(input[pi[i].b].a, alpha1[i])
    {
      shuffled1 := shuffled1 + [Xor(input[pi[j].b].a, alpha1[j])];
    }
  }

  /** Party 2 applies the other two permutations to party 1's message. */
  method Rows2(pi: seq<Share>, gamma: seq<Word>, alpha3: array<Word>) returns (beta: seq<Word>)
    requires InBounds(pi) && |gamma| == alpha3.Length == |pi|
    modifies alpha3
    ensures |beta| == |pi| && forall j {:trigger beta[j]} :: 0 <= j < |pi| ==> beta[j] == Xor(gamma[pi[pi[j].b].a], old(alpha3[pi[j].b]))
  {
    hide Xor;
    var shuffled1 := new Word[|pi|];
    for j := 0 to |pi|
      invariant forall i :: 0 <= i < j ==> shuffled1[i] == Xor(gamma[pi[i].a], alpha3[i])
      invariant alpha3[..] == old(alpha3[..])
    {
      shuffled1[j] := Xor(gamma[pi[j].a], alpha3[j]);
    }
    for j := 0 to |pi|
      invariant forall i :: 0 <= i < |pi| ==> shuffled1[i] == Xor(gamma[pi[i].a], old(alpha3[i]))
      invariant forall i :: 0 <= i < j ==> alpha3[i] == shuffled1[pi[i].b]
    {
      alpha3[j] := shuffled1[pi[j].b];
    }
    beta := alpha3[..];
  }

  lemma RowSum(x0: Word, x1: Word, x2: Word, a1: Word, a3: Word)
    ensures Xor(Xor(Xor(Xor(x0, x2), a1), a3), Xor(Xor(x1, a1), a3)) == Xor3(x0, x1, x2)
  {
    hide Xor;
    Swap4(Xor(Xor(x0, x2), a1), a3, Xor(x1, a1), a3);
    XorSelf(a3);
    Swap4(Xor(x0, x2), a1, x1, a1);
    XorSelf(a1);
    Rotations(x0, x1, x2);
  }

  /** The new masks `s` and `t` vanish from the re-replicated rows. */
  lemma Remasked(s: Word, t: Word, x: Word, y: Word)
    ensures Xor3(s, Xor(Xor(y, t), Xor(x, s)), t) == Xor(x, y)
  {
    hide Xor;
    var m := Xor(Xor(y, t), Xor(x, s));
    Rotations(s, m, t);
    XorComm(m, Xor(s, t));
    XorComm(s, t);
    Swap4(y, t, x, s);
    XorAssoc(Xor(y, x), Xor(t, s), Xor(s, t));
    XorSelf(Xor(t, s));
    XorComm(y, x);
    XorComm(Xor(s, t), m);
    assert Xor3(s, m, t) == Xor(Xor(s, t), m);
  }

  /** What parties 0 and 2 send each other at the end: each row's two halves under two common masks. */
  method RowMessages(pi: Column, input: Column, ghost n: nat, alpha1: seq<Word>, alpha3: seq<Word>) returns (beta1: seq<Word>, beta2: seq<Word>)
    requires SharedPerms(pi, n) && Valid(input, n) && |alpha1| == |alpha3| == n
    ensures |beta1| == |beta2| == n
    ensures forall j: nat {:trigger beta1[j]} {:trigger beta2[j]} :: j < n ==> Masks(pi, input, n, j, alpha1, alpha3, beta1[j], beta2[j])
  {
    hide Xor;
    PiBounded(pi, n);
    hide Permutes;
    var buffer1 := new Word[|alpha1|](i requires 0 <= i < |alpha1| => alpha1[i]);
    var buffer3 := new Word[|alpha3|](i requires 0 <= i < |alpha3| => alpha3[i]);
    var delta := Rows0(pi[0], input[0], buffer1, alpha3);
    var gamma := Rows1(pi[1], input[1], alpha1);
    beta1 := seq(|alpha1|, j requires 0 <= j < n => delta[pi[1][j].a]);
    beta2 := Rows2(pi[2], gamma, buffer3);
    forall j: nat {:trigger beta1[j]} {:trigger beta2[j]} | j < n ensures Masks(pi, input, n, j, alpha1, alpha3, beta1[j], beta2[j]) {
      SourceAt(pi, n, j);
      hide Source;
      assert beta1[j] == delta[pi[2][j].b];
    }
  }

  /** `shuffle_rows_many` on one row set: for all masks, a valid sharing of the rows in the order of the
      three permutations, the same order as the revealed positions. */
  method ShuffleRows(pi: Column, input: Column, ghost n: nat, alpha1: seq<Word>, alpha3: seq<Word>, s: seq<Word>, t: seq<Word>) returns (c: Column)
    requires SharedPerms(pi, n) && Valid(input, n) && |alpha1| == |alpha3| == |s| == |t| == n
    ensures Valid(c, n) && forall j :: 0 <= j < n ==> Open(c, n)[j] == Open(input, n)[Source(pi, n, j)]
  {
    hide Xor, Masks, Permutes;
    var beta1, beta2 := RowMessages(pi, input, n, alpha1, alpha3);
    var rand1 := Xored(beta1, s);
    var rand2 := Xored(beta2, t);
    c := [seq(|s|, j requires 0 <= j < n => Share(s[j], t[j])),
          seq(|s|, j requires 0 <= j < n => Share(Xor(rand2[j], rand1[j]), s[j])),
          seq(|s|, j requires 0 <= j < n => Share(t[j], Xor(rand2[j], rand1[j])))];
    hide Source;
    forall j: nat | j < n ensures Open(c, n)[j] == Open(input, n)[Source(pi, n, j)] {
      Unmasks(pi, input, n, j, alpha1, alpha3, beta1[j], beta2[j], s[j], t[j]);
    }
  }

  /** The two parties' messages for row `j` are the row's components under the same two masks. */
  ghost predicate Masks(pi: Column, input: Column, n: nat, j: nat, alpha1: seq<Word>, alpha3: seq<Word>, b1: Word, b2: Word)
    requires SharedPerms(pi, n) && Sized(input, n) && j < n
  {
    var i, y := Source(pi, n, j), pi[2][j].b;
    && y < n && pi[2][y].a < n && y < |alpha3| && pi[2][y].a < |alpha1|
    && b1 == Xor(Xor(Xor(input[0][i].a, input[0][i].b), alpha1[pi[2][y].a]), alpha3[y])
    && b2 == Xor(Xor(input[1][i].a, alpha1[pi[2][y].a]), alpha3[y])
  }

  lemma Unmasks(pi: Column, input: Column, n: nat, j: nat, alpha1: seq<Word>, alpha3: seq<Word>, b1: Word, b2: Word, s: Word, t: Word)
    requires SharedPerms(pi, n) && Valid(input, n) && j < n && Masks(pi, input, n, j, alpha1, alpha3, b1, b2)
    ensures Xor3(s, Xor(Xor(b2, t), Xor(b1, s)), t) == Open(input, n)[Source(pi, n, j)]
  {
    hide Xor, Source, Permutes;
    var i, y := Source(pi, n, j), pi[2][j].b;
    assert input[0][i].b == input[2][i].a;
    RowSum(input[0][i].a, input[1][i].a, input[2][i].a, alpha1[pi[2][y].a], alpha3[y]);
    Remasked(s, t, b1, b2);
  }

  // ------------------------------------------------------------------ the sort

  /** Where shuffled row `j` belongs. */
  ghost predicate Placing(shown: seq<nat>, n: nat) {
    && |shown| == n
    && (forall j {:trigger shown[j]} :: 0 <= j < n ==> 1 <= shown[j] <= n)
    && (forall i, j {:trigger shown[i], shown[j]} :: 0 <= i < n && 0 <= j < n && shown[i] == shown[j] ==> i == j)
  }

  /** One party puts its shuffled shares where the revealed positions say. */
  method PlaceRows(shown: seq<nat>, shuffled: seq<Share>) returns (result: seq<Share>)
    requires Placing(shown, |shuffled|)
    ensures |result| == |shuffled| && forall j {:trigger shown[j]} :: 0 <= j < |shown| ==> result[shown[j] - 1] == shuffled[j]
  {
    var buffer := new Share[|shuffled|](_ => Share(0, 0));
    for j := 0 to |shuffled|
      invariant forall i {:trigger shown[i]} :: 0 <= i < j ==> buffer[shown[i] - 1] == shuffled[i]
    {
      buffer[shown[j] - 1] := shuffled[j];
    }
    result := buffer[..];
  }

  ghost predicate RevealsPositions(pi: Column, n: nat, flags: seq<bool>, shown: seq<nat>) {
    && SharedPerms(pi, n) && |flags| == n && |shown| == n
    && forall j {:trigger shown[j]} :: 0 <= j < n ==> shown[j] == Position(flags, Source(pi, n, j))
  }

  lemma PositionsPlace(pi: Column, n: nat, flags: seq<bool>, shown: seq<nat>)
    requires RevealsPositions(pi, n, flags, shown)
    ensures Placing(shown, n)
  {
    hide Position, Source, SharedPerms;
    forall j {:trigger shown[j]} | 0 <= j < n ensures 1 <= shown[j] <= n {
      PartitionAt(flags, flags, Source(pi, n, j));
    }
    forall i, j | 0 <= i < n && 0 <= j < n && shown[i] == shown[j] ensures i == j {
      PositionDistinct(flags, Source(pi, n, i), Source(pi, n, j));
      SourceDistinct(pi, n, i, j);
    }
  }

  /** Every place receives some shuffled row. */
  lemma PlaceFilled(pi: Column, n: nat, flags: seq<bool>, shown: seq<nat>, q: nat) returns (j: nat)
    requires RevealsPositions(pi, n, flags, shown) && q < n
    ensures j < n && shown[j] == q + 1
  {
    hide Position, Source, SharedPerms;
    var i := PositionOnto(flags, q);
    j := SourceOnto(pi, n, i);
  }

  lemma {:induction false} PartitionSize<T>(flags: seq<bool>, v: seq<T>)
    requires |flags| == |v|
    ensures |Partition(flags, v)| == |v|
  {
    CountTotal(flags, |v|);
  }

  /** Rows shuffled by the permutation behind the revealed positions and put there are partitioned. */
  lemma PlacedIsSorted(pi: Column, n: nat, flags: seq<bool>, shown: seq<nat>, input: Column, shuffled: Column, result: Column)
    requires RevealsPositions(pi, n, flags, shown) && Sized(input, n) && Valid(shuffled, n) && Sized(result, n) && Placing(shown, n)
    requires forall j {:trigger Open(shuffled, n)[j]} :: 0 <= j < n ==> Open(shuffled, n)[j] == Open(input, n)[Source(pi, n, j)]
    requires forall id, j {:trigger result[id], shown[j]} :: 0 <= id < 3 && 0 <= j < n ==> result[id][shown[j] - 1] == shuffled[id][j]
    ensures Valid(result, n) && Open(result, n) == Partition(flags, Open(input, n))
  {
    hide Position, Source, SharedPerms, Partition;
    PartitionSize(flags, Open(input, n));
    forall q | 0 <= q < n
      ensures result[0][q].b == result[2][q].a && result[1][q].b == result[0][q].a && result[2][q].b == result[1][q].a
      ensures Open(result, n)[q] == Partition(flags, Open(input, n))[q]
    {
      var j := PlaceFilled(pi, n, flags, shown, q);
      PartitionAt(flags, Open(input, n), Source(pi, n, j));
      assert result[0][q] == shuffled[0][j] && result[1][q] == shuffled[1][j] && result[2][q] == shuffled[2][j];
      assert Open(result, n)[q] == Open(shuffled, n)[j];
    }
    assert Valid(result, n);
  }

  /** The random words of the sort of one row set. */
  datatype RowDraws = RowDraws(alpha1: seq<Word>, alpha3: seq<Word>, s: seq<Word>, t: seq<Word>)
  {
    ghost predicate Long(n: nat) { |alpha1| == |alpha3| == |s| == |t| == n }
  }

  /** `after` is a valid sharing of what `before` opens to, stably partitioned by the flags. */
  ghost predicate OpensSorted(before: Column, after: Column, n: nat, flags: seq<bool>) {
    && Valid(before, n) && Valid(after, n) && |flags| == n
    && Open(after, n) == Partition(flags, Open(before, n))
  }

  /** `apply_inv_many` once the positions are shown: every row set in the same order. */
  method ApplyInvMany(pi: Column, ghost n: nat, ghost flags: seq<bool>, shown: seq<nat>, rowSets: seq<Column>, draws: seq<RowDraws>)
    returns (results: seq<Column>)
    requires RevealsPositions(pi, n, flags, shown) && |draws| == |rowSets|
    requires forall r {:trigger rowSets[r]} :: 0 <= r < |rowSets| ==> Valid(rowSets[r], n)
    requires forall r {:trigger draws[r]} :: 0 <= r < |draws| ==> draws[r].Long(n)
    ensures |results| == |rowSets|
    ensures forall r {:trigger results[r]} :: 0 <= r < |rowSets| ==>
      OpensSorted(rowSets[r], results[r], n, flags)
  {
    PositionsPlace(pi, n, flags, shown);
    results := [];
    hide Position, Source, SharedPerms, OpensSorted, Valid;
    for r := 0 to |rowSets|
      invariant |results| == r
      invariant forall i {:trigger results[i]} :: 0 <= i < r ==>
        OpensSorted(rowSets[i], results[i], n, flags)
    {
      var one := ApplyInv(pi, n, flags, shown, rowSets[r], draws[r]);
      results := results + [one];
    }
  }

  method ApplyInv(pi: Column, ghost n: nat, ghost flags: seq<bool>, shown: seq<nat>, rows: Column, draws: RowDraws) returns (result: Column)
    requires RevealsPositions(pi, n, flags, shown) && Placing(shown, n) && Valid(rows, n) && draws.Long(n)
    ensures OpensSorted(rows, result, n, flags)
  {
    var shuffled := ShuffleRows(pi, rows, n, draws.alpha1, draws.alpha3, draws.s, draws.t);
    hide Position, Source, SharedPerms, Partition;
    var x := PlaceRows(shown, shuffled[0]);
    var y := PlaceRows(shown, shuffled[1]);
    var z := PlaceRows(shown, shuffled[2]);
    result := [x, y, z];
    PlacedIsSorted(pi, n, flags, shown, rows, shuffled, result);
  }

  /** `sort`: for all three parties' permutations and all masks, every column opens to the stable
      partition by the flags, in valid replicated shares. */
  method Sort(bits: Column, rowSets: seq<Column>, pi: Column, ghost n: nat, ghost flags: seq<bool>,
              zeroDraws: seq<seq<nat>>, oneDraws: seq<seq<nat>>, alpha: seq<nat>, draws: seq<RowDraws>)
    returns (sorted: seq<Column>)
    requires OpensTo(bits, n, flags) && n < TWO32 && SharedPerms(pi, n) && |draws| == |rowSets|
    requires Sized(zeroDraws, n) && Sized(oneDraws, n) && |alpha| == n
    requires forall r {:trigger rowSets[r]} :: 0 <= r < |rowSets| ==> Valid(rowSets[r], n)
    requires forall r {:trigger draws[r]} :: 0 <= r < |draws| ==> draws[r].Long(n)
    ensures |sorted| == |rowSets|
    ensures forall r {:trigger sorted[r]} :: 0 <= r < |rowSets| ==>
      OpensSorted(rowSets[r], sorted[r], n, flags)
  {
    var perm := GenBitPerm(bits, n, flags, zeroDraws, oneDraws);
    var shown := ShuffleRevealPerm(pi, perm, n, alpha);
    assert RevealsPositions(pi, n, flags, shown) by { hide Source, Position, SharedPerms; }
    sorted := ApplyInvMany(pi, n, flags, shown, rowSets, draws);
  }
}
