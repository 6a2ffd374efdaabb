/** The LowMC cipher on plain bits: the reference the share-level forms are compared with. */
module LowMc {
  import opened SharedBits

  const BLOCK: nat := 128
  const SBOXES: nat := 42
  const WINDOWS: nat := 32
  const ROUNDS: nat := 9

  /** Any window masks and any round constants.  The masks of a round stand for one matrix, `Entry`. */
  datatype Cipher = Cipher(masks: (nat, nat, nat) -> nat, constants: (nat, nat) -> bool)
  {
    function Mask(round: nat, window: nat, bit: nat): (m: nat) ensures m < 16 { masks(round, window, bit) % 16 }

    function Constant(round: nat): (x: Bits) ensures |x| == BLOCK { seq(BLOCK, i requires 0 <= i < BLOCK => constants(round, i)) }
  }

  /** The substitution of triples of bits; the last two bits stay. */
  function SboxBit(x: Bits, i: nat): bool
    requires |x| == BLOCK && i < BLOCK
  {
    if i >= 3 * SBOXES then x[i]
    else
      var (a, b, c) := (x[i - i % 3], x[i - i % 3 + 1], x[i - i % 3 + 2]);
      if i % 3 == 0 then (b && c) != a
      else if i % 3 == 1 then ((c && a) != a) != b
      else (((a && b) != a) != b) != c
  }

  function Sbox(x: Bits): (y: Bits)
    requires |x| == BLOCK
    ensures |y| == BLOCK
  {
    seq(BLOCK, i requires 0 <= i < BLOCK => SboxBit(x, i))
  }

  function TrailingZeros(i: nat): (r: nat)
    requires 0 < i < 16
    ensures r < 4
  {
    if i % 2 == 1 then 0 else if i % 4 == 2 then 1 else if i % 8 == 4 then 2 else 3
  }

  /** The bits the table entry `i` adds up: the Gray code of `i`. */
  function InGray(i: nat, j: nat): bool
    requires i < 16 && j < 4
  {
    NibbleBit(i, j) != (j < 3 && NibbleBit(i, j + 1))
  }

  function NibbleBit(i: nat, j: nat): bool
    requires i < 16 && j < 4
  {
    if j == 0 then i % 2 >= 1 else if j == 1 then i % 4 >= 2 else if j == 2 then i % 8 >= 4 else i >= 8
  }

  /** Entry `i` of the look-up table of four bits: the exclusive or of those the Gray code of `i` selects. */
  function Lut(w: Bits, i: nat): bool
    requires |w| == 4 && i < 16
  {
    (((InGray(i, 0) && w[0]) != (InGray(i, 1) && w[1])) != (InGray(i, 2) && w[2])) != (InGray(i, 3) && w[3])
  }

  /** Each entry differs from the one before by a single bit of the window. */
  lemma LutStep(w: Bits, i: nat)
    requires |w| == 4 && i < 16
    ensures Lut(w, i) == if i == 0 then false else Lut(w, i - 1) != w[TrailingZeros(i)]
  {
    if i > 0 {
      GrayStep(i);
      hide InGray, TrailingZeros;
    }
  }

  /** Consecutive Gray codes differ in one place. */
  lemma GrayStep(i: nat)
    requires 0 < i < 16
    ensures forall j: nat {:trigger InGray(i, j)} :: j < 4 ==> (InGray(i, j) != InGray(i - 1, j) <==> j == TrailingZeros(i))
  {
    forall j: nat | j < 4 ensures InGray(i, j) != InGray(i - 1, j) <==> j == TrailingZeros(i) {
      NibbleBefore(i, j);
      if j < 3 { NibbleBefore(i, j + 1); }
    }
  }

  /** Counting up by one flips the bits up to the lowest one bit. */
  lemma NibbleBefore(i: nat, j: nat)
    requires 0 < i < 16 && j < 4
    ensures NibbleBit(i, j) != NibbleBit(i - 1, j) <==> j <= TrailingZeros(i)
  {
    var q := i / 4;
    assert i == 4 * q + i % 4 && i % 4 < 4 && q < 4;
    if i % 4 == 0 { } else if i % 4 == 1 { } else if i % 4 == 2 { } else { }
  }

  function Window(x: Bits, w: nat): (r: Bits)
    requires |x| == BLOCK && w < WINDOWS
    ensures |r| == 4
  {
    x[4 * w..4 * w + 4]
  }

  /** The contributions of the first `k` windows to output bit `o`. */
  function LinearBit(c: Cipher, round: nat, x: Bits, o: nat, k: nat): bool
    requires |x| == BLOCK && k <= WINDOWS
  {
    if k == 0 then false
    else LinearBit(c, round, x, o, k - 1) != Lut(Window(x, k - 1), c.Mask(round, k - 1, o))
  }

  /** The entry of the round's matrix in row `o` and column `j`. */
  function Entry(c: Cipher, round: nat, o: nat, j: nat): bool
    requires j < BLOCK
  {
    InGray(c.Mask(round, j / 4, o), j % 4)
  }

  /** Row `o` of the matrix times the first `n` bits. */
  function RowTimes(c: Cipher, round: nat, x: Bits, o: nat, n: nat): bool
    requires n <= |x| == BLOCK
  {
    if n == 0 then false else RowTimes(c, round, x, o, n - 1) != (Entry(c, round, o, n - 1) && x[n - 1])
  }

  /** The linear layer: the round's matrix times the block. */
  function Linear(c: Cipher, round: nat, x: Bits): (y: Bits)
    requires |x| == BLOCK
    ensures |y| == BLOCK
  {
    seq(BLOCK, o requires 0 <= o < BLOCK => RowTimes(c, round, x, o, BLOCK))
  }

  /** The windows' table entries add up to the matrix product. */
  lemma {:induction false} WindowsAreRow(c: Cipher, round: nat, x: Bits, o: nat, k: nat)
    requires |x| == BLOCK && k <= WINDOWS
    ensures LinearBit(c, round, x, o, k) == RowTimes(c, round, x, o, 4 * k)
  {
    hide *;
    if k == 0 {
      NothingYet(c, round, x, o);
    } else {
      WindowsAreRow(c, round, x, o, k - 1);
      RowFour(c, round, x, o, k - 1);
      WindowIs(c, round, x, o, k - 1);
      WindowNext(c, round, x, o, k);
    }
  }

  lemma NothingYet(c: Cipher, round: nat, x: Bits, o: nat)
    requires |x| == BLOCK
    ensures !LinearBit(c, round, x, o, 0) && !RowTimes(c, round, x, o, 0)
  {
  }

  lemma WindowNext(c: Cipher, round: nat, x: Bits, o: nat, k: nat)
    requires |x| == BLOCK && 0 < k <= WINDOWS
    ensures LinearBit(c, round, x, o, k) == (LinearBit(c, round, x, o, k - 1) != Lut(Window(x, k - 1), c.Mask(round, k - 1, o)))
  {
  }

  /** What the matrix row adds up over the four bits of a window. */
  function FourOf(c: Cipher, round: nat, x: Bits, o: nat, w: nat): bool
    requires |x| == BLOCK && w < WINDOWS
  {
    (((Entry(c, round, o, 4 * w) && x[4 * w]) != (Entry(c, round, o, 4 * w + 1) && x[4 * w + 1]))
      != (Entry(c, round, o, 4 * w + 2) && x[4 * w + 2])) != (Entry(c, round, o, 4 * w + 3) && x[4 * w + 3])
  }

  lemma WindowIs(c: Cipher, round: nat, x: Bits, o: nat, w: nat)
    requires |x| == BLOCK && w < WINDOWS
    ensures Lut(Window(x, w), c.Mask(round, w, o)) == FourOf(c, round, x, o, w)
  {
    ColumnAt(w, 0); ColumnAt(w, 1); ColumnAt(w, 2); ColumnAt(w, 3);
    hide InGray;
  }

  lemma RowFour(c: Cipher, round: nat, x: Bits, o: nat, w: nat)
    requires |x| == BLOCK && w < WINDOWS
    ensures RowTimes(c, round, x, o, 4 * (w + 1)) == (RowTimes(c, round, x, o, 4 * w) != FourOf(c, round, x, o, w))
  {
    var n := 4 * w;
    hide Entry, RowTimes, InGray, Lut, LinearBit, Linear;
    RowNext(c, round, x, o, n);
    RowNext(c, round, x, o, n + 1);
    RowNext(c, round, x, o, n + 2);
    RowNext(c, round, x, o, n + 3);
    assert n + 4 == 4 * (w + 1);
  }

  lemma RowNext(c: Cipher, round: nat, x: Bits, o: nat, n: nat)
    requires n < |x| == BLOCK
    ensures RowTimes(c, round, x, o, n + 1) == (RowTimes(c, round, x, o, n) != (Entry(c, round, o, n) && x[n]))
  {
  }

  lemma ColumnAt(w: nat, j: nat)
    requires j < 4
    ensures (4 * w + j) / 4 == w && (4 * w + j) % 4 == j
  {
  }

  /** The windowed form computes the linear layer. */
  lemma LinearIs(c: Cipher, round: nat, x: Bits, y: Bits)
    requires |x| == |y| == BLOCK && forall o: nat {:trigger y[o]} :: o < BLOCK ==> y[o] == LinearBit(c, round, x, o, WINDOWS)
    ensures y == Linear(c, round, x)
  {
    forall o: nat | o < BLOCK ensures y[o] == Linear(c, round, x)[o] { WindowsAreRow(c, round, x, o, WINDOWS); }
  }

  /** The nibble whose Gray code is the four bits. */
  function FromGray(g0: bool, g1: bool, g2: bool, g3: bool): (i: nat)
    ensures i < 16
  {
    (if ((g0 != g1) != g2) != g3 then 1 else 0) + (if (g1 != g2) != g3 then 2 else 0) + (if g2 != g3 then 4 else 0) + (if g3 then 8 else 0)
  }

  /** The window masks of any matrices. */
  function MasksOf(m: (nat, nat, nat) -> bool): (nat, nat, nat) -> nat {
    (round: nat, window: nat, o: nat) =>
      FromGray(m(round, o, 4 * window), m(round, o, 4 * window + 1), m(round, o, 4 * window + 2), m(round, o, 4 * window + 3))
  }

  lemma GrayBack(g0: bool, g1: bool, g2: bool, g3: bool)
    ensures var i := FromGray(g0, g1, g2, g3); InGray(i, 0) == g0 && InGray(i, 1) == g1 && InGray(i, 2) == g2 && InGray(i, 3) == g3
  {
  }

  /** Every choice of matrices is that of some masks. */
  lemma EveryMatrix(m: (nat, nat, nat) -> bool, constants: (nat, nat) -> bool, round: nat, o: nat, j: nat)
    requires j < BLOCK
    ensures Entry(Cipher(MasksOf(m), constants), round, o, j) == m(round, o, j)
  {
    var w := j / 4;
    GrayBack(m(round, o, 4 * w), m(round, o, 4 * w + 1), m(round, o, 4 * w + 2), m(round, o, 4 * w + 3));
    assert j == 4 * w + j % 4 && Cipher(MasksOf(m), constants).Mask(round, w, o)
      == FromGray(m(round, o, 4 * w), m(round, o, 4 * w + 1), m(round, o, 4 * w + 2), m(round, o, 4 * w + 3));
    hide InGray, FromGray;
  }

  ghost predicate IsKey(key: seq<Bits>) {
    |key| == ROUNDS + 1 && forall r {:trigger key[r]} :: 0 <= r < |key| ==> |key[r]| == BLOCK
  }

  /** The block after `r` rounds. */
  ghost function After(c: Cipher, key: seq<Bits>, x: Bits, r: nat): (y: Bits)
    requires IsKey(key) && |x| == BLOCK && r <= ROUNDS
    ensures |y| == BLOCK
  {
    if r == 0 then Plus(x, key[0])
    else Plus(Plus(Linear(c, r - 1, Sbox(After(c, key, x, r - 1))), c.Constant(r - 1)), key[r])
  }

  ghost function Encrypt(c: Cipher, key: seq<Bits>, x: Bits): (y: Bits)
    requires IsKey(key) && |x| == BLOCK
    ensures |y| == BLOCK
  {
    After(c, key, x, ROUNDS)
  }

  // -------------------------------------------------------------- linearity

  lemma {:induction false} RowTimesPlus(c: Cipher, round: nat, x: Bits, y: Bits, o: nat, n: nat)
    requires n <= |x| == |y| == BLOCK
    ensures RowTimes(c, round, Plus(x, y), o, n) == (RowTimes(c, round, x, o, n) != RowTimes(c, round, y, o, n))
  {
    if n > 0 { RowTimesPlus(c, round, x, y, o, n - 1); }
  }

  /** The linear layer of a sum is the sum of the linear layers, whatever the matrix. */
  lemma LinearPlus(c: Cipher, round: nat, x: Bits, y: Bits)
    requires |x| == |y| == BLOCK
    ensures Linear(c, round, Plus(x, y)) == Plus(Linear(c, round, x), Linear(c, round, y))
  {
    forall o | 0 <= o < BLOCK ensures Linear(c, round, Plus(x, y))[o] == Plus(Linear(c, round, x), Linear(c, round, y))[o] {
      RowTimesPlus(c, round, x, y, o, BLOCK);
    }
  }
}
