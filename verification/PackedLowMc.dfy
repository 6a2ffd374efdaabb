/** LowMC on packed 128-bit shares: masked rotations for the substitution, window tables for the linear layer. */
module PackedLowMc {
  import opened Words
  import opened SharedBits
  import opened LowMc
  import WordBits = Bits

  // ---------------------------------------------------------- words as bits

  function ShiftLeft(x: Bits, k: nat): (y: Bits)
    ensures |y| == |x|
  {
    seq(|x|, i requires 0 <= i < |x| => i >= k && x[i - k])
  }

  function Or(x: Bits, y: Bits): (z: Bits)
    requires |x| == |y|
    ensures |z| == |x|
  {
    seq(|x|, i requires 0 <= i < |x| => x[i] || y[i])
  }

  function Word(x: nat): (w: Bits)
    ensures |w| == BLOCK
  {
    seq(BLOCK, i requires 0 <= i < BLOCK => WordBits.Bit(x, i))
  }

  // The hexadecimal masks of the source.
  const FIRST: nat := 0x49249249249249249249249249249249
  const SECOND: nat := 0x92492492492492492492492492492492
  const THIRD: nat := 0x24924924924924924924924924924924
  const LATER: nat := 0xb6db6db6db6db6db6db6db6db6db6db6

  /** `k` one bits, three apart, starting at bit 0. */
  function Comb(k: nat): nat { if k == 0 then 0 else 1 + 8 * Comb(k - 1) }

  lemma {:induction false} CombBit(k: nat, i: nat)
    ensures WordBits.Bit(Comb(k), i) <==> i % 3 == 0 && i < 3 * k
    decreases k, i
  {
    if k == 0 {
      WordBits.ZeroBits(i);
    } else {
      var y := Comb(k - 1);
      if i >= 3 { CombBit(k - 1, i - 3); }
      hide Comb;
      EightTimes(y, 1, i);
      assert Comb(k) == 1 + 8 * y by { CombNext(k); }
    }
  }

  lemma CombNext(k: nat)
    requires k > 0
    ensures Comb(k) == 1 + 8 * Comb(k - 1)
  {
  }

  /** The bits of eight times a word with a low octal digit. */
  lemma EightTimes(y: nat, low: nat, i: nat)
    requires low < 8
    ensures WordBits.Bit(low + 8 * y, i) ==
      if i >= 3 then WordBits.Bit(y, i - 3) else if i == 0 then low % 2 == 1 else if i == 1 then (low / 2) % 2 == 1 else low / 4 == 1
  {
    var x := low + 8 * y;
    LowDigits(y, low);
    if i >= 3 {
      Eighth(x, i - 3);
    } else if i == 1 {
      assert WordBits.Bit(x, 1) == WordBits.Bit(x / 2, 0);
    } else if i == 2 {
      assert WordBits.Bit(x, 2) == WordBits.Bit(x / 2, 1) && WordBits.Bit(x / 2, 1) == WordBits.Bit(x / 2 / 2, 0);
    }
  }

  lemma LowDigits(y: nat, low: nat)
    requires low < 8
    ensures var x := low + 8 * y;
      x / 2 / 2 / 2 == y && x % 2 == low % 2 && (x / 2) % 2 == (low / 2) % 2 && (x / 2 / 2) % 2 == low / 4
  {
    var l1, l2 := low / 2, low / 4;
    Halve(l1 + 4 * y, low % 2);
    Halve(l2 + 2 * y, l1 % 2);
    Halve(y, l2);
    assert low + 8 * y == 2 * (l1 + 4 * y) + low % 2 && l1 + 4 * y == 2 * (l2 + 2 * y) + l1 % 2;
  }

  lemma Halve(n: nat, r: nat)
    requires r < 2
    ensures (2 * n + r) / 2 == n && (2 * n + r) % 2 == r
  {
  }

  lemma Eighth(x: nat, i: nat)
    ensures WordBits.Bit(x, i + 3) == WordBits.Bit(x / 2 / 2 / 2, i)
  {
    assert WordBits.Bit(x, i + 3) == WordBits.Bit(x / 2, i + 2);
    assert WordBits.Bit(x / 2, i + 2) == WordBits.Bit(x / 2 / 2, i + 1);
    assert WordBits.Bit(x / 2 / 2, i + 1) == WordBits.Bit(x / 2 / 2 / 2, i);
  }

  lemma Twice(x: nat, i: nat)
    ensures WordBits.Bit(2 * x, i) == (i > 0 && WordBits.Bit(x, i - 1))
  {
    assert 2 * x / 2 == x && (2 * x) % 2 == 0;
  }

  /** The four masks select the residues modulo 3. */
  lemma MaskBits(i: nat)
    requires i < BLOCK
    ensures Word(FIRST)[i] == (i % 3 == 0) && Word(SECOND)[i] == (i % 3 == 1)
    ensures Word(THIRD)[i] == (i % 3 == 2) && Word(LATER)[i] == (i % 3 != 0)
  {
    hide Comb, WordBits.Bit;
    CombBit(43, i);
    CombTwice(43, i);
    CombFour(42, i);
    Apart(i);
    CombValues();
  }

  lemma CombTwice(k: nat, i: nat)
    ensures WordBits.Bit(2 * Comb(k), i) <==> i > 0 && (i - 1) % 3 == 0 && i - 1 < 3 * k
  {
    hide *;
    Twice(Comb(k), i);
    if i > 0 { CombBit(k, i - 1); }
  }

  lemma CombFour(k: nat, i: nat)
    ensures WordBits.Bit(4 * Comb(k), i) <==> i > 1 && (i - 2) % 3 == 0 && i - 2 < 3 * k
  {
    hide *;
    assert 4 * Comb(k) == 2 * (2 * Comb(k));
    Twice(2 * Comb(k), i);
    if i > 0 { CombTwice(k, i - 1); }
  }

  lemma CombValues()
    ensures Comb(43) == FIRST && 2 * Comb(43) == SECOND && 4 * Comb(42) == THIRD
  {
    CombClosed(43);
    CombClosed(42);
    WordBits.PowersOf32();
    assert Pow2(129) == 2 * Pow2(128) && Pow2(128) == 2 * Pow2(127) && Pow2(127) == 2 * Pow2(126);
  }

  lemma {:induction false} CombClosed(k: nat)
    ensures 7 * Comb(k) + 1 == Pow2(3 * k)
  {
    if k > 0 {
      CombClosed(k - 1);
      var n := 3 * k;
      assert Pow2(n) == 2 * Pow2(n - 1) && Pow2(n - 1) == 2 * Pow2(n - 2) && Pow2(n - 2) == 2 * Pow2(n - 3);
    }
  }

  lemma {:induction false} ToothComb(k: nat)
    requires k >= 1
    ensures Tooth(k) == Comb(k) + 2 * Comb(k - 1)
  {
    if k > 1 { ToothComb(k - 1); }
  }

  /** The last mask is the sum of the second and the third, which have no bit in common. */
  lemma Apart(i: nat)
    requires i < BLOCK
    ensures WordBits.Bit(LATER, i) == (i % 3 != 0)
  {
    assert i < 128;
    hide *;
    LaterIs();
    Twice(Tooth(43), i);
    if i > 0 { ToothBit(43, i - 1); }
  }

  lemma LaterIs()
    ensures LATER == 2 * Tooth(43)
  {
    hide Comb, Tooth;
    CombValues();
    ToothComb(43);
  }

  /** Pairs of one bits, three apart; the last pair has only its lower bit. */
  function Tooth(k: nat): nat { if k <= 1 then k else 3 + 8 * Tooth(k - 1) }

  lemma {:induction false} ToothBit(k: nat, i: nat)
    requires k >= 1 && i < 3 * k
    ensures WordBits.Bit(Tooth(k), i) <==> i % 3 != 2 && i < 3 * k - 2
    decreases k
  {
    if k == 1 {
      if i > 0 { WordBits.ZeroBits(i - 1); }
    } else {
      if i >= 3 { ToothBit(k - 1, i - 3); }
      EightTimes(Tooth(k - 1), 3, i);
    }
  }

  // ------------------------------------------------------- the substitution

  /** Every triple rotated by one: the third bit first. */
  function Rotated(x: Bits): (y: Bits)
    requires |x| == BLOCK
    ensures |y| == BLOCK
  {
    Or(And(ShiftLeft(x, 1), Word(LATER)), And(ShiftRight(x, 2), Word(FIRST)))
  }

  lemma RotatedBit(x: Bits, i: nat)
    requires |x| == BLOCK && i < BLOCK
    ensures Rotated(x)[i] == if i % 3 == 0 then i + 2 < BLOCK && x[i + 2] else x[i - 1]
  {
    MaskBits(i);
  }

  /** `mpc_sbox_local`: one party's new component from its two words and its two mask words. */
  function SboxLocal(a: Bits, b: Bits, m0: Bits, m1: Bits): (y: Bits)
    requires |a| == |b| == |m0| == |m1| == BLOCK
    ensures |y| == BLOCK
  {
    var mask := seq(BLOCK, i => i < 3 * SBOXES);
    var cabA := Rotated(a);
    var bcaA := Rotated(cabA);
    var and := MaskedProduct(bcaA, Rotated(Rotated(b)), cabA, Rotated(b), m0, m1);
    var tmp1 := And(Plus(a, and), And(Word(FIRST), mask));
    var tmp2 := And(Plus(Plus(a, cabA), and), And(Word(SECOND), mask));
    var tmp3 := And(Plus(Plus(Plus(a, bcaA), cabA), and), And(Word(THIRD), mask));
    Or(Or(Or(tmp1, tmp2), tmp3), And(a, Complement(mask)))
  }

  function Complement(x: Bits): (y: Bits)
    ensures |y| == |x|
  {
    seq(|x|, i requires 0 <= i < |x| => !x[i])
  }

  /** The other bits of the triple around bit `i`, and what is added to their product. */
  function Left(x: Bits, i: nat): bool
    requires |x| == BLOCK && i < 3 * SBOXES
  {
    if i % 3 == 0 then x[i + 1] else if i % 3 == 1 then x[i + 1] else x[i - 2]
  }

  function Right(x: Bits, i: nat): bool
    requires |x| == BLOCK && i < 3 * SBOXES
  {
    if i % 3 == 0 then x[i + 2] else x[i - 1]
  }

  function Added(x: Bits, i: nat): bool
    requires |x| == BLOCK && i < 3 * SBOXES
  {
    if i % 3 == 0 then x[i] else if i % 3 == 1 then x[i] != x[i - 1] else (x[i] != x[i - 2]) != x[i - 1]
  }

  /** Rotating once brings the right neighbour, twice the left one. */
  lemma TurnedTwice(x: Bits, i: nat)
    requires |x| == BLOCK && i < 3 * SBOXES
    ensures Rotated(x)[i] == Right(x, i) && Rotated(Rotated(x))[i] == Left(x, i)
  {
    hide Rotated;
    RotatedBit(x, i);
    RotatedBit(Rotated(x), i);
    RotatedBit(x, if i % 3 == 0 then i + 2 else i - 1);
  }

  /** Bit by bit, before the neighbours are known. */
  lemma SboxBitwise(a: Bits, b: Bits, m0: Bits, m1: Bits, i: nat)
    requires |a| == |b| == |m0| == |m1| == BLOCK && i < BLOCK
    ensures SboxLocal(a, b, m0, m1)[i] ==
      var (u, v) := (Rotated(Rotated(a))[i], Rotated(a)[i]);
      var and := AndTerm(u, Rotated(Rotated(b))[i], v, Rotated(b)[i], m0[i], m1[i]);
      if i >= 3 * SBOXES then a[i]
      else (if i % 3 == 0 then a[i] else if i % 3 == 1 then a[i] != v else (a[i] != u) != v) != and
  {
    hide Rotated, Word, WordBits.Bit, MaskedProduct, AndTerm;
    MaskBits(i);
    ProductAt(Rotated(Rotated(a)), Rotated(Rotated(b)), Rotated(a), Rotated(b), m0, m1, i);
  }

  lemma SboxLocalBit(a: Bits, b: Bits, m0: Bits, m1: Bits, i: nat)
    requires |a| == |b| == |m0| == |m1| == BLOCK && i < BLOCK
    ensures SboxLocal(a, b, m0, m1)[i] ==
      if i < 3 * SBOXES then Added(a, i) != AndTerm(Left(a, i), Left(b, i), Right(a, i), Right(b, i), m0[i], m1[i]) else a[i]
  {
    hide SboxLocal, Rotated, AndTerm;
    SboxBitwise(a, b, m0, m1, i);
    if i < 3 * SBOXES {
      TurnedTwice(a, i);
      TurnedTwice(b, i);
    }
  }

  lemma SboxIs(x: Bits, i: nat)
    requires |x| == BLOCK && i < 3 * SBOXES
    ensures SboxBit(x, i) == (Added(x, i) != (Left(x, i) && Right(x, i)))
  {
  }

  /** `mpc_sbox` for one block: all parties' new components, exchanged with the next party. */
  function SboxShared(s: Shared, m: Shared): (r: Shared)
    requires |s.x0| == |s.x1| == |s.x2| == BLOCK && |m.x0| == |m.x1| == |m.x2| == BLOCK
  {
    Shared(SboxLocal(s.x0, s.x2, m.x0, m.x2), SboxLocal(s.x1, s.x0, m.x1, m.x0), SboxLocal(s.x2, s.x1, m.x2, m.x1))
  }

  /** For every sharing and all masks the packed substitution opens to the substitution. */
  lemma SboxOpens(s: Shared, m: Shared)
    requires s.Sized(BLOCK) && m.Sized(BLOCK)
    ensures SboxShared(s, m).Sized(BLOCK) && SboxShared(s, m).Open() == Sbox(s.Open())
  {
    forall i | 0 <= i < BLOCK ensures SboxShared(s, m).Open()[i] == SboxBit(s.Open(), i) {
      SboxBitOpens(s, m, i);
    }
  }

  lemma SboxBitOpens(s: Shared, m: Shared, i: nat)
    requires s.Sized(BLOCK) && m.Sized(BLOCK) && i < BLOCK
    ensures SboxShared(s, m).Open()[i] == SboxBit(s.Open(), i)
  {
    SboxLocalBit(s.x0, s.x2, m.x0, m.x2, i);
    SboxLocalBit(s.x1, s.x0, m.x1, m.x0, i);
    SboxLocalBit(s.x2, s.x1, m.x2, m.x1, i);
    var r := SboxShared(s, m);
    assert r.Open()[i] == ((r.x0[i] != r.x1[i]) != r.x2[i]) && s.Open()[i] == ((s.x0[i] != s.x1[i]) != s.x2[i]);
    hide SboxLocal, SboxBit, AndTerm, Plus, Left, Right, Added;
    if i < 3 * SBOXES {
      SboxIs(s.Open(), i);
      NeighboursOpen(s, i);
      AndTermsSum(Left(s.x0, i), Left(s.x1, i), Left(s.x2, i), Right(s.x0, i), Right(s.x1, i), Right(s.x2, i), m.x0[i], m.x1[i], m.x2[i]);
    } else {
      assert SboxBit(s.Open(), i) == s.Open()[i] by { SboxTail(s.Open(), i); }
    }
  }

  /** The other bits of the triple open alike. */
  lemma NeighboursOpen(s: Shared, i: nat)
    requires s.Sized(BLOCK) && i < 3 * SBOXES
    ensures Left(s.Open(), i) == ((Left(s.x0, i) != Left(s.x1, i)) != Left(s.x2, i))
    ensures Right(s.Open(), i) == ((Right(s.x0, i) != Right(s.x1, i)) != Right(s.x2, i))
    ensures Added(s.Open(), i) == ((Added(s.x0, i) != Added(s.x1, i)) != Added(s.x2, i))
  {
    var t := i - i % 3;
    OpenBit(s, t, BLOCK);
    OpenBit(s, t + 1, BLOCK);
    OpenBit(s, t + 2, BLOCK);
    hide Shared.Open;
    assert i == t || i == t + 1 || i == t + 2;
  }

  lemma SboxTail(x: Bits, i: nat)
    requires |x| == BLOCK && 3 * SBOXES <= i < BLOCK
    ensures SboxBit(x, i) == x[i]
  {
  }

  // -------------------------------------------------------- the linear layer

  /** `m4r_lut`: the sixteen sums of a nibble's bits in Gray-code order. */
  method M4rLut(input: Bits) returns (lut: seq<bool>)
    requires |input| == 4
    ensures |lut| == 16 && forall i :: 0 <= i < 16 ==> lut[i] == Lut(input, i)
  {
    lut := [false];
    LutStep(input, 0);
    for i := 1 to 16
      invariant |lut| == i && forall j :: 0 <= j < i ==> lut[j] == Lut(input, j)
    {
      LutStep(input, i);
      lut := lut + [lut[i - 1] != input[TrailingZeros(i)]];
    }
  }

  /** One entry of `build_linear_tables`: the output block of one nibble in one window. */
  method TableEntry(c: Cipher, round: nat, window: nat, input: Bits) returns (output: Bits)
    requires |input| == 4
    ensures |output| == BLOCK && forall o :: 0 <= o < BLOCK ==> output[o] == Lut(input, c.Mask(round, window, o))
  {
    var lut := M4rLut(input);
    output := [];
    for bit := 0 to BLOCK
      invariant |output| == bit && forall o :: 0 <= o < bit ==> output[o] == Lut(input, c.Mask(round, window, o))
    {
      output := output + [lut[c.Mask(round, window, bit)]];
    }
  }

  /** `mpc_linear_layer` on one component: a nibble at a time, shifted down after each window. */
  method LinearLayer(c: Cipher, round: nat, x: Bits) returns (output: Bits)
    requires |x| == BLOCK
    ensures output == Linear(c, round, x)
  {
    var a := x;
    output := seq(BLOCK, _ => false);
    assert a == ShiftRight(x, 0);
    for window := 0 to WINDOWS
      invariant a == ShiftRight(x, 4 * window) && output == Partly(c, round, x, window)
    {
      LowNibble(x, window);
      var entry := TableEntry(c, round, window, a[..4]);
      NextWindow(c, round, x, window, entry);
      output := Plus(output, entry);
      ShiftedOn(x, 4 * window);
      a := ShiftRight(a, 4);
    }
    LinearIs(c, round, x, output);
  }

  /** What the first `k` windows contribute. */
  ghost function Partly(c: Cipher, round: nat, x: Bits, k: nat): (y: Bits)
    requires |x| == BLOCK && k <= WINDOWS
    ensures |y| == BLOCK
  {
    seq(BLOCK, o requires 0 <= o < BLOCK => LinearBit(c, round, x, o, k))
  }

  lemma NextWindow(c: Cipher, round: nat, x: Bits, k: nat, entry: Bits)
    requires |x| == |entry| == BLOCK && k < WINDOWS
    requires forall o :: 0 <= o < BLOCK ==> entry[o] == Lut(Window(x, k), c.Mask(round, k, o))
    ensures Plus(Partly(c, round, x, k), entry) == Partly(c, round, x, k + 1)
  {
    hide Lut, Window;
  }

  lemma LowNibble(x: Bits, k: nat)
    requires |x| == BLOCK && k < WINDOWS
    ensures ShiftRight(x, 4 * k)[..4] == Window(x, k)
  {
  }

  lemma ShiftedOn(x: Bits, n: nat)
    ensures ShiftRight(ShiftRight(x, n), 4) == ShiftRight(x, n + 4)
  {
  }

  method LinearShared(c: Cipher, round: nat, s: Shared) returns (r: Shared)
    requires s.Sized(BLOCK)
    ensures r.Sized(BLOCK) && r.Open() == Linear(c, round, s.Open())
  {
    var x0 := LinearLayer(c, round, s.x0);
    var x1 := LinearLayer(c, round, s.x1);
    var x2 := LinearLayer(c, round, s.x2);
    r := Shared(x0, x1, x2);
    LinearPlus(c, round, s.x0, s.x1);
    LinearPlus(c, round, Plus(s.x0, s.x1), s.x2);
  }

  // ---------------------------------------------------------- whole blocks

  function PlusShared(s: Shared, t: Shared): (r: Shared)
    requires |s.x0| == |t.x0| && |s.x1| == |t.x1| && |s.x2| == |t.x2|
  {
    Shared(Plus(s.x0, t.x0), Plus(s.x1, t.x1), Plus(s.x2, t.x2))
  }

  /** A public constant goes into the first component, at the two parties that hold it. */
  function PlusPublic(s: Shared, x: Bits): (r: Shared)
    requires |s.x0| == |x|
  {
    s.(x0 := Plus(s.x0, x))
  }

  lemma SumsOpen(s: Shared, t: Shared, x: Bits)
    requires s.Sized(BLOCK) && t.Sized(BLOCK) && |x| == BLOCK
    ensures PlusShared(s, t).Sized(BLOCK) && PlusShared(s, t).Open() == Plus(s.Open(), t.Open())
    ensures PlusPublic(s, x).Sized(BLOCK) && PlusPublic(s, x).Open() == Plus(s.Open(), x)
  {
  }

  ghost predicate SharedKey(key: seq<Shared>) {
    |key| == ROUNDS + 1 && forall r {:trigger key[r]} :: 0 <= r < |key| ==> key[r].Sized(BLOCK)
  }

  ghost function OpenKey(key: seq<Shared>): (k: seq<Bits>)
    requires SharedKey(key)
    ensures IsKey(k) && forall r {:trigger k[r]} :: 0 <= r < |k| ==> k[r] == key[r].Open()
  {
    seq(|key|, r requires 0 <= r < |key| => key[r].Open())
  }

  ghost predicate AllSized(xs: seq<Shared>) {
    forall j {:trigger xs[j]} :: 0 <= j < |xs| ==> xs[j].Sized(BLOCK)
  }

  ghost predicate AllKeys(keys: seq<seq<Shared>>) {
    forall j {:trigger keys[j]} :: 0 <= j < |keys| ==> SharedKey(keys[j])
  }

  /** The masks of each round and block. */
  type Draws = (nat, nat) -> Shared

  ghost predicate Drawn(draws: Draws) {
    forall r: nat, j: nat {:trigger draws(r, j)} :: draws(r, j).Sized(BLOCK)
  }

  ghost predicate AfterRounds(c: Cipher, keys: seq<seq<Shared>>, inputs: seq<Shared>, state: seq<Shared>, r: nat) {
    && |state| == |inputs| == |keys| && r <= ROUNDS && AllSized(inputs) && AllKeys(keys)
    && forall j {:trigger state[j]} :: 0 <= j < |state| ==>
         state[j].Sized(BLOCK) && state[j].Open() == After(c, OpenKey(keys[j]), inputs[j].Open(), r)
  }

  /** `mpc_encrypt_with_roundkeys`: for every key, sharing and mask each block opens to its encryption. */
  method EncryptPacked(c: Cipher, inputs: seq<Shared>, keys: seq<seq<Shared>>, draws: Draws) returns (state: seq<Shared>)
    requires |inputs| == |keys| && AllSized(inputs) && AllKeys(keys) && Drawn(draws)
    ensures |state| == |inputs| && AllSized(state)
    ensures forall j {:trigger state[j]} :: 0 <= j < |state| ==> state[j].Open() == Encrypt(c, OpenKey(keys[j]), inputs[j].Open())
  {
    state := [];
    for j := 0 to |inputs|
      invariant |state| == j
      invariant forall i {:trigger state[i]} :: 0 <= i < j ==> state[i].Sized(BLOCK) && state[i].Open() == After(c, OpenKey(keys[i]), inputs[i].Open(), 0)
    {
      SumsOpen(inputs[j], keys[j][0], inputs[j].x0);
      state := state + [PlusShared(inputs[j], keys[j][0])];
    }
    for round := 0 to ROUNDS
      invariant AfterRounds(c, keys, inputs, state, round)
    {
      state := EncryptRound(c, round, inputs, keys, state, draws);
    }
  }

  method EncryptRound(c: Cipher, round: nat, ghost inputs: seq<Shared>, keys: seq<seq<Shared>>, state: seq<Shared>, draws: Draws) returns (next: seq<Shared>)
    requires round < ROUNDS && AfterRounds(c, keys, inputs, state, round) && Drawn(draws)
    ensures AfterRounds(c, keys, inputs, next, round + 1)
  {
    next := [];
    for j := 0 to |state|
      invariant |next| == j
      invariant forall i {:trigger next[i]} :: 0 <= i < j ==> next[i].Sized(BLOCK) && next[i].Open() == After(c, OpenKey(keys[i]), inputs[i].Open(), round + 1)
    {
      SboxOpens(state[j], draws(round, j));
      hide Sbox, Linear, SboxShared;
      var sboxed := SboxShared(state[j], draws(round, j));
      var mixed := LinearShared(c, round, sboxed);
      SumsOpen(mixed, keys[j][round + 1], c.Constant(round));
      var added := PlusPublic(mixed, c.Constant(round));
      SumsOpen(added, keys[j][round + 1], c.Constant(round));
      next := next + [PlusShared(added, keys[j][round + 1])];
    }
  }
}
