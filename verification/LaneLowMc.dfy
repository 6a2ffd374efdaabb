/** LowMC on lanes: wires that hold one bit of every lane's block, with two ways to do the linear layer. */
module LaneLowMc {
  import opened Arithmetic
  import opened SharedBits
  import opened LowMc
  import Packed = PackedLowMc

  /** `wires[bit][lane]`. */
  type Wires = seq<Bits>

  ghost predicate Shaped(w: Wires, n: nat, lanes: nat) {
    |w| == n && forall i {:trigger w[i]} :: 0 <= i < n ==> |w[i]| == lanes
  }

  /** The block of one lane. */
  ghost function Column(w: Wires, lanes: nat, lane: nat): (x: Bits)
    requires Shaped(w, BLOCK, lanes) && lane < lanes
    ensures |x| == BLOCK
  {
    seq(BLOCK, i requires 0 <= i < BLOCK => w[i][lane])
  }

  /** The three components of a wire matrix. */
  datatype SharedWires = SharedWires(w0: Wires, w1: Wires, w2: Wires)
  {
    ghost predicate Sized(n: nat, lanes: nat) { Shaped(w0, n, lanes) && Shaped(w1, n, lanes) && Shaped(w2, n, lanes) }

    /** The shared block of one lane. */
    ghost function Lane(lanes: nat, lane: nat): (s: Shared)
      requires Sized(BLOCK, lanes) && lane < lanes
      ensures s.Sized(BLOCK)
    {
      Shared(Column(w0, lanes, lane), Column(w1, lanes, lane), Column(w2, lanes, lane))
    }
  }

  // ---------------------------------------------------------------- slicing

  /** `bit_slice` of one component: every set bit of a block is flipped in the lane of its wire. */
  method Slice(blocks: seq<Bits>, lanes: nat) returns (w: Wires)
    requires |blocks| <= lanes && forall j {:trigger blocks[j]} :: 0 <= j < |blocks| ==> |blocks[j]| == BLOCK
    ensures Shaped(w, BLOCK, lanes)
    ensures forall j {:trigger blocks[j]} :: 0 <= j < |blocks| ==> Column(w, lanes, j) == blocks[j]
  {
    w := seq(BLOCK, _ => seq(lanes, _ => false));
    for lane := 0 to |blocks|
      invariant Shaped(w, BLOCK, lanes)
      invariant forall i, j {:trigger w[i][j]} :: 0 <= i < BLOCK && 0 <= j < lanes ==> w[i][j] == (j < lane && blocks[j][i])
    {
      w := SliceInto(blocks[lane], lane, w, lanes);
    }
    forall j {:trigger blocks[j]} | 0 <= j < |blocks| ensures Column(w, lanes, j) == blocks[j] {}
  }

  method SliceInto(block: Bits, lane: nat, was: Wires, ghost lanes: nat) returns (w: Wires)
    requires |block| == BLOCK && Shaped(was, BLOCK, lanes) && lane < lanes
    ensures Shaped(w, BLOCK, lanes)
    ensures forall i, j {:trigger w[i][j]} :: 0 <= i < BLOCK && 0 <= j < lanes ==> w[i][j] == if j == lane then was[i][j] != block[i] else was[i][j]
  {
    w := [];
    for bit := 0 to BLOCK
      invariant Shaped(w, bit, lanes)
      invariant forall i, j {:trigger w[i][j]} :: 0 <= i < bit && 0 <= j < lanes ==> w[i][j] == if j == lane then was[i][j] != block[i] else was[i][j]
    {
      w := w + [was[bit][lane := was[bit][lane] != block[bit]]];
    }
  }

  /** `pack_lanes` of one component. */
  method PackLanes(w: Wires, len: nat, ghost lanes: nat) returns (blocks: seq<Bits>)
    requires Shaped(w, BLOCK, lanes) && len <= lanes
    ensures |blocks| == len && forall j {:trigger blocks[j]} :: 0 <= j < len ==> blocks[j] == Column(w, lanes, j)
  {
    blocks := [];
    for lane := 0 to len
      invariant |blocks| == lane && forall j {:trigger blocks[j]} :: 0 <= j < lane ==> blocks[j] == Column(w, lanes, j)
    {
      var block: Bits := [];
      for bit := 0 to BLOCK
        invariant |block| == bit && forall i :: 0 <= i < bit ==> block[i] == w[i][lane]
      {
        block := block + [w[bit][lane]];
      }
      blocks := blocks + [block];
    }
  }

  // -------------------------------------------------------- the substitution

  /** `collect_sbox_ands` on one component. */
  method CollectSboxAnds(w: Wires, ghost lanes: nat) returns (lhs: Wires, rhs: Wires)
    requires Shaped(w, BLOCK, lanes)
    ensures Shaped(lhs, 3 * SBOXES, lanes) && Shaped(rhs, 3 * SBOXES, lanes)
    ensures forall k {:trigger lhs[k]} {:trigger rhs[k]} :: 0 <= k < 3 * SBOXES ==> lhs[k] == w[LeftWire(k)] && rhs[k] == w[RightWire(k)]
  {
    lhs, rhs := [], [];
    for i := 0 to SBOXES
      invariant |lhs| == |rhs| == 3 * i
      invariant forall k {:trigger lhs[k]} {:trigger rhs[k]} :: 0 <= k < 3 * i ==> lhs[k] == w[LeftWire(k)] && rhs[k] == w[RightWire(k)]
    {
      var (a, b, c) := (w[3 * i], w[3 * i + 1], w[3 * i + 2]);
      lhs := lhs + [b, c, a];
      rhs := rhs + [c, a, b];
    }
  }

  function LeftWire(k: nat): (i: nat)
    requires k < 3 * SBOXES
    ensures i < BLOCK
  {
    if k % 3 == 2 then k - 2 else k + 1
  }

  function RightWire(k: nat): (i: nat)
    requires k < 3 * SBOXES
    ensures i < BLOCK
  {
    if k % 3 == 0 then k + 2 else k - 1
  }

  /** `apply_sbox_ands` on one component. */
  method ApplySboxAnds(w: Wires, ands: Wires, ghost lanes: nat) returns (output: Wires)
    requires Shaped(w, BLOCK, lanes) && Shaped(ands, 3 * SBOXES, lanes)
    ensures Shaped(output, BLOCK, lanes)
    ensures forall k {:trigger output[k]} :: 0 <= k < BLOCK ==> output[k] == if k < 3 * SBOXES then Plus(ands[k], AddedWires(w, k, lanes)) else w[k]
  {
    output := [];
    for i := 0 to SBOXES
      invariant Shaped(output, 3 * i, lanes)
      invariant forall k {:trigger output[k]} :: 0 <= k < 3 * i ==> output[k] == Plus(ands[k], AddedWires(w, k, lanes))
    {
      var triple := AppliedTriple(w[3 * i], w[3 * i + 1], w[3 * i + 2], ands[3 * i], ands[3 * i + 1], ands[3 * i + 2]);
      AppliedAdds(w, ands, i, lanes, triple);
      output := output + triple;
    }
    output := output + w[3 * SBOXES..];
    hide AddedWires, Plus;
  }

  function AppliedTriple(a: Bits, b: Bits, c: Bits, bc: Bits, ca: Bits, ab: Bits): (r: seq<Bits>)
    requires |a| == |b| == |c| == |bc| == |ca| == |ab|
    ensures |r| == 3
  {
    [Plus(bc, a), Plus(Plus(ca, a), b), Plus(Plus(Plus(ab, a), b), c)]
  }

  lemma AppliedAdds(w: Wires, ands: Wires, i: nat, lanes: nat, triple: seq<Bits>)
    requires Shaped(w, BLOCK, lanes) && Shaped(ands, 3 * SBOXES, lanes) && i < SBOXES
    requires triple == AppliedTriple(w[3 * i], w[3 * i + 1], w[3 * i + 2], ands[3 * i], ands[3 * i + 1], ands[3 * i + 2])
    ensures |triple| == 3 && forall j {:trigger triple[j]} :: 0 <= j < 3 ==> triple[j] == Plus(ands[3 * i + j], AddedWires(w, 3 * i + j, lanes)) && |triple[j]| == lanes
  {
    assert (3 * i) % 3 == 0 && (3 * i + 1) % 3 == 1 && (3 * i + 2) % 3 == 2;
    assert triple[0] == Plus(ands[3 * i], AddedWires(w, 3 * i, lanes));
    assert triple[1] == Plus(ands[3 * i + 1], AddedWires(w, 3 * i + 1, lanes));
    assert triple[2] == Plus(ands[3 * i + 2], AddedWires(w, 3 * i + 2, lanes));
  }

  /** What is added to the product of triple position `k`. */
  ghost function AddedWires(w: Wires, k: nat, lanes: nat): (x: Bits)
    requires Shaped(w, BLOCK, lanes) && k < 3 * SBOXES
    ensures |x| == lanes
  {
    if k % 3 == 0 then w[k] else if k % 3 == 1 then Plus(w[k - 1], w[k]) else Plus(Plus(w[k - 2], w[k - 1]), w[k])
  }

  lemma AddedAt(a: Wires, k: nat, lanes: nat, lane: nat)
    requires Shaped(a, BLOCK, lanes) && k < 3 * SBOXES && lane < lanes
    ensures AddedWires(a, k, lanes)[lane] == Packed.Added(Column(a, lanes, lane), k)
  {
  }

  /** All lanes of one wire. */
  function Wire(s: SharedWires, k: nat): Shared
    requires k < |s.w0| && k < |s.w1| && k < |s.w2|
  {
    Shared(s.w0[k], s.w1[k], s.w2[k])
  }

  lemma WireAt(s: SharedWires, k: nat, lanes: nat, lane: nat)
    requires s.Sized(BLOCK, lanes) && k < BLOCK && lane < lanes
    ensures Wire(s, k).Sized(lanes) && Wire(s, k).Open()[lane] == s.Lane(lanes, lane).Open()[k]
  {
  }

  /** The factors of a group's products, on shares. */
  method CollectShared(s: SharedWires, ghost lanes: nat) returns (lhs: seq<Shared>, rhs: seq<Shared>)
    requires s.Sized(BLOCK, lanes)
    ensures |lhs| == |rhs| == 3 * SBOXES && AllOf(lhs, lanes) && AllOf(rhs, lanes)
    ensures forall k {:trigger lhs[k]} {:trigger rhs[k]} :: 0 <= k < 3 * SBOXES ==> lhs[k] == Wire(s, LeftWire(k)) && rhs[k] == Wire(s, RightWire(k))
  {
    var l0, r0 := CollectSboxAnds(s.w0, lanes);
    var l1, r1 := CollectSboxAnds(s.w1, lanes);
    var l2, r2 := CollectSboxAnds(s.w2, lanes);
    lhs := seq(3 * SBOXES, k requires 0 <= k < 3 * SBOXES => Shared(l0[k], l1[k], l2[k]));
    rhs := seq(3 * SBOXES, k requires 0 <= k < 3 * SBOXES => Shared(r0[k], r1[k], r2[k]));
  }

  /** The products a group needs: of the two other wires of each triple. */
  ghost predicate Multiplies(s: SharedWires, ands: seq<Shared>, lanes: nat)
    requires s.Sized(BLOCK, lanes)
  {
    && |ands| == 3 * SBOXES
    && forall k {:trigger ands[k]} :: 0 <= k < 3 * SBOXES ==> Multiplied(s, k, ands[k], lanes)
  }

  ghost predicate Multiplied(s: SharedWires, k: nat, and: Shared, lanes: nat)
    requires s.Sized(BLOCK, lanes) && k < 3 * SBOXES
  {
    and.Sized(lanes) && and.Open() == And(Wire(s, LeftWire(k)).Open(), Wire(s, RightWire(k)).Open())
  }

  /** With its products applied, each lane of a group opens to its substitution. */
  method ApplyShared(s: SharedWires, ands: seq<Shared>, ghost lanes: nat) returns (r: SharedWires)
    requires s.Sized(BLOCK, lanes) && Multiplies(s, ands, lanes)
    ensures r.Sized(BLOCK, lanes)
    ensures forall lane: nat {:trigger r.Lane(lanes, lane)} :: lane < lanes ==> r.Lane(lanes, lane).Open() == Sbox(s.Lane(lanes, lane).Open())
  {
    hide Multiplied;
    forall k | 0 <= k < 3 * SBOXES ensures ands[k].Sized(lanes) { MultipliedSized(s, k, ands[k], lanes); }
    var a0 := seq(3 * SBOXES, k requires 0 <= k < 3 * SBOXES => ands[k].x0);
    var a1 := seq(3 * SBOXES, k requires 0 <= k < 3 * SBOXES => ands[k].x1);
    var a2 := seq(3 * SBOXES, k requires 0 <= k < 3 * SBOXES => ands[k].x2);
    var x := ApplySboxAnds(s.w0, a0, lanes);
    var y := ApplySboxAnds(s.w1, a1, lanes);
    var z := ApplySboxAnds(s.w2, a2, lanes);
    r := SharedWires(x, y, z);
    hide SboxBit, AddedWires, Wire;
    forall lane: nat | lane < lanes ensures r.Lane(lanes, lane).Open() == Sbox(s.Lane(lanes, lane).Open()) {
      forall k | 0 <= k < BLOCK ensures r.Lane(lanes, lane).Open()[k] == SboxBit(s.Lane(lanes, lane).Open(), k) {
        if k < 3 * SBOXES {
          assert x[k] == Plus(ands[k].x0, AddedWires(s.w0, k, lanes));
          assert y[k] == Plus(ands[k].x1, AddedWires(s.w1, k, lanes));
          assert z[k] == Plus(ands[k].x2, AddedWires(s.w2, k, lanes));
          AppliedBit(s, ands[k], r, k, lanes, lane);
        } else {
          assert x[k] == s.w0[k] && y[k] == s.w1[k] && z[k] == s.w2[k];
          OpenBit(s.Lane(lanes, lane), k, BLOCK);
          OpenBit(r.Lane(lanes, lane), k, BLOCK);
          Packed.SboxTail(s.Lane(lanes, lane).Open(), k);
        }
      }
    }
  }

  lemma MultipliedSized(s: SharedWires, k: nat, and: Shared, lanes: nat)
    requires s.Sized(BLOCK, lanes) && k < 3 * SBOXES && Multiplied(s, k, and, lanes)
    ensures and.Sized(lanes)
  {
  }

  lemma AppliedBit(s: SharedWires, and: Shared, r: SharedWires, k: nat, lanes: nat, lane: nat)
    requires s.Sized(BLOCK, lanes) && r.Sized(BLOCK, lanes) && k < 3 * SBOXES && lane < lanes && Multiplied(s, k, and, lanes)
    requires r.w0[k] == Plus(and.x0, AddedWires(s.w0, k, lanes))
    requires r.w1[k] == Plus(and.x1, AddedWires(s.w1, k, lanes))
    requires r.w2[k] == Plus(and.x2, AddedWires(s.w2, k, lanes))
    ensures r.Lane(lanes, lane).Open()[k] == SboxBit(s.Lane(lanes, lane).Open(), k)
  {
    var own := s.Lane(lanes, lane);
    OpenBit(r.Lane(lanes, lane), k, BLOCK);
    Packed.NeighboursOpen(own, k);
    Packed.SboxIs(own.Open(), k);
    WireAt(s, LeftWire(k), lanes, lane);
    WireAt(s, RightWire(k), lanes, lane);
    NeighbourWires(own.Open(), k);
    AddedAt(s.w0, k, lanes, lane);
    AddedAt(s.w1, k, lanes, lane);
    AddedAt(s.w2, k, lanes, lane);
    OpenBit(and, lane, lanes);
    assert and.Open()[lane] == (Packed.Left(own.Open(), k) && Packed.Right(own.Open(), k));
    hide SboxBit, AddedWires, Wire, Packed.Left, Packed.Right, Packed.Added, LeftWire, RightWire, Shared.Open;
  }

  lemma NeighbourWires(x: Bits, k: nat)
    requires |x| == BLOCK && k < 3 * SBOXES
    ensures x[LeftWire(k)] == Packed.Left(x, k) && x[RightWire(k)] == Packed.Right(x, k)
  {
  }

  /** The products of a group's factors are what it needs. */
  lemma ProductsMultiply(s: SharedWires, lhs: seq<Shared>, rhs: seq<Shared>, ands: seq<Shared>, lanes: nat)
    requires s.Sized(BLOCK, lanes) && |lhs| == |rhs| == |ands| == 3 * SBOXES && AllOf(lhs, lanes) && AllOf(rhs, lanes) && AllOf(ands, lanes)
    requires forall k {:trigger lhs[k]} {:trigger rhs[k]} :: 0 <= k < 3 * SBOXES ==> lhs[k] == Wire(s, LeftWire(k)) && rhs[k] == Wire(s, RightWire(k))
    requires forall k {:trigger ands[k]} :: 0 <= k < 3 * SBOXES ==> ands[k].Open() == And(lhs[k].Open(), rhs[k].Open())
    ensures Multiplies(s, ands, lanes)
  {
    hide And, Shared.Open, Wire, LeftWire, RightWire;
    forall k {:trigger ands[k]} | 0 <= k < 3 * SBOXES ensures Multiplied(s, k, ands[k], lanes) {
      assert lhs[k] == Wire(s, LeftWire(k));
    }
  }

  /** The substitution of all lanes: for every sharing and all masks each lane opens to its substitution. */
  method SboxLayer(s: SharedWires, m: SharedWires, lanes: nat) returns (r: SharedWires)
    requires s.Sized(BLOCK, lanes) && m.Sized(3 * SBOXES, lanes)
    ensures r.Sized(BLOCK, lanes)
    ensures forall lane: nat {:trigger r.Lane(lanes, lane)} :: lane < lanes ==> r.Lane(lanes, lane).Open() == Sbox(s.Lane(lanes, lane).Open())
  {
    var lhs, rhs := CollectShared(s, lanes);
    var masks := seq(3 * SBOXES, k requires 0 <= k < 3 * SBOXES => Wire(m, k));
    hide Sbox, Multiplies, Products, Shared.Open;
    ProductsOpen(lhs, rhs, masks, lanes);
    var ands := Products(lhs, rhs, masks, lanes);
    ProductsMultiply(s, lhs, rhs, ands, lanes);
    r := ApplyShared(s, ands, lanes);
  }

  // ---------------------------------------- the linear layer, on whole wires

  ghost function LaneNibble(w4: Wires, lane: nat, lanes: nat): (n: Bits)
    requires Shaped(w4, 4, lanes) && lane < lanes
    ensures |n| == 4
  {
    seq(4, j requires 0 <= j < 4 => w4[j][lane])
  }

  /** `fill_out_lut`: sixteen wires, each one input wire away from the one before. */
  method FillOutLut(input: Wires, lanes: nat) returns (lut: Wires)
    requires Shaped(input, 4, lanes)
    ensures Shaped(lut, 16, lanes)
    ensures forall i: nat, lane: nat {:trigger lut[i][lane]} :: i < 16 && lane < lanes ==> lut[i][lane] == Lut(LaneNibble(input, lane, lanes), i)
  {
    lut := [seq(lanes, _ => false)];
    hide Lut;
    forall lane: nat {:trigger lut[0][lane]} | lane < lanes ensures lut[0][lane] == Lut(LaneNibble(input, lane, lanes), 0) { LutStep(LaneNibble(input, lane, lanes), 0); }
    for i := 1 to 16
      invariant Shaped(lut, i, lanes)
      invariant forall k: nat, lane: nat {:trigger lut[k][lane]} :: k < i && lane < lanes ==> lut[k][lane] == Lut(LaneNibble(input, lane, lanes), k)
    {
      var next := Plus(lut[i - 1], input[TrailingZeros(i)]);
      forall lane: nat | lane < lanes ensures next[lane] == Lut(LaneNibble(input, lane, lanes), i) {
        assert lut[i - 1][lane] == Lut(LaneNibble(input, lane, lanes), i - 1);
        LutStep(LaneNibble(input, lane, lanes), i);
      }
      lut := lut + [next];
    }
  }

  /** `four_russians_matrix_mult` on one component. */
  method FourRussians(c: Cipher, round: nat, w: Wires, lanes: nat) returns (output: Wires)
    requires Shaped(w, BLOCK, lanes)
    ensures Shaped(output, BLOCK, lanes)
    ensures forall lane: nat {:trigger Column(output, lanes, lane)} :: lane < lanes ==> Column(output, lanes, lane) == Linear(c, round, Column(w, lanes, lane))
  {
    output := seq(BLOCK, _ => seq(lanes, _ => false));
    for window := 0 to WINDOWS
      invariant Shaped(output, BLOCK, lanes)
      invariant forall o: nat, lane: nat {:trigger output[o][lane]} :: o < BLOCK && lane < lanes ==> output[o][lane] == LinearBit(c, round, Column(w, lanes, lane), o, window)
    {
      var lut := FillOutLut(w[4 * window..4 * window + 4], lanes);
      output := AddWindow(c, round, window, w, lut, output, lanes);
    }
    forall lane: nat {:trigger Column(output, lanes, lane)} | lane < lanes ensures Column(output, lanes, lane) == Linear(c, round, Column(w, lanes, lane)) {
      LinearIs(c, round, Column(w, lanes, lane), Column(output, lanes, lane));
    }
  }

  method AddWindow(c: Cipher, round: nat, window: nat, ghost w: Wires, lut: Wires, was: Wires, ghost lanes: nat) returns (output: Wires)
    requires window < WINDOWS && Shaped(w, BLOCK, lanes) && Shaped(lut, 16, lanes) && Shaped(was, BLOCK, lanes)
    requires forall i: nat, lane: nat {:trigger lut[i][lane]} :: i < 16 && lane < lanes ==> lut[i][lane] == Lut(LaneNibble(w[4 * window..4 * window + 4], lane, lanes), i)
    requires forall o: nat, lane: nat {:trigger was[o][lane]} :: o < BLOCK && lane < lanes ==> was[o][lane] == LinearBit(c, round, Column(w, lanes, lane), o, window)
    ensures Shaped(output, BLOCK, lanes)
    ensures forall o: nat, lane: nat {:trigger output[o][lane]} :: o < BLOCK && lane < lanes ==> output[o][lane] == LinearBit(c, round, Column(w, lanes, lane), o, window + 1)
  {
    output := [];
    for o := 0 to BLOCK
      invariant Shaped(output, o, lanes)
      invariant forall q: nat, lane: nat {:trigger output[q][lane]} :: q < o && lane < lanes ==> output[q][lane] == LinearBit(c, round, Column(w, lanes, lane), q, window + 1)
    {
      var mask := c.Mask(round, window, o);
      var next := Plus(was[o], lut[mask]);
      forall lane: nat | lane < lanes ensures next[lane] == LinearBit(c, round, Column(w, lanes, lane), o, window + 1) {
        assert LaneNibble(w[4 * window..4 * window + 4], lane, lanes) == Window(Column(w, lanes, lane), window);
        assert was[o][lane] == LinearBit(c, round, Column(w, lanes, lane), o, window);
        assert lut[mask][lane] == Lut(LaneNibble(w[4 * window..4 * window + 4], lane, lanes), mask);
      }
      output := output + [next];
    }
  }

  // ------------------------------- the linear layer, lane by lane, transposed

  /** One exchange of bits at distance `shift` where the mask has a one. */
  function Exchange(v: Bits, shift: nat, mask: nat -> bool): (r: Bits)
    requires |v| == 64
    ensures |r| == 64
  {
    var swap := seq(64, i requires 0 <= i < 64 => mask(i) && (v[i] != (i + shift < 64 && v[i + shift])));
    seq(64, i requires 0 <= i < 64 => (v[i] != swap[i]) != (i >= shift && swap[i - shift]))
  }

  /** The mask `0x00aa_00aa_00aa_00aa`. */
  function MaskA(i: nat): bool { i % 16 < 8 && i % 2 == 1 }

  /** The mask `0x0000_cccc_0000_cccc`. */
  function MaskB(i: nat): bool { i % 32 < 16 && i % 4 >= 2 }

  /** The mask `0x0000_0000_f0f0_f0f0`. */
  function MaskC(i: nat): bool { i < 32 && i % 8 >= 4 }

  /** `transpose` of eight bytes. */
  function Transpose(v: Bits): (r: Bits)
    requires |v| == 64
    ensures |r| == 64
  {
    Exchange(Exchange(Exchange(v, 7, MaskA), 14, MaskB), 28, MaskC)
  }

  lemma ExchangeBit(v: Bits, shift: nat, mask: nat -> bool, i: nat)
    requires |v| == 64 && i < 64 && shift > 0
    requires forall j: nat {:trigger mask(j)} :: j < 64 && mask(j) ==> j + shift < 64 && !mask(j + shift)
    ensures Exchange(v, shift, mask)[i] ==
      if mask(i) then v[i + shift] else if i >= shift && mask(i - shift) then v[i - shift] else v[i]
  {
    if i >= shift {
      var j: nat := i - shift;
      assert mask(j) ==> !mask(j + shift);
    }
  }

  /** Where an exchange fetches bit `k` from. */
  function Fetch(k: nat, shift: nat, mask: nat -> bool): (r: nat)
  {
    if mask(k) then k + shift else if k >= shift && mask(k - shift) then k - shift else k
  }

  /** A position by the three bits of its byte and the three bits within it. */
  function Place(a: nat, b: nat, c: nat, d: nat, e: nat, f: nat): nat { 32 * a + 16 * b + 8 * c + 4 * d + 2 * e + f }

  // Each exchange swaps one bit of the byte's number with the same bit of the position in the byte.

  lemma FetchC(a: nat, b: nat, c: nat, d: nat, e: nat, f: nat)
    requires a < 2 && b < 2 && c < 2 && d < 2 && e < 2 && f < 2
    ensures Fetch(Place(a, b, c, d, e, f), 28, MaskC) == Place(d, b, c, a, e, f)
  {
    Residues(a, b, c, d, e, f);
    if Place(a, b, c, d, e, f) >= 28 { FetchBack28(a, b, c, d, e, f); }
    hide MaskA, MaskB, MaskC;
  }

  lemma FetchB(a: nat, b: nat, c: nat, d: nat, e: nat, f: nat)
    requires a < 2 && b < 2 && c < 2 && d < 2 && e < 2 && f < 2
    ensures Fetch(Place(a, b, c, d, e, f), 14, MaskB) == Place(a, e, c, d, b, f)
  {
    Residues(a, b, c, d, e, f);
    if Place(a, b, c, d, e, f) >= 14 { FetchBack14(a, b, c, d, e, f); }
    hide MaskA, MaskB, MaskC;
  }

  lemma FetchA(a: nat, b: nat, c: nat, d: nat, e: nat, f: nat)
    requires a < 2 && b < 2 && c < 2 && d < 2 && e < 2 && f < 2
    ensures Fetch(Place(a, b, c, d, e, f), 7, MaskA) == Place(a, b, f, d, e, c)
  {
    Residues(a, b, c, d, e, f);
    if Place(a, b, c, d, e, f) >= 7 { FetchBack7(a, b, c, d, e, f); }
    hide MaskA, MaskB, MaskC;
  }

  lemma Residues(a: nat, b: nat, c: nat, d: nat, e: nat, f: nat)
    requires a < 2 && b < 2 && c < 2 && d < 2 && e < 2 && f < 2
    ensures var k := Place(a, b, c, d, e, f);
      (MaskC(k) <==> a == 0 && d == 1) && (MaskB(k) <==> b == 0 && e == 1) && (MaskA(k) <==> c == 0 && f == 1)
  {
    Remainders(a, b, c, d, e, f);
  }

  lemma Remainders(a: nat, b: nat, c: nat, d: nat, e: nat, f: nat)
    requires a < 2 && b < 2 && c < 2 && d < 2 && e < 2 && f < 2
    ensures var k := Place(a, b, c, d, e, f);
      && k % 2 == f && k % 4 == 2 * e + f && k % 8 == 4 * d + 2 * e + f
      && k % 16 == 8 * c + 4 * d + 2 * e + f && k % 32 == 16 * b + 8 * c + 4 * d + 2 * e + f
  {
    var k := Place(a, b, c, d, e, f);
    Remainder2(16 * a + 8 * b + 4 * c + 2 * d + e, f);
    Remainder4(8 * a + 4 * b + 2 * c + d, 2 * e + f);
    Remainder8(4 * a + 2 * b + c, 4 * d + 2 * e + f);
    Remainder16(2 * a + b, 8 * c + 4 * d + 2 * e + f);
    Remainder32(a, 16 * b + 8 * c + 4 * d + 2 * e + f);
  }

  lemma Remainder2(q: nat, r: nat)
    requires r < 2
    ensures (2 * q + r) % 2 == r
  {
  }

  lemma Remainder4(q: nat, r: nat)
    requires r < 4
    ensures (4 * q + r) % 4 == r
  {
  }

  lemma Remainder8(q: nat, r: nat)
    requires r < 8
    ensures (8 * q + r) % 8 == r
  {
  }

  lemma Remainder16(q: nat, r: nat)
    requires r < 16
    ensures (16 * q + r) % 16 == r
  {
  }

  lemma Remainder32(q: nat, r: nat)
    requires r < 32
    ensures (32 * q + r) % 32 == r
  {
  }

  lemma FetchBack28(a: nat, b: nat, c: nat, d: nat, e: nat, f: nat)
    requires a < 2 && b < 2 && c < 2 && d < 2 && e < 2 && f < 2 && Place(a, b, c, d, e, f) >= 28
    ensures MaskC(Place(a, b, c, d, e, f) - 28) <==> a == 1 && d == 0
  {
    var k: nat := Place(a, b, c, d, e, f) - 28;
    if a == 1 && d == 0 { assert k == Place(0, b, c, 1, e, f); }
  }

  lemma FetchBack14(a: nat, b: nat, c: nat, d: nat, e: nat, f: nat)
    requires a < 2 && b < 2 && c < 2 && d < 2 && e < 2 && f < 2 && Place(a, b, c, d, e, f) >= 14
    ensures MaskB(Place(a, b, c, d, e, f) - 14) <==> b == 1 && e == 0
  {
    var k: nat := Place(a, b, c, d, e, f) - 14;
    if b == 1 && e == 0 { assert k == Place(a, 0, c, d, 1, f); }
  }

  lemma FetchBack7(a: nat, b: nat, c: nat, d: nat, e: nat, f: nat)
    requires a < 2 && b < 2 && c < 2 && d < 2 && e < 2 && f < 2 && Place(a, b, c, d, e, f) >= 7
    ensures MaskA(Place(a, b, c, d, e, f) - 7) <==> c == 1 && f == 0
  {
    var k: nat := Place(a, b, c, d, e, f) - 7;
    if c == 1 && f == 0 { assert k == Place(a, b, 0, d, e, 1); }
  }

  lemma MasksFit()
    ensures forall j: nat {:trigger MaskA(j)} :: j < 64 && MaskA(j) ==> j + 7 < 64 && !MaskA(j + 7)
    ensures forall j: nat {:trigger MaskB(j)} :: j < 64 && MaskB(j) ==> j + 14 < 64 && !MaskB(j + 14)
    ensures forall j: nat {:trigger MaskC(j)} :: j < 64 && MaskC(j) ==> j + 28 < 64 && !MaskC(j + 28)
  {
  }

  /** The three exchanges move bit `i` of byte `j` to bit `j` of byte `i`. */
  lemma TransposeBit(v: Bits, i: nat, j: nat)
    requires |v| == 64 && i < 8 && j < 8
    ensures Transpose(v)[8 * i + j] == v[8 * j + i]
  {
    Digits(i);
    Digits(j);
    hide Transpose;
    Transposed(v, i / 4, i / 2 % 2, i % 2, j / 4, j / 2 % 2, j % 2);
  }

  lemma Digits(i: nat)
    requires i < 8
    ensures i == 4 * (i / 4) + 2 * (i / 2 % 2) + i % 2 && i / 4 < 2 && i / 2 % 2 < 2 && i % 2 < 2
  {
  }

  lemma Transposed(v: Bits, a: nat, b: nat, c: nat, d: nat, e: nat, f: nat)
    requires |v| == 64 && a < 2 && b < 2 && c < 2 && d < 2 && e < 2 && f < 2
    ensures Place(a, b, c, d, e, f) < 64 && Place(d, e, f, a, b, c) < 64
    ensures Transpose(v)[Place(a, b, c, d, e, f)] == v[Place(d, e, f, a, b, c)]
  {
    var v1 := Exchange(v, 7, MaskA);
    var v2 := Exchange(v1, 14, MaskB);
    MasksFit();
    assert Transpose(v) == Exchange(v2, 28, MaskC);
    assert Place(a, b, c, d, e, f) < 64 && Place(d, b, c, a, e, f) < 64 && Place(d, e, c, a, b, f) < 64;
    hide Exchange, MaskA, MaskB, MaskC, Fetch, Transpose, Place;
    FetchC(a, b, c, d, e, f);
    FetchB(d, b, c, a, e, f);
    FetchA(d, e, c, a, b, f);
    FetchedBit(v2, 28, MaskC, Place(a, b, c, d, e, f));
    FetchedBit(v1, 14, MaskB, Place(d, b, c, a, e, f));
    FetchedBit(v, 7, MaskA, Place(d, e, c, a, b, f));
  }

  lemma FetchedBit(v: Bits, shift: nat, mask: nat -> bool, i: nat)
    requires |v| == 64 && i < 64 && shift > 0
    requires forall j: nat {:trigger mask(j)} :: j < 64 && mask(j) ==> j + shift < 64 && !mask(j + shift)
    ensures Fetch(i, shift, mask) < 64 && Exchange(v, shift, mask)[i] == v[Fetch(i, shift, mask)]
  {
    ExchangeBit(v, shift, mask, i);
    hide Exchange;
  }

  /** The bits of eight wires with eight lanes, wire by wire. */
  function Flat8(rows: seq<Bits>): (v: Bits)
    requires |rows| == 8 && forall i {:trigger rows[i]} :: 0 <= i < 8 ==> |rows[i]| == 8
    ensures |v| == 64 && forall i, j {:trigger rows[i][j]} :: 0 <= i < 8 && 0 <= j < 8 ==> v[8 * i + j] == rows[i][j]
  {
    seq(64, k requires 0 <= k < 64 => rows[k / 8][k % 8])
  }

  /** Eight bytes, one from each block. */
  function ByteRows(blocks: seq<Bits>, byte: nat): (rows: seq<Bits>)
    requires |blocks| == 8 && byte < 16 && forall l {:trigger blocks[l]} :: 0 <= l < 8 ==> |blocks[l]| == BLOCK
    ensures |rows| == 8 && forall l {:trigger rows[l]} :: 0 <= l < 8 ==> rows[l] == blocks[l][8 * byte..8 * byte + 8]
  {
    seq(8, l requires 0 <= l < 8 => blocks[l][8 * byte..8 * byte + 8])
  }

  /** The first `n` bits of lane `l`. */
  ghost function Prefix(w: Wires, l: nat, n: nat): (x: Bits)
    requires Shaped(w, BLOCK, 8) && l < 8 && n <= BLOCK
    ensures |x| == n
  {
    seq(n, i requires 0 <= i < n => w[i][l])
  }

  lemma NextByte(w: Wires, byte: nat, l: nat)
    requires Shaped(w, BLOCK, 8) && byte < 16 && l < 8
    ensures var t := Transpose(Flat8(w[8 * byte..8 * byte + 8]));
      Prefix(w, l, 8 * byte) + t[8 * l..8 * l + 8] == Prefix(w, l, 8 * byte + 8)
  {
    var rows := w[8 * byte..8 * byte + 8];
    var t := Transpose(Flat8(rows));
    hide Transpose;
    var part := t[8 * l..8 * l + 8];
    forall i: nat {:trigger part[i]} | i < 8 ensures part[i] == w[8 * byte + i][l] {
      TransposeBit(Flat8(rows), l, i);
      assert rows[i][l] == w[8 * byte + i][l];
    }
  }

  /** The lanes' blocks, gathered from the wires byte by byte. */
  method GatherLanes(w: Wires) returns (blocks: seq<Bits>)
    requires Shaped(w, BLOCK, 8)
    ensures |blocks| == 8 && forall l {:trigger blocks[l]} :: 0 <= l < 8 ==> blocks[l] == Column(w, 8, l)
  {
    blocks := seq(8, _ => []);
    for byte := 0 to 16
      invariant |blocks| == 8 && forall l {:trigger blocks[l]} :: 0 <= l < 8 ==> blocks[l] == Prefix(w, l, 8 * byte)
    {
      var t := Transpose(Flat8(w[8 * byte..8 * byte + 8]));
      ghost var was := blocks;
      blocks := Grown(blocks, t, 8 * byte);
      forall l {:trigger blocks[l]} | 0 <= l < 8 ensures blocks[l] == Prefix(w, l, 8 * byte + 8) {
        NextByte(w, byte, l);
        assert blocks[l] == was[l] + t[8 * l..8 * l + 8];
      }
    }
    forall l {:trigger blocks[l]} | 0 <= l < 8 ensures blocks[l] == Column(w, 8, l) {}
  }

  /** Each block with its next byte. */
  function Grown(blocks: seq<Bits>, t: Bits, n: nat): (r: seq<Bits>)
    requires |blocks| == 8 && |t| == 64 && forall l {:trigger blocks[l]} :: 0 <= l < 8 ==> |blocks[l]| == n
    ensures |r| == 8 && forall l {:trigger r[l]} :: 0 <= l < 8 ==> r[l] == blocks[l] + t[8 * l..8 * l + 8]
  {
    seq(8, l requires 0 <= l < 8 => blocks[l] + t[8 * l..8 * l + 8])
  }

  ghost predicate EightBlocks(blocks: seq<Bits>) {
    |blocks| == 8 && forall l {:trigger blocks[l]} :: 0 <= l < 8 ==> |blocks[l]| == BLOCK
  }

  /** Wire `i` of eight blocks. */
  ghost function RowAt(blocks: seq<Bits>, i: nat): (x: Bits)
    requires EightBlocks(blocks) && i < BLOCK
    ensures |x| == 8
  {
    seq(8, l requires 0 <= l < 8 => blocks[l][i])
  }

  lemma NextRows(blocks: seq<Bits>, byte: nat, i: nat)
    requires EightBlocks(blocks) && byte < 16 && i < 8
    ensures var t := Transpose(Flat8(ByteRows(blocks, byte))); t[8 * i..8 * i + 8] == RowAt(blocks, 8 * byte + i)
  {
    var rows := ByteRows(blocks, byte);
    var t := Transpose(Flat8(rows));
    hide Transpose;
    forall l: nat | l < 8 ensures t[8 * i..8 * i + 8][l] == blocks[l][8 * byte + i] {
      TransposeBit(Flat8(rows), i, l);
      assert rows[l][i] == blocks[l][8 * byte + i];
    }
  }

  /** The wires of eight blocks, byte by byte. */
  method ScatterLanes(blocks: seq<Bits>) returns (w: Wires)
    requires EightBlocks(blocks)
    ensures Shaped(w, BLOCK, 8) && forall l: nat {:trigger Column(w, 8, l)} :: l < 8 ==> Column(w, 8, l) == blocks[l]
  {
    w := [];
    for byte := 0 to 16
      invariant |w| == 8 * byte && forall i {:trigger w[i]} :: 0 <= i < 8 * byte ==> w[i] == RowAt(blocks, i)
    {
      var t := Transpose(Flat8(ByteRows(blocks, byte)));
      var rows := Chunks8(t);
      forall i {:trigger rows[i]} | 0 <= i < 8 ensures rows[i] == RowAt(blocks, 8 * byte + i) { NextRows(blocks, byte, i); }
      w := w + rows;
    }
    forall l: nat {:trigger Column(w, 8, l)} | l < 8 ensures Column(w, 8, l) == blocks[l] {
      forall i | 0 <= i < BLOCK ensures Column(w, 8, l)[i] == blocks[l][i] { assert w[i] == RowAt(blocks, i); }
    }
  }

  function Chunks8(t: Bits): (r: seq<Bits>)
    requires |t| == 64
    ensures |r| == 8 && forall i {:trigger r[i]} :: 0 <= i < 8 ==> r[i] == t[8 * i..8 * i + 8]
  {
    seq(8, i requires 0 <= i < 8 => t[8 * i..8 * i + 8])
  }

  /** `four_russians_into` on one component: the packed linear layer for each of the used lanes. */
  method FourRussiansInto(c: Cipher, round: nat, w: Wires, numLanes: nat) returns (output: Wires)
    requires Shaped(w, BLOCK, 8) && numLanes <= 8
    ensures Shaped(output, BLOCK, 8)
    ensures forall lane: nat {:trigger Column(output, 8, lane)} :: lane < numLanes ==> Column(output, 8, lane) == Linear(c, round, Column(w, 8, lane))
  {
    var blocks := GatherLanes(w);
    for lane := 0 to numLanes
      invariant |blocks| == 8 && forall l {:trigger blocks[l]} :: 0 <= l < 8 ==> |blocks[l]| == BLOCK
      invariant forall l {:trigger blocks[l]} :: 0 <= l < 8 ==> blocks[l] == if l < lane then Linear(c, round, Column(w, 8, l)) else Column(w, 8, l)
    {
      var mixed := Packed.LinearLayer(c, round, blocks[lane]);
      blocks := blocks[lane := mixed];
    }
    output := ScatterLanes(blocks);
  }

  // ------------------------------------------------------- a group of lanes

  /** Whole wires of 128 lanes, or eight lanes with a transposed linear layer. */
  datatype Form = Sliced | Bytes
  {
    function Lanes(): nat { if Sliced? then 128 else 8 }
  }

  method LinearComponent(form: Form, c: Cipher, round: nat, w: Wires, len: nat) returns (output: Wires)
    requires Shaped(w, BLOCK, form.Lanes()) && len <= form.Lanes()
    ensures Shaped(output, BLOCK, form.Lanes())
    ensures forall lane: nat {:trigger Column(output, form.Lanes(), lane)} :: lane < len ==>
      Column(output, form.Lanes(), lane) == Linear(c, round, Column(w, form.Lanes(), lane))
  {
    if form.Sliced? { output := FourRussians(c, round, w, 128); } else { output := FourRussiansInto(c, round, w, len); }
  }

  method LinearWires(form: Form, c: Cipher, round: nat, s: SharedWires, len: nat) returns (r: SharedWires)
    requires s.Sized(BLOCK, form.Lanes()) && len <= form.Lanes()
    ensures r.Sized(BLOCK, form.Lanes())
    ensures forall lane: nat {:trigger r.Lane(form.Lanes(), lane)} :: lane < len ==>
      r.Lane(form.Lanes(), lane).Open() == Linear(c, round, s.Lane(form.Lanes(), lane).Open())
  {
    var x := LinearComponent(form, c, round, s.w0, len);
    var y := LinearComponent(form, c, round, s.w1, len);
    var z := LinearComponent(form, c, round, s.w2, len);
    r := SharedWires(x, y, z);
    hide Linear;
    forall lane: nat {:trigger r.Lane(form.Lanes(), lane)} | lane < len
      ensures r.Lane(form.Lanes(), lane).Open() == Linear(c, round, s.Lane(form.Lanes(), lane).Open())
    {
      var t := s.Lane(form.Lanes(), lane);
      LinearPlus(c, round, t.x0, t.x1);
      LinearPlus(c, round, Plus(t.x0, t.x1), t.x2);
    }
  }

  function PlusWires(w: Wires, v: Wires): (r: Wires)
    requires |w| == |v| && forall i {:trigger w[i]} :: 0 <= i < |w| ==> |w[i]| == |v[i]|
    ensures |r| == |w|
  {
    seq(|w|, i requires 0 <= i < |w| => Plus(w[i], v[i]))
  }

  /** `add_round_key`. */
  function AddRoundKey(s: SharedWires, k: SharedWires): (r: SharedWires)
    requires |s.w0| == |k.w0| && |s.w1| == |k.w1| && |s.w2| == |k.w2|
    requires forall i {:trigger s.w0[i]} :: 0 <= i < |s.w0| ==> |s.w0[i]| == |k.w0[i]|
    requires forall i {:trigger s.w1[i]} :: 0 <= i < |s.w1| ==> |s.w1[i]| == |k.w1[i]|
    requires forall i {:trigger s.w2[i]} :: 0 <= i < |s.w2| ==> |s.w2[i]| == |k.w2[i]|
  {
    SharedWires(PlusWires(s.w0, k.w0), PlusWires(s.w1, k.w1), PlusWires(s.w2, k.w2))
  }

  lemma AddedKeyOpens(s: SharedWires, k: SharedWires, lanes: nat)
    requires s.Sized(BLOCK, lanes) && k.Sized(BLOCK, lanes)
    ensures AddRoundKey(s, k).Sized(BLOCK, lanes)
    ensures forall lane: nat {:trigger AddRoundKey(s, k).Lane(lanes, lane)} :: lane < lanes ==>
      AddRoundKey(s, k).Lane(lanes, lane).Open() == Plus(s.Lane(lanes, lane).Open(), k.Lane(lanes, lane).Open())
  {
  }

  /** `xor_constants` on the first component, in the active lanes. */
  function XorConstants(w: Wires, x: Bits, len: nat): (r: Wires)
    requires |w| == |x| == BLOCK
    ensures |r| == BLOCK
  {
    seq(BLOCK, i requires 0 <= i < BLOCK => seq(|w[i]|, j requires 0 <= j < |w[i]| => w[i][j] != (x[i] && j < len)))
  }

  lemma ConstantsOpen(s: SharedWires, x: Bits, len: nat, lanes: nat)
    requires s.Sized(BLOCK, lanes) && |x| == BLOCK && len <= lanes
    ensures var r := s.(w0 := XorConstants(s.w0, x, len));
      && r.Sized(BLOCK, lanes)
      && forall lane: nat {:trigger r.Lane(lanes, lane)} :: lane < len ==> r.Lane(lanes, lane).Open() == Plus(s.Lane(lanes, lane).Open(), x)
  {
  }

  ghost predicate LaneKeys(keys: seq<SharedWires>, lanes: nat) {
    |keys| == ROUNDS + 1 && forall r {:trigger keys[r]} :: 0 <= r < |keys| ==> keys[r].Sized(BLOCK, lanes)
  }

  /** The key of one lane. */
  ghost function LaneKey(keys: seq<SharedWires>, lanes: nat, lane: nat): (k: seq<Bits>)
    requires LaneKeys(keys, lanes) && lane < lanes
    ensures IsKey(k) && forall r {:trigger k[r]} :: 0 <= r < |k| ==> k[r] == keys[r].Lane(lanes, lane).Open()
  {
    seq(|keys|, r requires 0 <= r < |keys| => keys[r].Lane(lanes, lane).Open())
  }

  ghost predicate LanesAfter(c: Cipher, keys: seq<SharedWires>, input: SharedWires, s: SharedWires, lanes: nat, len: nat, round: nat) {
    && LaneKeys(keys, lanes) && input.Sized(BLOCK, lanes) && s.Sized(BLOCK, lanes) && len <= lanes && round <= ROUNDS
    && forall lane: nat {:trigger s.Lane(lanes, lane)} :: lane < len ==>
         s.Lane(lanes, lane).Open() == After(c, LaneKey(keys, lanes, lane), input.Lane(lanes, lane).Open(), round)
  }

  /** `encrypt_lane_groups` on one group: every active lane opens to the encryption of its block. */
  method EncryptGroup(form: Form, c: Cipher, input: SharedWires, keys: seq<SharedWires>, len: nat, draws: nat -> SharedWires) returns (s: SharedWires)
    requires input.Sized(BLOCK, form.Lanes()) && LaneKeys(keys, form.Lanes()) && len <= form.Lanes()
    requires forall r: nat {:trigger draws(r)} :: draws(r).Sized(3 * SBOXES, form.Lanes())
    ensures LanesAfter(c, keys, input, s, form.Lanes(), len, ROUNDS)
  {
    var lanes := form.Lanes();
    AddedKeyOpens(input, keys[0], lanes);
    s := AddRoundKey(input, keys[0]);
    for round := 0 to ROUNDS
      invariant LanesAfter(c, keys, input, s, lanes, len, round)
    {
      s := GroupRound(form, c, round, s, keys[round + 1], len, draws(round), input, keys);
    }
  }

  method GroupRound(form: Form, c: Cipher, round: nat, s: SharedWires, key: SharedWires, len: nat, m: SharedWires,
                    ghost input: SharedWires, ghost keys: seq<SharedWires>) returns (r: SharedWires)
    requires round < ROUNDS && LanesAfter(c, keys, input, s, form.Lanes(), len, round) && key == keys[round + 1]
    requires m.Sized(3 * SBOXES, form.Lanes())
    ensures LanesAfter(c, keys, input, r, form.Lanes(), len, round + 1)
  {
    var sboxed := SboxLayer(s, m, form.Lanes());
    r := FinishRound(form, c, round, sboxed, key, len, s, input, keys);
  }

  /** What follows the substitution in a round. */
  method FinishRound(form: Form, c: Cipher, round: nat, sboxed: SharedWires, key: SharedWires, len: nat,
                     ghost s: SharedWires, ghost input: SharedWires, ghost keys: seq<SharedWires>) returns (r: SharedWires)
    requires round < ROUNDS && LanesAfter(c, keys, input, s, form.Lanes(), len, round) && key == keys[round + 1]
    requires sboxed.Sized(BLOCK, form.Lanes())
    requires forall lane: nat {:trigger sboxed.Lane(form.Lanes(), lane)} :: lane < form.Lanes() ==>
      sboxed.Lane(form.Lanes(), lane).Open() == Sbox(s.Lane(form.Lanes(), lane).Open())
    ensures LanesAfter(c, keys, input, r, form.Lanes(), len, round + 1)
  {
    var lanes := form.Lanes();
    var mixed := LinearWires(form, c, round, sboxed, len);
    ConstantsOpen(mixed, c.Constant(round), len, lanes);
    var added := mixed.(w0 := XorConstants(mixed.w0, c.Constant(round), len));
    AddedKeyOpens(added, key, lanes);
    r := AddRoundKey(added, key);
    hide Sbox, Linear, AddRoundKey, XorConstants, Shaped, Column;
    forall lane: nat {:trigger r.Lane(lanes, lane)} | lane < len
      ensures r.Lane(lanes, lane).Open() == After(c, LaneKey(keys, lanes, lane), input.Lane(lanes, lane).Open(), round + 1)
    {
      assert s.Lane(lanes, lane).Open() == After(c, LaneKey(keys, lanes, lane), input.Lane(lanes, lane).Open(), round);
      assert sboxed.Lane(lanes, lane).Open() == Sbox(s.Lane(lanes, lane).Open());
      assert mixed.Lane(lanes, lane).Open() == Linear(c, round, sboxed.Lane(lanes, lane).Open());
      assert added.Lane(lanes, lane).Open() == Plus(mixed.Lane(lanes, lane).Open(), c.Constant(round));
    }
  }

  // ---------------------------------------------------------- many blocks

  /** Slicing all three components. */
  method SliceShared(blocks: seq<Shared>, lanes: nat) returns (s: SharedWires)
    requires |blocks| <= lanes && Packed.AllSized(blocks)
    ensures s.Sized(BLOCK, lanes) && forall j: nat {:trigger blocks[j]} :: j < |blocks| ==> s.Lane(lanes, j) == blocks[j]
  {
    var x := Slice(seq(|blocks|, j requires 0 <= j < |blocks| => blocks[j].x0), lanes);
    var y := Slice(seq(|blocks|, j requires 0 <= j < |blocks| => blocks[j].x1), lanes);
    var z := Slice(seq(|blocks|, j requires 0 <= j < |blocks| => blocks[j].x2), lanes);
    s := SharedWires(x, y, z);
    forall j: nat {:trigger blocks[j]} | j < |blocks| ensures s.Lane(lanes, j) == blocks[j] {
      assert seq(|blocks|, i requires 0 <= i < |blocks| => blocks[i].x0)[j] == blocks[j].x0;
      assert seq(|blocks|, i requires 0 <= i < |blocks| => blocks[i].x1)[j] == blocks[j].x1;
      assert seq(|blocks|, i requires 0 <= i < |blocks| => blocks[i].x2)[j] == blocks[j].x2;
    }
  }

  /** `combine_round_keys`, or the slicing of a chunk's keys: each lane's key in its lane. */
  method CombineKeys(keys: seq<seq<Shared>>, lanes: nat) returns (combined: seq<SharedWires>)
    requires |keys| <= lanes && Packed.AllKeys(keys)
    ensures LaneKeys(combined, lanes)
    ensures forall j: nat {:trigger keys[j]} :: j < |keys| ==> LaneKey(combined, lanes, j) == Packed.OpenKey(keys[j])
  {
    combined := [];
    for r := 0 to ROUNDS + 1
      invariant |combined| == r && forall q {:trigger combined[q]} :: 0 <= q < r ==> combined[q].Sized(BLOCK, lanes)
      invariant forall q: nat, j: nat {:trigger combined[q], keys[j]} :: q < r && j < |keys| ==> combined[q].Lane(lanes, j) == keys[j][q]
    {
      var blocks := seq(|keys|, j requires 0 <= j < |keys| => keys[j][r]);
      var wires := SliceShared(blocks, lanes);
      forall j: nat | j < |keys| ensures wires.Lane(lanes, j) == keys[j][r] { assert blocks[j] == keys[j][r]; }
      combined := combined + [wires];
    }
    forall j: nat {:trigger keys[j]} | j < |keys| ensures LaneKey(combined, lanes, j) == Packed.OpenKey(keys[j]) {
      forall q | 0 <= q < ROUNDS + 1 ensures LaneKey(combined, lanes, j)[q] == Packed.OpenKey(keys[j])[q] {
        assert combined[q].Lane(lanes, j) == keys[j][q];
      }
    }
  }

  /** The encryption of up to one group of blocks. */
  method EncryptFew(form: Form, c: Cipher, blocks: seq<Shared>, keys: seq<seq<Shared>>, draws: nat -> SharedWires) returns (outs: seq<Shared>)
    requires |blocks| == |keys| <= form.Lanes() && Packed.AllSized(blocks) && Packed.AllKeys(keys)
    requires forall r: nat {:trigger draws(r)} :: draws(r).Sized(3 * SBOXES, form.Lanes())
    ensures |outs| == |blocks| && Packed.AllSized(outs)
    ensures forall j {:trigger outs[j]} :: 0 <= j < |outs| ==> outs[j].Open() == Encrypt(c, Packed.OpenKey(keys[j]), blocks[j].Open())
  {
    var lanes := form.Lanes();
    var input := SliceShared(blocks, lanes);
    var combined := CombineKeys(keys, lanes);
    var s := EncryptGroup(form, c, input, combined, |blocks|, draws);
    var x := PackLanes(s.w0, |blocks|, lanes);
    var y := PackLanes(s.w1, |blocks|, lanes);
    var z := PackLanes(s.w2, |blocks|, lanes);
    outs := seq(|blocks|, j requires 0 <= j < |blocks| => Shared(x[j], y[j], z[j]));
    forall j {:trigger outs[j]} | 0 <= j < |outs| ensures outs[j].Sized(BLOCK) && outs[j].Open() == Encrypt(c, Packed.OpenKey(keys[j]), blocks[j].Open()) {
      assert outs[j] == s.Lane(lanes, j);
      assert input.Lane(lanes, j) == blocks[j] && LaneKey(combined, lanes, j) == Packed.OpenKey(keys[j]);
    }
  }

  /** Any number of blocks, one group of lanes after the other. */
  method EncryptMany(form: Form, c: Cipher, blocks: seq<Shared>, keys: seq<seq<Shared>>, draws: (nat, nat) -> SharedWires) returns (outs: seq<Shared>)
    requires |blocks| == |keys| && Packed.AllSized(blocks) && Packed.AllKeys(keys)
    requires forall g: nat, r: nat {:trigger draws(g, r)} :: draws(g, r).Sized(3 * SBOXES, form.Lanes())
    ensures |outs| == |blocks| && Packed.AllSized(outs)
    ensures forall j {:trigger outs[j]} :: 0 <= j < |outs| ==> outs[j].Open() == Encrypt(c, Packed.OpenKey(keys[j]), blocks[j].Open())
  {
    outs := [];
    var start: nat := 0;
    while start < |blocks|
      invariant start == |outs| <= |blocks| && Packed.AllSized(outs)
      invariant forall j {:trigger outs[j]} :: 0 <= j < |outs| ==> outs[j].Open() == Encrypt(c, Packed.OpenKey(keys[j]), blocks[j].Open())
      decreases |blocks| - start
    {
      var end := if start + form.Lanes() <= |blocks| then start + form.Lanes() else |blocks|;
      var g: nat := start / form.Lanes();
      var some := EncryptFew(form, c, blocks[start..end], keys[start..end], (r: nat) => draws(g, r));
      outs := outs + some;
      start := end;
    }
  }

  // -------------------------------------------------------- inputs by levels

  /** `tag` opens to the encryption of input `q` under the key of its lane for level `l`. */
  ghost predicate Encrypts(c: Cipher, grid: seq<seq<Shared>>, numLevels: nat, inputs: seq<Shared>, q: nat, l: nat, tag: Shared)
    requires |grid| == |inputs| * numLevels && Packed.AllSized(inputs) && Packed.AllKeys(grid) && q < |inputs| && l < numLevels
  {
    tag.Sized(BLOCK) && tag.Open() == Encrypt(c, Packed.OpenKey(grid[GridAt(q, l, numLevels, |inputs|)]), inputs[q].Open())
  }

  /** `encrypt_many_inputs_with_combined_keys`: every input under every level's key of its row of the grid. */
  method EncryptGrid(c: Cipher, grid: seq<seq<Shared>>, numLevels: nat, inputs: seq<Shared>, draws: (nat, nat) -> SharedWires)
    returns (tags: seq<seq<Shared>>)
    requires |grid| == |inputs| * numLevels && Packed.AllSized(inputs) && Packed.AllKeys(grid)
    requires forall g: nat, r: nat {:trigger draws(g, r)} :: draws(g, r).Sized(3 * SBOXES, 8)
    ensures |tags| == |inputs|
    ensures forall q {:trigger tags[q]} :: 0 <= q < |tags| ==> |tags[q]| == numLevels
    ensures forall q: nat, l: nat {:trigger tags[q][l]} :: q < |inputs| && l < numLevels ==> Encrypts(c, grid, numLevels, inputs, q, l, tags[q][l])
  {
    if numLevels == 0 || inputs == [] {
      tags := seq(|inputs|, _ => []);
      return;
    }
    var lanes := seq(|grid|, k requires 0 <= k < |grid| => LaneInput(inputs, numLevels, k));
    var outs := EncryptMany(Bytes, c, lanes, grid, draws);
    tags := Regroup(outs, numLevels, |inputs|);
    hide Encrypt, Packed.OpenKey, Shared.Open;
    forall q: nat, l: nat {:trigger tags[q][l]} | q < |inputs| && l < numLevels ensures Encrypts(c, grid, numLevels, inputs, q, l, tags[q][l]) {
      var k := GridAt(q, l, numLevels, |inputs|);
      assert lanes[k] == inputs[q] && tags[q][l] == outs[k];
    }
  }

  /** The lane of input `q` at level `l`. */
  function GridAt(q: nat, l: nat, numLevels: nat, numInputs: nat): (k: nat)
    requires q < numInputs && l < numLevels
    ensures k < numInputs * numLevels && k / numLevels == q && k % numLevels == l
  {
    GridFacts(q, l, numLevels, numInputs);
    q * numLevels + l
  }

  lemma GridFacts(q: nat, l: nat, numLevels: nat, numInputs: nat)
    requires q < numInputs && l < numLevels
    ensures q * numLevels + l < numInputs * numLevels
    ensures (q * numLevels + l) / numLevels == q && (q * numLevels + l) % numLevels == l
  {
    MulMono(q + 1, numInputs, numLevels);
    OneMore(q, numLevels);
    QuotientIs(q * numLevels + l, numLevels, q, l);
  }

  lemma OneMore(a: nat, n: nat)
    ensures (a + 1) * n == a * n + n
  {
  }

  /** The input of lane `k`. */
  function LaneInput(inputs: seq<Shared>, numLevels: nat, k: nat): (s: Shared)
    requires numLevels > 0 && k < |inputs| * numLevels
  {
    LaneRow(k, numLevels, |inputs|);
    inputs[k / numLevels]
  }

  lemma LaneRow(k: nat, numLevels: nat, numInputs: nat)
    requires numLevels > 0 && k < numInputs * numLevels
    ensures k / numLevels < numInputs
  {
    var a := k / numLevels;
    assert k >= a * numLevels;
    if a >= numInputs { MulMono(numInputs, a, numLevels); }
  }

  /** `regroup_tags_by_input`: the flat outputs, each pushed to the input its lane belongs to. */
  method Regroup(outs: seq<Shared>, numLevels: nat, numInputs: nat) returns (tags: seq<seq<Shared>>)
    requires numLevels > 0 && |outs| == numInputs * numLevels
    ensures |tags| == numInputs
    ensures forall q {:trigger tags[q]} :: 0 <= q < numInputs ==> |tags[q]| == numLevels
    ensures forall q: nat, l: nat {:trigger tags[q][l]} :: q < numInputs && l < numLevels ==> tags[q][l] == outs[GridAt(q, l, numLevels, numInputs)]
  {
    tags := seq(numInputs, _ => []);
    ghost var row, col := 0, 0;
    for k := 0 to |outs|
      invariant |tags| == numInputs && k == row * numLevels + col && col < numLevels && row <= numInputs
      invariant forall q {:trigger tags[q]} :: 0 <= q < numInputs ==> |tags[q]| == if q < row then numLevels else if q == row then col else 0
      invariant forall q: nat, l: nat {:trigger tags[q][l]} :: q < numInputs && l < |tags[q]| ==> l < numLevels && tags[q][l] == outs[GridAt(q, l, numLevels, numInputs)]
    {
      LaneRow(k, numLevels, numInputs);
      Unique(k, row, col, numLevels, numInputs);
      var q := k / numLevels;
      tags := tags[q := tags[q] + [outs[k]]];
      if col + 1 == numLevels { row, col := row + 1, 0; } else { col := col + 1; }
    }
    Unique2(row, col, numLevels, numInputs);
  }

  lemma Unique(k: nat, row: nat, col: nat, numLevels: nat, numInputs: nat)
    requires col < numLevels && k == row * numLevels + col && k < numInputs * numLevels
    ensures k / numLevels == row < numInputs && k == GridAt(row, col, numLevels, numInputs)
    ensures (row + 1) * numLevels == row * numLevels + numLevels
  {
    if row >= numInputs { MulMono(numInputs, row, numLevels); }
    GridFacts(row, col, numLevels, numInputs);
    OneMore(row, numLevels);
  }

  lemma Unique2(row: nat, col: nat, numLevels: nat, numInputs: nat)
    requires col < numLevels && row <= numInputs && row * numLevels + col == numInputs * numLevels
    ensures row == numInputs && col == 0
  {
    OneMore(row, numLevels);
    if row < numInputs { MulMono(row + 1, numInputs, numLevels); }
  }
}
