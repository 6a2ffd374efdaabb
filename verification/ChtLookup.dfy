/** The boolean circuit that looks a key up in two candidate blocks. */
module ChtLookup {
  import opened Words
  import opened Bits
  import opened Shares

  const TAG_BITS: nat := 96
  const INDEX_BITS: nat := 32

  /** What the lookup is for: the matching block's index, or the dummy's. */
  function Lookup(key: nat, b0: nat, b1: nat, dummy: nat): (r: (nat, bool)) {
    var m0, m1 := TagOf(key) == TagOf(b0), TagOf(key) == TagOf(b1);
    (if m0 then LowU32(b0) else if m1 then LowU32(b1) else dummy, m0 != m1)
  }

  // ------------------------------------------------------------------ circuit

  function TagsEqual(lhs: seq<bool>, rhs: seq<bool>): bool
    requires |lhs| == |rhs|
  {
    AndMany(seq(|lhs|, i requires 0 <= i < |lhs| => !(lhs[i] != rhs[i])))
  }

  function AndMany(bits: seq<bool>): bool
  {
    bits == [] || (AndMany(bits[..|bits| - 1]) && bits[|bits| - 1])
  }

  function MuxMany(condition: bool, truthy: seq<bool>, falsey: seq<bool>): (r: seq<bool>)
    requires |truthy| == |falsey|
    ensures |r| == |truthy|
  {
    seq(|truthy|, i requires 0 <= i < |truthy| => if condition then truthy[i] else falsey[i])
  }

  /** `evaluate_lookup_circuit` on the wires of the two input bundles. */
  function Circuit(x01: seq<bool>, x2: seq<bool>): (output: seq<bool>)
    requires |x01| == |x2| == 384
    ensures |output| == INDEX_BITS + 1
  {
    var inputs := seq(384, i requires 0 <= i < 384 => x01[i] != x2[i]);
    var (keyTag, b0Index) := (inputs[..96], inputs[96..128]);
    var (b0Tag, b1Index) := (inputs[128..224], inputs[224..256]);
    var (b1Tag, dummyIndex) := (inputs[256..352], inputs[352..384]);
    var keyEqualsB0 := TagsEqual(keyTag, b0Tag);
    var keyEqualsB1 := TagsEqual(keyTag, b1Tag);
    var b1OrDummy := MuxMany(keyEqualsB1, b1Index, dummyIndex);
    MuxMany(keyEqualsB0, b0Index, b1OrDummy) + [keyEqualsB0 != keyEqualsB1]
  }

  /** `pack_tag_and_index` on one component: the tag below, the index above. */
  function PackTagAndIndex(tag: nat, index: nat): nat { TagOf(tag) + LowU32(index) * TWO96 }

  /** `pack_lookup_inputs` on one component of the shares. */
  function Packed(key: nat, b0: nat, b1: nat, dummy: nat): (words: seq<nat>)
    ensures |words| == 3
  {
    [PackTagAndIndex(key, b0), PackTagAndIndex(b0, b1), PackTagAndIndex(b1, dummy)]
  }

  function Wires(words: seq<nat>): (wires: seq<bool>)
    ensures |wires| == 128 * |words|
  {
    seq(128 * |words|, i requires 0 <= i < 128 * |words| => Bit(words[i / 128], i % 128))
  }

  // ------------------------------------------------------------- correctness

  lemma {:induction false} AndManyAll(bits: seq<bool>)
    ensures AndMany(bits) <==> forall i :: 0 <= i < |bits| ==> bits[i]
  {
    if bits != [] { AndManyAll(bits[..|bits| - 1]); }
  }

  lemma PackBit(tag: nat, index: nat, j: nat)
    requires tag < Pow2(128) && j < 128
    ensures Bit(PackTagAndIndex(tag, index), j) == if j < 96 then Bit(tag, j + 32) else Bit(index, j - 96)
  {
    hide *;
    PackedSum(tag, index);
    BitJoin(TagOf(tag), LowU32(index), 96, j);
    if j < 96 { TagBit(tag, j); } else { LowBit(index, j - 96); }
  }

  lemma PackedSum(tag: nat, index: nat)
    requires tag < Pow2(128)
    ensures PackTagAndIndex(tag, index) == TagOf(tag) + LowU32(index) * Pow2(96) && TagOf(tag) < Pow2(96)
  {
    hide Pow2;
    PowersOf32();
  }

  lemma TagBit(tag: nat, j: nat)
    ensures Bit(TagOf(tag), j) == Bit(tag, j + 32)
  {
    hide Pow2, Bit;
    PowersOf32();
    BitShift(tag, 32, TagOf(tag), j);
  }

  lemma LowBit(index: nat, j: nat)
    requires j < 32
    ensures Bit(LowU32(index), j) == Bit(index, j)
  {
    hide Pow2, Bit;
    PowersOf32();
    BitLow(index, 32, j);
  }

  /** The three components of a shared block. */
  datatype Trio = Trio(x0: nat, x1: nat, x2: nat)
  {
    function Open(): nat { Xor3(x0, x1, x2) }

    ghost predicate Narrow() { x0 < Pow2(128) && x1 < Pow2(128) && x2 < Pow2(128) }
  }

  /** The words of party 1, which sends both its components, and of party 2. */
  function Sent(key: Trio, b0: Trio, b1: Trio, dummy: Trio): (r: (seq<nat>, seq<nat>))
    ensures |r.0| == |r.1| == 3
  {
    (Xored(Packed(key.x1, b0.x1, b1.x1, dummy.x1), Packed(key.x0, b0.x0, b1.x0, dummy.x0)),
     Packed(key.x2, b0.x2, b1.x2, dummy.x2))
  }

  /** A wire of the circuit carries the opened bit. */
  lemma WireOpens(tag: Trio, index: Trio, j: nat)
    requires tag.Narrow() && j < 128
    ensures (Bit(Xor(PackTagAndIndex(tag.x1, index.x1), PackTagAndIndex(tag.x0, index.x0)), j) != Bit(PackTagAndIndex(tag.x2, index.x2), j))
         == if j < 96 then Bit(tag.Open(), j + 32) else Bit(index.Open(), j - 96)
  {
    BitXor(PackTagAndIndex(tag.x1, index.x1), PackTagAndIndex(tag.x0, index.x0), j);
    PackBit(tag.x0, index.x0, j);
    PackBit(tag.x1, index.x1, j);
    PackBit(tag.x2, index.x2, j);
    hide PackTagAndIndex, Xor, Bit;
    var t, i := if j < 96 then tag else index, if j < 96 then j + 32 else j - 96;
    BitXor(t.x0, t.x1, i);
    BitXor(Xor(t.x0, t.x1), t.x2, i);
  }

  /** The 128 bits of one packed word: a tag below the next block's index. */
  ghost predicate Carries(bits: seq<bool>, tag: nat, index: nat) {
    && |bits| == 128
    && forall j :: 0 <= j < 128 ==> bits[j] == if j < 96 then Bit(tag, j + 32) else Bit(index, j - 96)
  }

  /** Comparing the tag bits compares the tags. */
  lemma TagsDecide(x: seq<bool>, y: seq<bool>, key: nat, block: nat)
    requires |x| == |y| == 96 && key < Pow2(128) && block < Pow2(128)
    requires forall j :: 0 <= j < 96 ==> x[j] == Bit(key, j + 32)
    requires forall j :: 0 <= j < 96 ==> y[j] == Bit(block, j + 32)
    ensures TagsEqual(x, y) <==> TagOf(key) == TagOf(block)
  {
    hide Pow2, Bit, AndMany;
    PowersOf32();
    BitsDecide(TagOf(key), TagOf(block), 96);
    forall j: nat ensures Bit(TagOf(key), j) == Bit(key, j + 32) && Bit(TagOf(block), j) == Bit(block, j + 32) {
      BitShift(key, 32, TagOf(key), j);
      BitShift(block, 32, TagOf(block), j);
    }
    var same := seq(96, i requires 0 <= i < 96 => !(x[i] != y[i]));
    AndManyAll(same);
    assert TagsEqual(x, y) == AndMany(same);
    hide TagsEqual;
    if forall i :: 0 <= i < 96 ==> same[i] {
      forall i | 0 <= i < 96 ensures Bit(TagOf(key), i) == Bit(TagOf(block), i) { assert same[i]; }
    }
    if forall i :: 0 <= i < 96 ==> Bit(TagOf(key), i) == Bit(TagOf(block), i) {
      forall i | 0 <= i < 96 ensures same[i] { assert Bit(TagOf(key), i) == Bit(TagOf(block), i); }
    }
  }

  /** The index bits a block shows. */
  function IndexBits(x: nat): (r: seq<bool>)
    ensures |r| == INDEX_BITS
  {
    seq(INDEX_BITS, i requires 0 <= i < INDEX_BITS => Bit(x, i))
  }

  lemma LowBits(x: nat)
    ensures IndexBits(LowU32(x)) == IndexBits(x)
  {
    hide Pow2, Bit;
    PowersOf32();
    forall i | 0 <= i < 32 ensures Bit(LowU32(x), i) == Bit(x, i) { BitLow(x, 32, i); }
  }

  lemma OpenNarrow(t: Trio)
    requires t.Narrow()
    ensures t.Open() < Pow2(128)
  {
    XorBound(t.x0, t.x1, 128);
    XorBound(Xor(t.x0, t.x1), t.x2, 128);
  }

  lemma WordCarries(tag: Trio, index: Trio, a: nat, b: nat, bits: seq<bool>)
    requires tag.Narrow() && |bits| == 128
    requires a == Xor(PackTagAndIndex(tag.x1, index.x1), PackTagAndIndex(tag.x0, index.x0)) && b == PackTagAndIndex(tag.x2, index.x2)
    requires forall j :: 0 <= j < 128 ==> bits[j] == (Bit(a, j) != Bit(b, j))
    ensures Carries(bits, tag.Open(), index.Open())
  {
    hide PackTagAndIndex, Xor, Bit;
    forall j | 0 <= j < 128 ensures bits[j] == if j < 96 then Bit(tag.Open(), j + 32) else Bit(index.Open(), j - 96) {
      WireOpens(tag, index, j);
    }
  }

  lemma InputsCarry(key: Trio, b0: Trio, b1: Trio, dummy: Trio, inputs: seq<bool>)
    requires key.Narrow() && b0.Narrow() && b1.Narrow()
    requires var (w01, w2) := Sent(key, b0, b1, dummy);
      |inputs| == 384 && forall i :: 0 <= i < 384 ==> inputs[i] == (Wires(w01)[i] != Wires(w2)[i])
    ensures Carries(inputs[..128], key.Open(), b0.Open())
    ensures Carries(inputs[128..256], b0.Open(), b1.Open())
    ensures Carries(inputs[256..], b1.Open(), dummy.Open())
  {
    hide PackTagAndIndex, Xor, Bit;
    var (w01, w2) := Sent(key, b0, b1, dummy);
    forall j | 0 <= j < 128 ensures inputs[..128][j] == (Bit(w01[0], j) != Bit(w2[0], j)) { assert j / 128 == 0; }
    forall j | 0 <= j < 128 ensures inputs[128..256][j] == (Bit(w01[1], j) != Bit(w2[1], j)) { assert (128 + j) / 128 == 1; }
    forall j | 0 <= j < 128 ensures inputs[256..][j] == (Bit(w01[2], j) != Bit(w2[2], j)) { assert (256 + j) / 128 == 2; }
    WordCarries(key, b0, w01[0], w2[0], inputs[..128]);
    WordCarries(b0, b1, w01[1], w2[1], inputs[128..256]);
    WordCarries(b1, dummy, w01[2], w2[2], inputs[256..]);
  }

  /** For all sharings of the blocks, the circuit outputs the index bits of the looked-up block, or of the
      dummy, and whether exactly one of the candidates has the key's tag. */
  lemma CircuitLooksUp(key: Trio, b0: Trio, b1: Trio, dummy: Trio)
    requires key.Narrow() && b0.Narrow() && b1.Narrow()
    ensures
      var (w01, w2) := Sent(key, b0, b1, dummy);
      var (index, found) := Lookup(key.Open(), b0.Open(), b1.Open(), dummy.Open());
      Circuit(Wires(w01), Wires(w2)) == IndexBits(index) + [found]
  {
    hide *;
    var (w01, w2) := Sent(key, b0, b1, dummy);
    var x01, x2 := Wires(w01), Wires(w2);
    var inputs := seq(384, i requires 0 <= i < 384 => x01[i] != x2[i]);
    InputsCarry(key, b0, b1, dummy, inputs);
    OpenNarrow(key);
    OpenNarrow(b0);
    OpenNarrow(b1);
    ThreeWords(inputs, key.Open(), b0.Open(), b1.Open(), dummy.Open());
    TagsDecide(inputs[..96], inputs[128..224], key.Open(), b0.Open());
    TagsDecide(inputs[..96], inputs[256..352], key.Open(), b1.Open());
    LowBits(b0.Open());
    LowBits(b1.Open());
    CircuitIs(x01, x2, inputs);
    LookupIs(key.Open(), b0.Open(), b1.Open(), dummy.Open());
  }

  lemma LookupIs(key: nat, b0: nat, b1: nat, dummy: nat)
    ensures Lookup(key, b0, b1, dummy) ==
      (if TagOf(key) == TagOf(b0) then LowU32(b0) else if TagOf(key) == TagOf(b1) then LowU32(b1) else dummy,
       (TagOf(key) == TagOf(b0)) != (TagOf(key) == TagOf(b1)))
  {
  }

  /** The circuit on the exclusive or of its inputs. */
  lemma CircuitIs(x01: seq<bool>, x2: seq<bool>, inputs: seq<bool>)
    requires |x01| == |x2| == |inputs| == 384 && forall i {:trigger inputs[i]} :: 0 <= i < 384 ==> inputs[i] == (x01[i] != x2[i])
    ensures var e0, e1 := TagsEqual(inputs[..96], inputs[128..224]), TagsEqual(inputs[..96], inputs[256..352]);
      Circuit(x01, x2) == (if e0 then inputs[96..128] else if e1 then inputs[224..256] else inputs[352..384]) + [e0 != e1]
  {
    assert inputs == seq(384, i requires 0 <= i < 384 => x01[i] != x2[i]);
    var e0, e1 := TagsEqual(inputs[..96], inputs[128..224]), TagsEqual(inputs[..96], inputs[256..352]);
    hide TagsEqual;
    MuxPicks(e1, inputs[224..256], inputs[352..384]);
    MuxPicks(e0, inputs[96..128], MuxMany(e1, inputs[224..256], inputs[352..384]));
    hide MuxMany;
  }

  /** Where the circuit's wires find the opened tags and indices. */
  lemma ThreeWords(inputs: seq<bool>, key: nat, b0: nat, b1: nat, dummy: nat)
    requires |inputs| == 384
    requires Carries(inputs[..128], key, b0) && Carries(inputs[128..256], b0, b1) && Carries(inputs[256..], b1, dummy)
    ensures forall j :: 0 <= j < 96 ==> inputs[..96][j] == Bit(key, j + 32)
    ensures forall j :: 0 <= j < 96 ==> inputs[128..224][j] == Bit(b0, j + 32)
    ensures forall j :: 0 <= j < 96 ==> inputs[256..352][j] == Bit(b1, j + 32)
    ensures inputs[96..128] == IndexBits(b0) && inputs[224..256] == IndexBits(b1) && inputs[352..384] == IndexBits(dummy)
  {
    hide Carries, Bit, IndexBits;
    SplitWord(inputs[..128], key, b0);
    SplitWord(inputs[128..256], b0, b1);
    SplitWord(inputs[256..], b1, dummy);
    assert inputs[..128][..96] == inputs[..96] && inputs[..128][96..] == inputs[96..128];
    assert inputs[128..256][..96] == inputs[128..224] && inputs[128..256][96..] == inputs[224..256];
    assert inputs[256..][..96] == inputs[256..352] && inputs[256..][96..] == inputs[352..384];
  }

  lemma MuxPicks(condition: bool, truthy: seq<bool>, falsey: seq<bool>)
    requires |truthy| == |falsey|
    ensures MuxMany(condition, truthy, falsey) == if condition then truthy else falsey
  {
  }

  lemma SplitWord(bits: seq<bool>, tag: nat, index: nat)
    requires Carries(bits, tag, index)
    ensures forall j :: 0 <= j < 96 ==> bits[..96][j] == Bit(tag, j + 32)
    ensures bits[96..] == IndexBits(index)
  {
    hide Bit;
    forall j | 0 <= j < 32 ensures bits[96..][j] == IndexBits(index)[j] { assert bits[96 + j] == Bit(index, j); }
  }
}
