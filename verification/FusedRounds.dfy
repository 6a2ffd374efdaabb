/** The cipher's rounds with the cache query inside: one vector of products a round, for all groups of lanes and
    for the zero test. */
module FusedRounds {
  import opened SharedBits
  import opened LowMc
  import opened LaneLowMc
  import opened ZeroTest
  import opened FusedQueries
  import Packed = PackedLowMc

  /** Each group of eight byte lanes after `round` rounds. */
  ghost predicate GroupsAfter(c: Cipher, keys: seq<seq<SharedWires>>, inputs: seq<SharedWires>, states: seq<SharedWires>, lens: seq<nat>, round: nat) {
    && |states| == |inputs| == |keys| == |lens|
    && forall g {:trigger states[g]} :: 0 <= g < |states| ==> LanesAfter(c, keys[g], inputs[g], states[g], 8, lens[g], round)
  }

  ghost predicate GroupsSized(states: seq<SharedWires>) {
    forall g {:trigger states[g]} :: 0 <= g < |states| ==> states[g].Sized(BLOCK, 8)
  }

  ghost predicate GroupKeys(keys: seq<seq<SharedWires>>, lens: seq<nat>) {
    |keys| == |lens| && forall g {:trigger keys[g]} {:trigger lens[g]} :: 0 <= g < |keys| ==> LaneKeys(keys[g], 8) && lens[g] <= 8
  }

  /** The factors of group `g` stand together in the vectors of all groups. */
  ghost predicate FactorsAt(s: SharedWires, g: nat, lhs: seq<Shared>, rhs: seq<Shared>)
    requires s.Sized(BLOCK, 8)
  {
    && 3 * SBOXES * g + 3 * SBOXES <= |lhs| == |rhs|
    && forall k: nat {:trigger Wire(s, LeftWire(k))} {:trigger Wire(s, RightWire(k))} :: k < 3 * SBOXES ==>
         lhs[3 * SBOXES * g + k] == Wire(s, LeftWire(k)) && rhs[3 * SBOXES * g + k] == Wire(s, RightWire(k))
  }

  method CollectGroups(states: seq<SharedWires>) returns (lhs: seq<Shared>, rhs: seq<Shared>)
    requires GroupsSized(states)
    ensures |lhs| == |rhs| == 3 * SBOXES * |states| && AllOf(lhs, 8) && AllOf(rhs, 8)
    ensures forall g {:trigger states[g]} :: 0 <= g < |states| ==> FactorsAt(states[g], g, lhs, rhs)
  {
    lhs, rhs := [], [];
    hide FactorsAt, AllOf, Wire, LeftWire, RightWire;
    EmptyOf(8);
    for i := 0 to |states|
      invariant |lhs| == |rhs| == 3 * SBOXES * i && AllOf(lhs, 8) && AllOf(rhs, 8)
      invariant forall g {:trigger states[g]} :: 0 <= g < i ==> FactorsAt(states[g], g, lhs, rhs)
    {
      var l, r := CollectShared(states[i], 8);
      AllOfJoin(lhs, l, 8);
      AllOfJoin(rhs, r, 8);
      forall g {:trigger states[g]} | 0 <= g < i ensures FactorsAt(states[g], g, lhs + l, rhs + r) { FactorsJoin(states[g], g, lhs, rhs, l, r); }
      FactorsAdded(states[i], i, lhs, rhs, l, r);
      lhs, rhs := lhs + l, rhs + r;
    }
  }

  lemma EmptyOf(n: nat)
    ensures AllOf([], n)
  {
  }

  lemma FactorsAdded(s: SharedWires, g: nat, lhs: seq<Shared>, rhs: seq<Shared>, l: seq<Shared>, r: seq<Shared>)
    requires s.Sized(BLOCK, 8) && |lhs| == |rhs| == 3 * SBOXES * g && |l| == |r| == 3 * SBOXES
    requires forall k {:trigger l[k]} {:trigger r[k]} :: 0 <= k < 3 * SBOXES ==> l[k] == Wire(s, LeftWire(k)) && r[k] == Wire(s, RightWire(k))
    ensures FactorsAt(s, g, lhs + l, rhs + r)
  {
    hide Wire, LeftWire, RightWire;
    forall k: nat | k < 3 * SBOXES
      ensures (lhs + l)[3 * SBOXES * g + k] == Wire(s, LeftWire(k)) && (rhs + r)[3 * SBOXES * g + k] == Wire(s, RightWire(k))
    {
      assert (lhs + l)[3 * SBOXES * g + k] == l[k] && (rhs + r)[3 * SBOXES * g + k] == r[k];
    }
  }

  lemma AllOfJoin(a: seq<Shared>, b: seq<Shared>, n: nat)
    requires AllOf(a, n) && AllOf(b, n)
    ensures AllOf(a + b, n)
  {
  }

  lemma AllOfSlice(a: seq<Shared>, lo: nat, hi: nat, n: nat)
    requires AllOf(a, n) && lo <= hi <= |a|
    ensures AllOf(a[lo..hi], n)
  {
  }

  /** A slice of a vector of products is the products of the slices. */
  lemma ProductsSlice(lhs: seq<Shared>, rhs: seq<Shared>, masks: seq<Shared>, n: nat, lo: nat, hi: nat)
    requires |lhs| == |rhs| == |masks| && AllOf(lhs, n) && AllOf(rhs, n) && AllOf(masks, n) && lo <= hi <= |lhs|
    ensures AllOf(lhs[lo..hi], n) && AllOf(rhs[lo..hi], n) && AllOf(masks[lo..hi], n)
    ensures Products(lhs, rhs, masks, n)[lo..hi] == Products(lhs[lo..hi], rhs[lo..hi], masks[lo..hi], n)
  {
    hide AndShared;
  }

  /** The products that belong to group `g` are the ones it needs. */
  lemma GroupMultiplies(s: SharedWires, g: nat, lhs: seq<Shared>, rhs: seq<Shared>, masks: seq<Shared>)
    requires s.Sized(BLOCK, 8) && |lhs| == |rhs| == |masks| && AllOf(lhs, 8) && AllOf(rhs, 8) && AllOf(masks, 8) && FactorsAt(s, g, lhs, rhs)
    ensures 3 * SBOXES * g + 3 * SBOXES <= |lhs|
    ensures Multiplies(s, Products(lhs, rhs, masks, 8)[3 * SBOXES * g..3 * SBOXES * g + 3 * SBOXES], 8)
  {
    var lo := 3 * SBOXES * g;
    var hi := lo + 3 * SBOXES;
    ProductsSlice(lhs, rhs, masks, 8, lo, hi);
    ProductsOpen(lhs[lo..hi], rhs[lo..hi], masks[lo..hi], 8);
    hide Wire, LeftWire, RightWire, AndShared, Products, And, Shared.Open, Multiplies;
    forall k: nat | k < 3 * SBOXES ensures lhs[lo..hi][k] == Wire(s, LeftWire(k)) && rhs[lo..hi][k] == Wire(s, RightWire(k)) {
      assert lhs[lo + k] == Wire(s, LeftWire(k));
    }
    ProductsMultiply(s, lhs[lo..hi], rhs[lo..hi], Products(lhs, rhs, masks, 8)[lo..hi], 8);
  }

  lemma FactorsJoin(s: SharedWires, g: nat, lhs: seq<Shared>, rhs: seq<Shared>, l: seq<Shared>, r: seq<Shared>)
    requires s.Sized(BLOCK, 8) && FactorsAt(s, g, lhs, rhs) && |l| == |r|
    ensures FactorsAt(s, g, lhs + l, rhs + r)
  {
    hide Wire, LeftWire, RightWire;
  }

  /** The zero test's values keep up with the cipher for its first five rounds. */
  ghost predicate ZeroAt(xs: seq<Bits>, z: ZeroValues, round: nat) {
    Words32(xs) && AtRound(xs, z, if round < 5 then round else 5)
  }

  /** One round of all groups and, while it lasts, of the zero test. */
  method FusedRound(c: Cipher, round: nat, states: seq<SharedWires>, keys: seq<seq<SharedWires>>, lens: seq<nat>, z: ZeroValues,
                    draws: (nat, nat) -> Shared, ghost inputs: seq<SharedWires>, ghost xs: seq<Bits>)
    returns (next: seq<SharedWires>, z1: ZeroValues)
    requires round < ROUNDS && GroupsAfter(c, keys, inputs, states, lens, round) && ZeroAt(xs, z, round)
    requires forall r: nat, i: nat {:trigger draws(r, i)} :: draws(r, i).Sized(8)
    ensures GroupsAfter(c, keys, inputs, next, lens, round + 1) && ZeroAt(xs, z1, round + 1)
  {
    assert GroupsSized(states);
    hide LanesAfter, AtRound, Pairs, Apply, Products, Multiplies, FactorsAt;
    var lhs, rhs := CollectGroups(states);
    var sboxAnds := |lhs|;
    var extraL, extraR := [], [];
    if round < 5 {
      BytewiseAt(xs, z, round);
      extraL, extraR := PairsInto(z, round);
    }
    AllOfJoin(lhs, extraL, 8);
    AllOfJoin(rhs, extraR, 8);
    var (l, r) := (lhs + extraL, rhs + extraR);
    var masks := Drawn(draws, round, |l|);
    var ands := Products(l, r, masks, 8);
    if round < 5 {
      ProductsSlice(l, r, masks, 8, sboxAnds, |l|);
      assert l[sboxAnds..|l|] == extraL && r[sboxAnds..|l|] == extraR && ands[sboxAnds..|l|] == ands[sboxAnds..];
      RoundStep(xs, z, round, masks[sboxAnds..|l|]);
      z1 := Apply(ands[sboxAnds..], round);
    } else {
      z1 := z;
    }
    next := ApplyGroups(c, round, states, keys, lens, ands, l, r, masks, lhs, rhs, inputs);
  }

  lemma BytewiseAt(xs: seq<Bits>, z: ZeroValues, round: nat)
    requires ZeroAt(xs, z, round) && round < 5
    ensures Bytewise(z) && AllOf(Pairs(z, round).0, 8) && AllOf(Pairs(z, round).1, 8) && |Pairs(z, round).0| == |Pairs(z, round).1|
  {
  }

  /** Every group takes its own slice of the products. */
  method ApplyGroups(c: Cipher, round: nat, states: seq<SharedWires>, keys: seq<seq<SharedWires>>, lens: seq<nat>, ands: seq<Shared>,
                     ghost l: seq<Shared>, ghost r: seq<Shared>, ghost masks: seq<Shared>, ghost lhs: seq<Shared>, ghost rhs: seq<Shared>,
                     ghost inputs: seq<SharedWires>)
    returns (next: seq<SharedWires>)
    requires round < ROUNDS && GroupsAfter(c, keys, inputs, states, lens, round) && GroupsSized(states)
    requires |l| == |r| == |masks| && AllOf(l, 8) && AllOf(r, 8) && AllOf(masks, 8) && ands == Products(l, r, masks, 8)
    requires |lhs| == |rhs| <= |l| && l[..|lhs|] == lhs && r[..|rhs|] == rhs
    requires forall g {:trigger states[g]} :: 0 <= g < |states| ==> FactorsAt(states[g], g, lhs, rhs)
    ensures GroupsAfter(c, keys, inputs, next, lens, round + 1)
  {
    hide LanesAfter, Products, Multiplies, FactorsAt;
    next := [];
    for g := 0 to |states|
      invariant |next| == g
      invariant forall i {:trigger next[i]} :: 0 <= i < g ==> LanesAfter(c, keys[i], inputs[i], next[i], 8, lens[i], round + 1)
    {
      assert LanesAfter(c, keys[g], inputs[g], states[g], 8, lens[g], round);
      assert l == lhs + l[|lhs|..] && r == rhs + r[|rhs|..];
      FactorsJoin(states[g], g, lhs, rhs, l[|lhs|..], r[|rhs|..]);
      GroupMultiplies(states[g], g, l, r, masks);
      var sboxed := ApplyShared(states[g], ands[3 * SBOXES * g..3 * SBOXES * g + 3 * SBOXES], 8);
      KeyOf(c, keys[g], inputs[g], states[g], lens[g], round);
      var state := FinishRound(Form.Bytes, c, round, sboxed, keys[g][round + 1], lens[g], states[g], inputs[g], keys[g]);
      next := next + [state];
    }
  }

  lemma KeyOf(c: Cipher, keys: seq<SharedWires>, input: SharedWires, s: SharedWires, len: nat, round: nat)
    requires LanesAfter(c, keys, input, s, 8, len, round)
    ensures |keys| == ROUNDS + 1 && Form.Bytes.Lanes() == 8
  {
  }

  /** `encrypt_lane_groups` with the zero test: after all rounds the groups are encrypted, and for all masks the found
      bits open to whether their words are zero. */
  method EncryptLaneGroups(c: Cipher, groups: seq<SharedWires>, keys: seq<seq<SharedWires>>, lens: seq<nat>, zeroInputs: seq<Shared>,
                           draws: (nat, nat) -> Shared)
    returns (states: seq<SharedWires>, found: seq<Shared>)
    requires |groups| == |keys| == |lens| && GroupsSized(groups)
    requires GroupKeys(keys, lens)
    requires AllOf(zeroInputs, 32)
    requires forall r: nat, i: nat {:trigger draws(r, i)} :: draws(r, i).Sized(8)
    ensures GroupsAfter(c, keys, groups, states, lens, ROUNDS)
    ensures |found| == |zeroInputs| && forall j {:trigger found[j]} :: 0 <= j < |found| ==> Decides(found[j], zeroInputs[j])
  {
    states := AddFirstKeys(c, groups, keys, lens);
    var z := Start(zeroInputs);
    ghost var xs := Complements(zeroInputs);
    hide GroupsAfter, ZeroAt;
    for round := 0 to ROUNDS
      invariant GroupsAfter(c, keys, groups, states, lens, round) && ZeroAt(xs, z, round)
    {
      states, z := FusedRound(c, round, states, keys, lens, z, draws, groups, xs);
    }
    ZeroDone(xs, z);
    found := FoundBits(zeroInputs, z);
  }

  method AddFirstKeys(c: Cipher, groups: seq<SharedWires>, keys: seq<seq<SharedWires>>, lens: seq<nat>) returns (states: seq<SharedWires>)
    requires |groups| == |keys| == |lens| && GroupsSized(groups)
    requires GroupKeys(keys, lens)
    ensures GroupsAfter(c, keys, groups, states, lens, 0)
  {
    states := [];
    for g := 0 to |groups|
      invariant |states| == g
      invariant forall i {:trigger states[i]} :: 0 <= i < g ==> LanesAfter(c, keys[i], groups[i], states[i], 8, lens[i], 0)
    {
      assert LaneKeys(keys[g], 8) && lens[g] <= 8 && groups[g].Sized(BLOCK, 8);
      AddedKeyOpens(groups[g], keys[g][0], 8);
      FirstKey(c, groups[g], keys[g], lens[g]);
      hide LanesAfter;
      states := states + [AddRoundKey(groups[g], keys[g][0])];
    }
  }

  lemma FirstKey(c: Cipher, group: SharedWires, keys: seq<SharedWires>, len: nat)
    requires LaneKeys(keys, 8) && len <= 8 && group.Sized(BLOCK, 8)
    ensures LanesAfter(c, keys, group, AddRoundKey(group, keys[0]), 8, len, 0)
  {
    AddedKeyOpens(group, keys[0], 8);
    hide AddRoundKey;
  }

  lemma ZeroDone(xs: seq<Bits>, z: ZeroValues)
    requires ZeroAt(xs, z, ROUNDS)
    ensures Words32(xs) && AtRound(xs, z, 5)
  {
  }

  // --------------------------------------------------------------- whole calls

  /** The first lane of group `g`. */
  function From(g: nat): nat { 8 * g }

  ghost predicate GroupOf(blocks: seq<Shared>, keys: seq<seq<Shared>>, g: nat, input: SharedWires, combined: seq<SharedWires>, len: nat)
    requires |blocks| == |keys| && Packed.AllSized(blocks) && Packed.AllKeys(keys)
  {
    && 1 <= len <= 8 && From(g) + len <= |blocks| && input.Sized(BLOCK, 8) && LaneKeys(combined, 8)
    && forall j: nat {:trigger input.Lane(8, j)} :: j < len ==>
         input.Lane(8, j) == blocks[From(g) + j] && LaneKey(combined, 8, j) == Packed.OpenKey(keys[From(g) + j])
  }

  ghost predicate Grouped(blocks: seq<Shared>, keys: seq<seq<Shared>>, inputs: seq<SharedWires>, combined: seq<seq<SharedWires>>, lens: seq<nat>, done: nat)
    requires |blocks| == |keys| && Packed.AllSized(blocks) && Packed.AllKeys(keys)
  {
    && |inputs| == |combined| == |lens| && done <= |blocks| && done <= From(|lens|)
    && (|lens| > 0 ==> done == From(|lens| - 1) + lens[|lens| - 1]) && (|lens| == 0 ==> done == 0)
    && (forall g {:trigger lens[g]} :: 0 <= g < |lens| - 1 ==> lens[g] == 8)
    && (forall g {:trigger inputs[g]} :: 0 <= g < |inputs| ==> GroupOf(blocks, keys, g, inputs[g], combined[g], lens[g]))
  }

  /** `slice_input_groups` and the combined keys: eight lanes to a group, the last one with the rest. */
  method GroupLanes(blocks: seq<Shared>, keys: seq<seq<Shared>>) returns (inputs: seq<SharedWires>, combined: seq<seq<SharedWires>>, lens: seq<nat>)
    requires |blocks| == |keys| && Packed.AllSized(blocks) && Packed.AllKeys(keys)
    ensures Grouped(blocks, keys, inputs, combined, lens, |blocks|)
  {
    inputs, combined, lens := [], [], [];
    var start: nat := 0;
    hide GroupOf;
    while start < |blocks|
      invariant Grouped(blocks, keys, inputs, combined, lens, start) && (start < |blocks| ==> start == From(|lens|))
      decreases |blocks| - start
    {
      var end := if start + 8 <= |blocks| then start + 8 else |blocks|;
      var input := SliceShared(blocks[start..end], 8);
      var key := CombineKeys(keys[start..end], 8);
      IsGroup(blocks, keys, |lens|, start, end, input, key);
      hide Packed.AllSized, Packed.AllKeys, SharedWires.Sized, LaneKeys, SharedWires.Lane, LaneKey, Packed.OpenKey;
      inputs, combined, lens := inputs + [input], combined + [key], lens + [end - start];
      start := end;
    }
  }

  lemma IsGroup(blocks: seq<Shared>, keys: seq<seq<Shared>>, g: nat, start: nat, end: nat, input: SharedWires, key: seq<SharedWires>)
    requires |blocks| == |keys| && Packed.AllSized(blocks) && Packed.AllKeys(keys)
    requires start == From(g) && start < end <= start + 8 && end <= |blocks| && input.Sized(BLOCK, 8) && LaneKeys(key, 8)
    requires forall j: nat {:trigger blocks[start..end][j]} :: j < end - start ==> input.Lane(8, j) == blocks[start..end][j]
    requires forall j: nat {:trigger keys[start..end][j]} :: j < end - start ==>
      Packed.SharedKey(keys[start..end][j]) && LaneKey(key, 8, j) == Packed.OpenKey(keys[start..end][j])
    ensures GroupOf(blocks, keys, g, input, key, end - start)
  {
    hide LaneKeys, LaneKey, Packed.OpenKey, SharedWires.Sized, SharedWires.Lane;
    forall j: nat {:trigger input.Lane(8, j)} | j < end - start
      ensures input.Lane(8, j) == blocks[start + j] && LaneKey(key, 8, j) == Packed.OpenKey(keys[start + j])
    {
      assert blocks[start..end][j] == blocks[start + j] && keys[start..end][j] == keys[start + j];
    }
  }

  /** `pack_lanes` of every group, one after the other. */
  method PackGroups(states: seq<SharedWires>, lens: seq<nat>, ghost n: nat) returns (outs: seq<Shared>)
    requires |states| == |lens| && GroupsSized(states) && forall g {:trigger lens[g]} :: 0 <= g < |lens| ==> lens[g] <= 8
    requires (forall g {:trigger lens[g]} :: 0 <= g < |lens| - 1 ==> lens[g] == 8)
    requires (|lens| > 0 ==> n == From(|lens| - 1) + lens[|lens| - 1]) && (|lens| == 0 ==> n == 0)
    ensures |outs| == n
    ensures forall i: nat {:trigger outs[i]} :: i < n ==> PackedAt(states, lens, i, outs[i])
  {
    outs := [];
    for g := 0 to |states|
      invariant |outs| == if g == 0 then 0 else From(g - 1) + lens[g - 1]
      invariant forall i: nat {:trigger outs[i]} :: i < |outs| ==> PackedAt(states, lens, i, outs[i])
    {
      assert g > 0 ==> lens[g - 1] == 8;
      var x := PackLanes(states[g].w0, lens[g], 8);
      var y := PackLanes(states[g].w1, lens[g], 8);
      var z := PackLanes(states[g].w2, lens[g], 8);
      var some := seq(lens[g], j requires 0 <= j < lens[g] => Shared(x[j], y[j], z[j]));
      forall j: nat {:trigger some[j]} | j < lens[g] ensures PackedAt(states, lens, From(g) + j, some[j]) {
        assert (From(g) + j) / 8 == g && (From(g) + j) % 8 == j;
        assert some[j] == states[g].Lane(8, j);
      }
      hide PackedAt;
      assert |outs| == From(g);
      outs := outs + some;
    }
  }

  ghost predicate PackedAt(states: seq<SharedWires>, lens: seq<nat>, i: nat, out: Shared)
    requires |states| == |lens|
  {
    && i / 8 < |states| && i % 8 < lens[i / 8] <= 8 && states[i / 8].Sized(BLOCK, 8)
    && out == states[i / 8].Lane(8, i % 8)
  }

  /** The packed lane is the encryption of the block sliced there. */
  lemma PackedEncrypts(c: Cipher, blocks: seq<Shared>, keys: seq<seq<Shared>>, inputs: seq<SharedWires>, combined: seq<seq<SharedWires>>, lens: seq<nat>,
                       states: seq<SharedWires>, i: nat, out: Shared)
    requires |blocks| == |keys| && Packed.AllSized(blocks) && Packed.AllKeys(keys) && i < |blocks|
    requires Grouped(blocks, keys, inputs, combined, lens, |blocks|) && GroupsAfter(c, combined, inputs, states, lens, ROUNDS)
    requires PackedAt(states, lens, i, out)
    ensures out.Sized(BLOCK) && out.Open() == Encrypt(c, Packed.OpenKey(keys[i]), blocks[i].Open())
  {
    var g, j := i / 8, i % 8;
    assert i == From(g) + j;
    assert GroupOf(blocks, keys, g, inputs[g], combined[g], lens[g]);
    assert LanesAfter(c, combined[g], inputs[g], states[g], 8, lens[g], ROUNDS);
    assert inputs[g].Lane(8, j) == blocks[i] && LaneKey(combined[g], 8, j) == Packed.OpenKey(keys[i]);
    assert states[g].Lane(8, j).Open() == After(c, LaneKey(combined[g], 8, j), inputs[g].Lane(8, j).Open(), ROUNDS);
  }

  /** `encrypt_many_inputs_with_combined_keys` with the caches' queries: every tag opens to the encryption of its input
      under its level's key, and every target gets its own hits, unless there is nothing to encrypt or no row. */
  method EncryptWithCaches(c: Cipher, grid: seq<seq<Shared>>, numLevels: nat, inputs: seq<Shared>, targets: seq<Target>,
                           draws: Draws, ghost width: nat)
    returns (tags: seq<seq<Shared>>, ok: bool, results: seq<seq<Hit>>)
    requires |grid| == |inputs| * numLevels && Packed.AllSized(inputs) && Packed.AllKeys(grid)
    requires TargetsWide(targets, width) && draws.Sized(_ => 8, width)
    ensures |tags| == |inputs|
    ensures forall q {:trigger tags[q]} :: 0 <= q < |tags| ==> |tags[q]| == numLevels
    ensures forall q: nat, l: nat {:trigger tags[q][l]} :: q < |inputs| && l < numLevels ==> Encrypts(c, grid, numLevels, inputs, q, l, tags[q][l])
    ensures ok <==> numLevels > 0 && inputs != [] && exists t :: 0 <= t < |targets| && targets[t].addrs != []
    ensures ok ==> |results| == |targets| && forall t {:trigger results[t]} :: 0 <= t < |targets| ==> Answers(targets[t], results[t], width)
  {
    ok, results := false, [];
    if numLevels == 0 || inputs == [] {
      tags := seq(|inputs|, _ => []);
      return;
    }
    var merged := Merge(targets, width);
    SomeRow(targets, width);
    ZeroInputsOpen(merged, width);
    var outs, found := EncryptLanes(c, grid, numLevels, inputs, ZeroInputs(merged), draws.zero);
    tags := Regroup(outs, numLevels, |inputs|);
    TagsEncrypt(c, grid, numLevels, inputs, outs, tags);
    ok := merged != [];
    if ok {
      var hits := SelectRows(merged, found, draws, width);
      results := Split(targets, hits, width);
    }
  }

  method EncryptLanes(c: Cipher, grid: seq<seq<Shared>>, numLevels: nat, inputs: seq<Shared>, zeroInputs: seq<Shared>, draws: (nat, nat) -> Shared)
    returns (outs: seq<Shared>, found: seq<Shared>)
    requires numLevels > 0 && |grid| == |inputs| * numLevels && Packed.AllSized(inputs) && Packed.AllKeys(grid)
    requires AllOf(zeroInputs, 32)
    requires forall r: nat, i: nat {:trigger draws(r, i)} :: draws(r, i).Sized(8)
    ensures |outs| == |grid| && forall k: nat {:trigger outs[k]} :: k < |grid| ==> LaneEncrypts(c, grid, numLevels, inputs, k, outs[k])
    ensures |found| == |zeroInputs| && forall j {:trigger found[j]} :: 0 <= j < |found| ==> Decides(found[j], zeroInputs[j])
  {
    var lanes := seq(|grid|, k requires 0 <= k < |grid| => LaneInput(inputs, numLevels, k));
    LanesSized(inputs, numLevels, lanes);
    var groups, combined, lens := GroupLanes(lanes, grid);
    GroupsFit(lanes, grid, groups, combined, lens);
    var states;
    states, found := EncryptLaneGroups(c, groups, combined, lens, zeroInputs, draws);
    assert GroupsSized(states) by { StatesSized(c, combined, groups, states, lens); }
    outs := PackGroups(states, lens, |grid|);
    forall k: nat {:trigger outs[k]} | k < |grid| ensures LaneEncrypts(c, grid, numLevels, inputs, k, outs[k]) {
      PackedEncrypts(c, lanes, grid, groups, combined, lens, states, k, outs[k]);
    }
  }

  ghost predicate LaneEncrypts(c: Cipher, grid: seq<seq<Shared>>, numLevels: nat, inputs: seq<Shared>, k: nat, out: Shared)
    requires numLevels > 0 && |grid| == |inputs| * numLevels && k < |grid| && Packed.AllSized(inputs) && Packed.AllKeys(grid)
  {
    out.Sized(BLOCK) && LaneInput(inputs, numLevels, k).Sized(BLOCK)
      && out.Open() == Encrypt(c, Packed.OpenKey(grid[k]), LaneInput(inputs, numLevels, k).Open())
  }

  lemma LanesSized(inputs: seq<Shared>, numLevels: nat, lanes: seq<Shared>)
    requires numLevels > 0 && Packed.AllSized(inputs) && |lanes| == |inputs| * numLevels
    requires forall k: nat {:trigger lanes[k]} :: k < |lanes| ==> lanes[k] == LaneInput(inputs, numLevels, k)
    ensures Packed.AllSized(lanes)
  {
    forall k: nat {:trigger lanes[k]} | k < |lanes| ensures lanes[k].Sized(BLOCK) { LaneRow(k, numLevels, |inputs|); }
  }

  lemma GroupsFit(blocks: seq<Shared>, keys: seq<seq<Shared>>, inputs: seq<SharedWires>, combined: seq<seq<SharedWires>>, lens: seq<nat>)
    requires |blocks| == |keys| && Packed.AllSized(blocks) && Packed.AllKeys(keys) && Grouped(blocks, keys, inputs, combined, lens, |blocks|)
    ensures |inputs| == |combined| == |lens| && GroupsSized(inputs)
    ensures GroupKeys(combined, lens)
    ensures forall g {:trigger lens[g]} :: 0 <= g < |lens| ==> lens[g] <= 8
    ensures (forall g {:trigger lens[g]} :: 0 <= g < |lens| - 1 ==> lens[g] == 8)
    ensures (|lens| > 0 ==> |blocks| == From(|lens| - 1) + lens[|lens| - 1]) && (|lens| == 0 ==> |blocks| == 0)
  {
    hide LaneKeys, SharedWires.Sized;
    forall g {:trigger lens[g]} {:trigger combined[g]} {:trigger inputs[g]} | 0 <= g < |lens| ensures lens[g] <= 8 && LaneKeys(combined[g], 8) && inputs[g].Sized(BLOCK, 8) {
      assert GroupOf(blocks, keys, g, inputs[g], combined[g], lens[g]);
    }
  }

  lemma StatesSized(c: Cipher, combined: seq<seq<SharedWires>>, groups: seq<SharedWires>, states: seq<SharedWires>, lens: seq<nat>)
    requires GroupsAfter(c, combined, groups, states, lens, ROUNDS)
    ensures |states| == |lens| && GroupsSized(states)
  {
    forall g {:trigger states[g]} | 0 <= g < |states| ensures states[g].Sized(BLOCK, 8) {
      assert LanesAfter(c, combined[g], groups[g], states[g], 8, lens[g], ROUNDS);
    }
  }

  lemma TagsEncrypt(c: Cipher, grid: seq<seq<Shared>>, numLevels: nat, inputs: seq<Shared>, outs: seq<Shared>, tags: seq<seq<Shared>>)
    requires numLevels > 0 && |grid| == |outs| == |inputs| * numLevels && Packed.AllSized(inputs) && Packed.AllKeys(grid)
    requires forall k: nat {:trigger outs[k]} :: k < |grid| ==> LaneEncrypts(c, grid, numLevels, inputs, k, outs[k])
    requires |tags| == |inputs| && forall q {:trigger tags[q]} :: 0 <= q < |tags| ==> |tags[q]| == numLevels
    requires forall q: nat, l: nat {:trigger tags[q][l]} :: q < |inputs| && l < numLevels ==> tags[q][l] == outs[GridAt(q, l, numLevels, |inputs|)]
    ensures forall q: nat, l: nat {:trigger tags[q][l]} :: q < |inputs| && l < numLevels ==> Encrypts(c, grid, numLevels, inputs, q, l, tags[q][l])
  {
    forall q: nat, l: nat {:trigger tags[q][l]} | q < |inputs| && l < numLevels ensures Encrypts(c, grid, numLevels, inputs, q, l, tags[q][l]) {
      var k := GridAt(q, l, numLevels, |inputs|);
      assert LaneEncrypts(c, grid, numLevels, inputs, k, outs[k]) && LaneInput(inputs, numLevels, k) == inputs[q];
    }
  }
}
