/** The oblivious hash table as an object: what each phase of its build and each query does to its fields. */
module OhTables {
  import opened Words
  import opened Tables
  import opened Permutations
  import opened Shuffling
  import opened Cht
  import opened ChtLookup
  import Sets

  /** The block cipher on the keys drawn in a run, numbered: 128-bit blocks of 32-bit addresses. */
  datatype Cipher = Cipher(block: (nat, nat) -> nat, keys: set<nat>)
  {
    function Block(k: nat, x: nat): nat { block(k, x) }
  }

  const BLOCKS: nat := TWO96 * TWO32

  /** Ideal tags: over the keys of the run and all 32-bit addresses, no two pairs of key and address share one,
      and none is zero. */
  ghost predicate Ideal(enc: Cipher) {
    && (forall k: nat, x: nat, l: nat, y: nat {:trigger enc.Block(k, x), enc.Block(l, y)} ::
          k in enc.keys && l in enc.keys && x < TWO32 && y < TWO32 && TagOf(enc.Block(k, x)) == TagOf(enc.Block(l, y)) ==> k == l && x == y)
    && (forall k: nat, x: nat {:trigger enc.Block(k, x)} ::
          k in enc.keys && x < TWO32 ==> TagOf(enc.Block(k, x)) != 0 && enc.Block(k, x) < BLOCKS)
  }

  /** A random block whose tag no address has under any of the keys. */
  ghost predicate BlankTag(enc: Cipher, q: nat) {
    && q < BLOCKS && TagOf(q) != 0
    && forall k: nat, x: nat {:trigger enc.Block(k, x)} :: k in enc.keys && x < TWO32 ==> TagOf(q) != TagOf(enc.Block(k, x))
  }

  /** A key of the run and a 32-bit address. */
  predicate Askable(enc: Cipher, tag: Tag) { tag.key in enc.keys && tag.addr < TWO32 }

  /** How many of the keys come before `k`. */
  function Rank(keys: set<nat>, k: nat): nat { |set l | l in keys && l < k| }

  lemma RankOrders(keys: set<nat>, k: nat, l: nat)
    requires k in keys && k < l
    ensures Rank(keys, k) < Rank(keys, l)
  {
    var a, b := set j | j in keys && j < k, set j | j in keys && j < l;
    assert k !in a && a + {k} <= b;
    Sets.SubsetCard(a + {k}, b);
  }

  lemma RankBound(keys: set<nat>, k: nat)
    requires k in keys
    ensures Rank(keys, k) < |keys|
  {
    var a := set j | j in keys && j < k;
    assert k !in a && a + {k} <= keys;
    Sets.SubsetCard(a + {k}, keys);
  }

  function NumberedTag(rank: nat, x: nat): (tag: nat) { TWO32 * rank + x + 1 }

  lemma NumberedApart(r: nat, x: nat, q: nat, y: nat)
    requires x < TWO32 && y < TWO32 && NumberedTag(r, x) == NumberedTag(q, y)
    ensures r == q && x == y
  {
  }

  function NumberedCipher(keys: set<nat>): Cipher {
    Cipher((k: nat, x: nat) => TWO32 * NumberedTag(Rank(keys, k), x), keys)
  }

  /** For any finite set of fewer than 2^64 - 1 keys there are ideal tags within 128 bits, and a blank one. */
  lemma IdealExists(keys: set<nat>)
    requires |keys| < TWO64 - 1
    ensures Ideal(NumberedCipher(keys)) && BlankTag(NumberedCipher(keys), TWO32 * (TWO96 - 1))
  {
    var enc := NumberedCipher(keys);
    assert TWO96 == TWO32 * TWO64 && BLOCKS == TWO32 * TWO96;
    forall k: nat, x: nat {:trigger enc.Block(k, x)} | k in keys && x < TWO32
      ensures TagOf(enc.Block(k, x)) == NumberedTag(Rank(keys, k), x) < TWO96 - 1 && TagOf(enc.Block(k, x)) != 0 && enc.Block(k, x) < BLOCKS
    {
      RankBound(keys, k);
      hide Rank;
      Quotient(NumberedTag(Rank(keys, k), x));
    }
    hide Rank;
    Quotient(TWO96 - 1);
    forall k: nat, x: nat, l: nat, y: nat {:trigger enc.Block(k, x), enc.Block(l, y)} |
      k in keys && l in keys && x < TWO32 && y < TWO32 && TagOf(enc.Block(k, x)) == TagOf(enc.Block(l, y)) ensures k == l && x == y
    {
      NumberedApart(Rank(keys, k), x, Rank(keys, l), y);
      if k < l { RankOrders(keys, k, l); }
      if l < k { RankOrders(keys, l, k); }
    }
  }

  lemma Quotient(a: nat)
    ensures TagOf(TWO32 * a) == a
  {
  }

  /** The random choices of a build. */
  datatype Draws = Draws(key: nat, b0: seq<nat>, b1: seq<nat>, b2: seq<nat>, local: seq<nat>, receiver: seq<nat>)

  predicate DrawsOk(p: Params, d: Draws) {
    && Choices(d.b0) && Choices(d.b1) && Choices(d.b2) && Choices(d.local) && Choices(d.receiver)
    && |d.b0| == |d.b1| == |d.b2| == |d.receiver| == p.Total() && |d.local| == p.numElements
  }

  /** The elements' tags, then zeros for the dummies. */
  function TagColumn(enc: Cipher, key: nat, xs: seq<nat>, total: nat): (qs: seq<nat>)
    requires |xs| <= total
    ensures |qs| == total
  {
    seq(total, i requires 0 <= i < total => if i < |xs| then enc.Block(key, xs[i]) else 0)
  }

  /** The nonzero tags, each with its position in the low 32 bits. */
  function Compacted(qs: seq<nat>): (blocks: seq<nat>)
  {
    if qs == [] then []
    else
      var n := |qs| - 1;
      Compacted(qs[..n]) + (if qs[n] != 0 then [SetLowU32(qs[n], n % TWO32)] else [])
  }

  /** The block a table stores for address `a`: its tag above the builder-order index of its row. */
  ghost predicate BlockOf(enc: Cipher, t: Table, to: seq<nat>, b: nat, a: nat) {
    && a in t.slots && TagOf(b) == TagOf(enc.Block(t.key, a))
    && LowU32(b) < |to| && to[LowU32(b)] == t.slots[a]
  }

  ghost predicate Stored(cht: seq<nat>, logCol: nat, b: nat) {
    |cht| == 2 * Pow2(logCol) && (cht[H0(b, logCol)] == b || cht[H1(b, logCol)] == b)
  }

  ghost predicate HomeOf(enc: Cipher, t: Table, to: seq<nat>, cht: seq<nat>, b: nat, a: nat) {
    BlockOf(enc, t, to, b, a) && Stored(cht, t.params.logCol, b)
  }

  ghost predicate HasHome(enc: Cipher, t: Table, to: seq<nat>, cht: seq<nat>, a: nat) {
    exists b: nat :: HomeOf(enc, t, to, cht, b, a)
  }

  ghost predicate IsElement(enc: Cipher, t: Table, to: seq<nat>, b: nat) {
    exists a: nat :: BlockOf(enc, t, to, b, a)
  }

  /** The table's key is one of the run, and its addresses are 32-bit. */
  ghost predicate KeyedOk(enc: Cipher, t: Table) {
    t.key in enc.keys && forall a: nat {:trigger a in t.slots} :: a in t.slots ==> a < TWO32
  }

  /** The cuckoo table holds exactly one block for each unstashed element, in one of its two slots. */
  ghost predicate ChtOk(enc: Cipher, t: Table, to: seq<nat>, cht: seq<nat>) {
    && |cht| == 2 * Pow2(t.params.logCol) && KeyedOk(enc, t)
    && (forall a: nat {:trigger a in t.slots} :: a in t.slots ==> HasHome(enc, t, to, cht, a))
    && (forall p {:trigger cht[p]} :: 0 <= p < |cht| && cht[p] != 0 ==> IsElement(enc, t, to, cht[p]))
    && (forall p, q {:trigger cht[p], cht[q]} :: 0 <= p < |cht| && 0 <= q < |cht| && cht[p] != 0 && TagOf(cht[p]) == TagOf(cht[q]) ==> p == q)
  }

  /** Blocks with the same tag share their two slots. */
  lemma SameTagSlots(x: nat, y: nat, logCol: nat)
    requires TagOf(x) == TagOf(y)
    ensures H0(x, logCol) == H0(y, logCol) && H1(x, logCol) == H1(y, logCol)
  {
    assert TWO64 == TWO32 * TWO32 && TWO96 == TWO32 * TWO64;
    assert x / TWO64 == TagOf(x) / TWO32 && y / TWO64 == TagOf(y) / TWO32;
    assert x / TWO96 == TagOf(x) / TWO64 && y / TWO96 == TagOf(y) / TWO64;
  }

  /** What the lookup finds for the tag of an unstashed element: its row, once. */
  lemma LookupFinds(enc: Cipher, t: Table, to: seq<nat>, cht: seq<nat>, a: nat, q: nat, dummy: nat)
    requires Ideal(enc) && ChtOk(enc, t, to, cht) && a in t.slots && TagOf(q) == TagOf(enc.Block(t.key, a))
    ensures var (index, found) := Lookup(q, cht[H0(q, t.params.logCol)], cht[H1(q, t.params.logCol)], dummy);
      found && index < |to| && to[index] == t.slots[a]
  {
    var logCol := t.params.logCol;
    assert HasHome(enc, t, to, cht, a);
    var b: nat :| HomeOf(enc, t, to, cht, b, a);
    SameTagSlots(q, b, logCol);
    var b0, b1 := cht[H0(q, logCol)], cht[H1(q, logCol)];
    hide TagOf, LowU32, H0, H1;
    assert TagOf(q) != 0;
    TagZero(b0);
    TagZero(b1);
    if TagOf(b0) == TagOf(q) { OwnBlock(enc, t, to, cht, H0(q, logCol), a, q); }
    if TagOf(b1) == TagOf(q) { OwnBlock(enc, t, to, cht, H1(q, logCol), a, q); }
  }

  lemma TagZero(b: nat)
    ensures b == 0 ==> TagOf(b) == 0
  {
  }

  lemma OwnBlock(enc: Cipher, t: Table, to: seq<nat>, cht: seq<nat>, p: nat, a: nat, q: nat)
    requires Ideal(enc) && ChtOk(enc, t, to, cht) && a in t.slots && TagOf(q) == TagOf(enc.Block(t.key, a)) && TagOf(q) != 0
    requires p < |cht| && TagOf(cht[p]) == TagOf(q)
    ensures BlockOf(enc, t, to, cht[p], a)
  {
    TagZero(cht[p]);
    assert IsElement(enc, t, to, cht[p]);
    var a1: nat :| BlockOf(enc, t, to, cht[p], a1);
    hide TagOf;
    assert TagOf(enc.Block(t.key, a1)) == TagOf(enc.Block(t.key, a));
  }

  /** A tag that belongs to no unstashed element finds nothing. */
  lemma LookupMisses(enc: Cipher, t: Table, to: seq<nat>, cht: seq<nat>, q: nat, dummy: nat)
    requires ChtOk(enc, t, to, cht) && TagOf(q) != 0
    requires forall a: nat {:trigger a in t.slots} :: a in t.slots ==> TagOf(q) != TagOf(enc.Block(t.key, a))
    ensures Lookup(q, cht[H0(q, t.params.logCol)], cht[H1(q, t.params.logCol)], dummy) == (dummy, false)
  {
    NotThere(enc, t, to, cht, q, H0(q, t.params.logCol));
    NotThere(enc, t, to, cht, q, H1(q, t.params.logCol));
  }

  lemma NotThere(enc: Cipher, t: Table, to: seq<nat>, cht: seq<nat>, q: nat, p: nat)
    requires ChtOk(enc, t, to, cht) && TagOf(q) != 0 && p < |cht|
    requires forall a: nat {:trigger a in t.slots} :: a in t.slots ==> TagOf(q) != TagOf(enc.Block(t.key, a))
    ensures TagOf(cht[p]) != TagOf(q)
  {
    TagZero(cht[p]);
    if cht[p] != 0 {
      assert IsElement(enc, t, to, cht[p]);
      var a: nat :| BlockOf(enc, t, to, cht[p], a);
    }
  }

  // -------------------------------------------------------- the compacted tags

  /** Block `b` is the tag at position `i`, which it carries. */
  ghost predicate Carried(qs: seq<nat>, b: nat, i: nat) {
    i < |qs| && qs[i] != 0 && LowU32(b) == i && TagOf(b) == TagOf(qs[i])
  }

  ghost function Marked(qs: seq<nat>): (s: set<nat>) {
    set i | 0 <= i < |qs| && qs[i] != 0
  }

  lemma MarkedSplit(qs: seq<nat>)
    requires qs != []
    ensures var n := |qs| - 1; |Marked(qs)| == |Marked(qs[..n])| + (if qs[n] != 0 then 1 else 0)
  {
    var n := |qs| - 1;
    var last: set<nat> := if qs[n] != 0 then {n} else {};
    assert Marked(qs) == Marked(qs[..n]) + last;
  }

  /** The compacted blocks are those of the nonzero tags, in order. */
  lemma {:induction false} CompactedFacts(qs: seq<nat>)
    requires |qs| <= TWO32
    ensures |Compacted(qs)| == |Marked(qs)|
    ensures forall e {:trigger Compacted(qs)[e]} :: 0 <= e < |Compacted(qs)| ==> Carried(qs, Compacted(qs)[e], LowU32(Compacted(qs)[e]))
    ensures forall e, f {:trigger Compacted(qs)[e], Compacted(qs)[f]} :: 0 <= e < f < |Compacted(qs)| ==> LowU32(Compacted(qs)[e]) != LowU32(Compacted(qs)[f])
    ensures forall i {:trigger qs[i]} :: 0 <= i < |qs| && qs[i] != 0 ==> HasBlock(Compacted(qs), i)
  {
    if qs != [] {
      var n := |qs| - 1;
      CompactedFacts(qs[..n]);
      MarkedSplit(qs);
      hide LowU32, TagOf, SetLowU32;
      var before, all := Compacted(qs[..n]), Compacted(qs);
      LowOf(qs[n], n);
      forall e {:trigger all[e]} | 0 <= e < |all| ensures Carried(qs, all[e], LowU32(all[e])) {
        if e < |before| { assert all[e] == before[e]; }
      }
      forall e, f {:trigger all[e], all[f]} | 0 <= e < f < |all| ensures LowU32(all[e]) != LowU32(all[f]) {
        if f < |before| { assert all[e] == before[e] && all[f] == before[f]; } else { assert all[e] == before[e]; }
      }
      forall i {:trigger qs[i]} | 0 <= i < |qs| && qs[i] != 0 ensures HasBlock(all, i) {
        if i < n {
          assert HasBlock(before, i) by { assert qs[..n][i] == qs[i]; }
          var e :| 0 <= e < |before| && LowU32(before[e]) == i;
          assert all[e] == before[e];
        } else {
          assert all[|before|] == SetLowU32(qs[n], n);
        }
      }
    }
  }

  ghost predicate HasBlock(blocks: seq<nat>, i: nat) {
    exists e :: 0 <= e < |blocks| && LowU32(blocks[e]) == i
  }

  lemma LowOf(q: nat, i: nat)
    requires i < TWO32
    ensures i % TWO32 == i && LowU32(SetLowU32(q, i)) == i && TagOf(SetLowU32(q, i)) == TagOf(q)
  {
    SetLowParts(q, i);
  }

  // ------------------------------------------------------------ what is built

  ghost predicate Setup(enc: Cipher, p: Params, rows: seq<Row>, d: Draws) {
    && Ideal(enc) && p.Valid() && |rows| == p.numElements && DistinctAddrs(rows) && DrawsOk(p, d) && p.Total() <= TWO32
    && d.key in enc.keys && forall i {:trigger rows[i]} :: 0 <= i < |rows| ==> rows[i].addr < TWO32
  }

  function AddrsOf(rows: seq<Row>): (xs: seq<nat>)
    ensures |xs| == |rows| && forall i :: 0 <= i < |xs| ==> xs[i] == rows[i].addr
  {
    seq(|rows|, i requires 0 <= i < |rows| => rows[i].addr)
  }

  /** The tags in builder order. */
  function BuilderTags(enc: Cipher, p: Params, rows: seq<Row>, d: Draws): (qs: seq<nat>)
    requires DrawsOk(p, d) && |rows| == p.numElements
    ensures |qs| == p.Total()
  {
    Through(d.b0, d.b1, d.b2, TagColumn(enc, d.key, AddrsOf(rows), p.Total()))
  }

  /** Position `i` of the builder order holds an element. */
  lemma BuilderTagAt(enc: Cipher, p: Params, rows: seq<Row>, d: Draws, i: nat)
    requires Setup(enc, p, rows, d) && i < p.Total()
    ensures var whole := Whole(d.b0, d.b1, d.b2); var qs := BuilderTags(enc, p, rows, d);
      && IsPerm(whole, p.Total())
      && (qs[i] != 0 <==> whole.from[i] < p.numElements)
      && (whole.from[i] < p.numElements ==> qs[i] == enc.Block(d.key, rows[whole.from[i]].addr))
  {
    var col := TagColumn(enc, d.key, AddrsOf(rows), p.Total());
    WholePicks(d.b0, d.b1, d.b2, col);
    WholeIsPerm(d.b0, d.b1, d.b2, col);
    var whole := Whole(d.b0, d.b1, d.b2);
    hide Through, Whole, TagOf;
    assert Picked(col, whole.from)[i] == col[whole.from[i]];
    if whole.from[i] < p.numElements {
      var x := rows[whole.from[i]].addr;
      assert TagOf(enc.Block(d.key, x)) != 0;
      TagZero(enc.Block(d.key, x));
    }
  }

  /** There is one tag for each element. */
  lemma TagsCounted(enc: Cipher, p: Params, rows: seq<Row>, d: Draws)
    requires Setup(enc, p, rows, d)
    ensures |Compacted(BuilderTags(enc, p, rows, d))| == p.numElements
  {
    var qs, whole, n := BuilderTags(enc, p, rows, d), Whole(d.b0, d.b1, d.b2), p.Total();
    CompactedFacts(qs);
    WholeIsPerm(d.b0, d.b1, d.b2, qs);
    hide Whole, BuilderTags, Compacted;
    var back := map i | 0 <= i < n && qs[i] != 0 :: whole.from[i];
    forall i | i in Marked(qs) ensures back[i] in Sets.Below(p.numElements) { BuilderTagAt(enc, p, rows, d, i); }
    forall e | e in Sets.Below(p.numElements) ensures exists i :: i in Marked(qs) && back[i] == e {
      var i := whole.to[e];
      assert whole.from[i] == e;
      BuilderTagAt(enc, p, rows, d, i);
      assert i in Marked(qs) && back[i] == e;
    }
    assert forall i :: i in Marked(qs) <==> i in back;
    forall i, j {:trigger back[i], back[j]} | i in Marked(qs) && j in Marked(qs) && back[i] == back[j] ensures i == j {
      assert whole.to[whole.from[i]] == i && whole.to[whole.from[j]] == j;
    }
    Sets.BijectionCard(Marked(qs), Sets.Below(p.numElements), back);
  }

  /** What the builder hands to the cuckoo table: the compacted tags in a random order. */
  function Inputs(enc: Cipher, p: Params, rows: seq<Row>, d: Draws): (inputs: seq<nat>)
    requires DrawsOk(p, d) && |rows| == p.numElements && |Compacted(BuilderTags(enc, p, rows, d))| == p.numElements
    ensures |inputs| == p.numElements
  {
    ShuffleOf(d.local, Compacted(BuilderTags(enc, p, rows, d)))
  }

  /** Input `e` is the block of the element at the builder position it carries. */
  ghost predicate InputOk(enc: Cipher, rows: seq<Row>, key: nat, from: seq<nat>, b: nat) {
    && LowU32(b) < |from| && from[LowU32(b)] < |rows|
    && TagOf(b) == TagOf(enc.Block(key, rows[from[LowU32(b)]].addr))
  }

  ghost predicate InputsOk(enc: Cipher, rows: seq<Row>, key: nat, from: seq<nat>, inputs: seq<nat>) {
    && (forall e {:trigger inputs[e]} :: 0 <= e < |inputs| ==> InputOk(enc, rows, key, from, inputs[e]))
    && (forall e, f {:trigger inputs[e], inputs[f]} :: 0 <= e < |inputs| && 0 <= f < |inputs| && LowU32(inputs[e]) == LowU32(inputs[f]) ==> e == f)
    && (forall i {:trigger from[i]} :: 0 <= i < |from| && from[i] < |rows| ==> HasBlock(inputs, i))
  }

  lemma BlocksOk(enc: Cipher, p: Params, rows: seq<Row>, d: Draws)
    requires Setup(enc, p, rows, d)
    ensures InputsOk(enc, rows, d.key, Whole(d.b0, d.b1, d.b2).from, Compacted(BuilderTags(enc, p, rows, d)))
  {
    var qs, whole := BuilderTags(enc, p, rows, d), Whole(d.b0, d.b1, d.b2);
    var blocks := Compacted(qs);
    CompactedFacts(qs);
    hide Whole, BuilderTags, Compacted, LowU32, TagOf;
    forall e {:trigger blocks[e]} | 0 <= e < |blocks| ensures InputOk(enc, rows, d.key, whole.from, blocks[e]) {
      BuilderTagAt(enc, p, rows, d, LowU32(blocks[e]));
    }
    forall i {:trigger whole.from[i]} | 0 <= i < |whole.from| && whole.from[i] < |rows| ensures HasBlock(blocks, i) {
      BuilderTagAt(enc, p, rows, d, i);
    }
  }

  /** Any order of the blocks will do. */
  lemma InputsReordered(enc: Cipher, rows: seq<Row>, key: nat, from: seq<nat>, blocks: seq<nat>, perm: Perm)
    requires InputsOk(enc, rows, key, from, blocks) && IsPerm(perm, |blocks|) && Bounded(perm.from, |blocks|)
    ensures InputsOk(enc, rows, key, from, Picked(blocks, perm.from))
  {
    var inputs := Picked(blocks, perm.from);
    hide LowU32, TagOf, InputOk;
    forall e {:trigger inputs[e]} | 0 <= e < |inputs| ensures InputOk(enc, rows, key, from, inputs[e]) {
      assert inputs[e] == blocks[perm.from[e]];
    }
    forall e, f {:trigger inputs[e], inputs[f]} | 0 <= e < |inputs| && 0 <= f < |inputs| && LowU32(inputs[e]) == LowU32(inputs[f]) ensures e == f {
      assert inputs[e] == blocks[perm.from[e]] && inputs[f] == blocks[perm.from[f]];
      assert perm.to[perm.from[e]] == e && perm.to[perm.from[f]] == f;
    }
    forall i {:trigger from[i]} | 0 <= i < |from| && from[i] < |rows| ensures HasBlock(inputs, i) {
      assert HasBlock(blocks, i);
      var e :| 0 <= e < |blocks| && LowU32(blocks[e]) == i;
      assert perm.from[perm.to[e]] == e && inputs[perm.to[e]] == blocks[e];
    }
  }

  lemma InputsAreBlocks(enc: Cipher, p: Params, rows: seq<Row>, d: Draws)
    requires Setup(enc, p, rows, d)
    ensures |Compacted(BuilderTags(enc, p, rows, d))| == p.numElements
    ensures InputsOk(enc, rows, d.key, Whole(d.b0, d.b1, d.b2).from, Inputs(enc, p, rows, d))
  {
    TagsCounted(enc, p, rows, d);
    BlocksOk(enc, p, rows, d);
    var blocks := Compacted(BuilderTags(enc, p, rows, d));
    ShufflePicks(d.local, blocks);
    ShuffleIsPerm(d.local, blocks);
    hide Whole, BuilderTags, Compacted, AsPerm, InputsOk;
    InputsReordered(enc, rows, d.key, Whole(d.b0, d.b1, d.b2).from, blocks, AsPerm(d.local));
  }

  // ------------------------------------------------------- from table to model

  lemma {:induction false} StashFacts(inputs: seq<nat>, home: seq<Option<nat>>)
    requires |inputs| == |home|
    ensures forall s: nat {:trigger s in Stash(inputs, home)} :: s in Stash(inputs, home) <==> OutsideAt(inputs, home, s)
  {
    if inputs != [] {
      var n := |inputs| - 1;
      StashFacts(inputs[..n], home[..n]);
      hide LowU32;
      forall s: nat ensures s in Stash(inputs, home) <==> OutsideAt(inputs, home, s) {
        if OutsideAt(inputs[..n], home[..n], s) {
          var e: nat :| e < n && home[..n][e].None? && LowU32(inputs[..n][e]) == s;
          assert inputs[e] == inputs[..n][e] && home[e] == home[..n][e];
        }
        if OutsideAt(inputs, home, s) {
          var e: nat :| e < |inputs| && home[e].None? && LowU32(inputs[e]) == s;
          if e < n { assert inputs[e] == inputs[..n][e] && home[e] == home[..n][e]; }
        }
      }
    }
  }

  ghost predicate OutsideAt(inputs: seq<nat>, home: seq<Option<nat>>, s: nat) {
    |inputs| == |home| && exists e: nat :: e < |inputs| && home[e].None? && LowU32(inputs[e]) == s
  }

  lemma {:induction false} StashDistinct(inputs: seq<nat>, home: seq<Option<nat>>)
    requires |inputs| == |home|
    requires forall e, f {:trigger inputs[e], inputs[f]} :: 0 <= e < |inputs| && 0 <= f < |inputs| && LowU32(inputs[e]) == LowU32(inputs[f]) ==> e == f
    ensures forall i, j :: 0 <= i < j < |Stash(inputs, home)| ==> Stash(inputs, home)[i] != Stash(inputs, home)[j]
  {
    if inputs != [] {
      var n := |inputs| - 1;
      var head, last := inputs[..n], LowU32(inputs[n]);
      forall e, f {:trigger head[e], head[f]} | 0 <= e < n && 0 <= f < n && LowU32(head[e]) == LowU32(head[f]) ensures e == f {
        assert head[e] == inputs[e] && head[f] == inputs[f];
      }
      StashDistinct(head, home[..n]);
      StashFacts(head, home[..n]);
      hide LowU32;
      forall e | 0 <= e < n ensures LowU32(head[e]) != last { assert inputs[e] == head[e]; }
      assert !OutsideAt(head, home[..n], last);
      assert last !in Stash(head, home[..n]);
    }
  }

  /** The coin a build amounts to: both shuffles together, and the elements behind the stashed positions. */
  function CoinOf(p: Params, d: Draws, stash: seq<nat>): (c: Coin)
    requires DrawsOk(p, d) && Bounded(stash, p.Total())
  {
    Coin(d.key, CombinedPerm(p, d), Picked(Whole(d.b0, d.b1, d.b2).from, stash))
  }

  function CombinedPerm(p: Params, d: Draws): (perm: Perm)
    requires DrawsOk(p, d)
    ensures IsPerm(perm, p.Total()) && IsPerm(Whole(d.b0, d.b1, d.b2), p.Total()) && IsPerm(AsPerm(d.receiver), p.Total())
  {
    WholeIsPerm(d.b0, d.b1, d.b2, Identity(p.Total()));
    ShuffleIsPerm(d.receiver, Identity(p.Total()));
    WholePicks(d.b0, d.b1, d.b2, Identity(p.Total()));
    ShufflePicks(d.receiver, Identity(p.Total()));
    ComposedIsPerm(Whole(d.b0, d.b1, d.b2), AsPerm(d.receiver), p.Total());
    Composed(Whole(d.b0, d.b1, d.b2), AsPerm(d.receiver))
  }

  /** The cuckoo table's answer for the inputs of a build. */
  ghost predicate Placed(enc: Cipher, p: Params, rows: seq<Row>, d: Draws, inputs: seq<nat>, home: seq<Option<nat>>, cht: seq<nat>, stash: seq<nat>) {
    && Setup(enc, p, rows, d) && |stash| == p.stashSize && |inputs| == p.numElements
    && InputsOk(enc, rows, d.key, Whole(d.b0, d.b1, d.b2).from, inputs)
    && Placement(inputs, p.logCol, home, cht, stash)
  }

  lemma PlacedStash(enc: Cipher, p: Params, rows: seq<Row>, d: Draws, inputs: seq<nat>, home: seq<Option<nat>>, cht: seq<nat>, stash: seq<nat>)
    requires Placed(enc, p, rows, d, inputs, home, cht, stash)
    ensures Bounded(stash, p.Total()) && ValidCoin(p, CoinOf(p, d, stash))
    ensures forall k :: 0 <= k < |stash| ==> Whole(d.b0, d.b1, d.b2).from[stash[k]] < p.numElements
    ensures forall e {:trigger inputs[e]} :: 0 <= e < |inputs| ==> (LowU32(inputs[e]) in stash <==> home[e].None?)
  {
    var from := Whole(d.b0, d.b1, d.b2).from;
    StashFacts(inputs, home);
    StashDistinct(inputs, home);
    var perm := CombinedPerm(p, d);
    hide Whole, LowU32, TagOf, CombinedPerm, Setup;
    assert |from| == p.Total();
    forall k | 0 <= k < |stash| ensures stash[k] < p.Total() && from[stash[k]] < p.numElements {
      assert stash[k] in stash && OutsideAt(inputs, home, stash[k]);
      var e: nat :| e < |inputs| && home[e].None? && LowU32(inputs[e]) == stash[k];
      assert InputOk(enc, rows, d.key, from, inputs[e]) && |rows| == p.numElements by { SetupSizes(enc, p, rows, d); }
    }
    forall e {:trigger inputs[e]} | 0 <= e < |inputs| ensures LowU32(inputs[e]) in stash <==> home[e].None? {
      if home[e].None? { assert OutsideAt(inputs, home, LowU32(inputs[e])); }
    }
    var c := CoinOf(p, d, stash);
    var to := Whole(d.b0, d.b1, d.b2).to;
    forall i, j | 0 <= i < j < |c.stash| ensures c.stash[i] != c.stash[j] {
      assert to[from[stash[i]]] == stash[i] && to[from[stash[j]]] == stash[j];
    }
  }

  lemma SetupSizes(enc: Cipher, p: Params, rows: seq<Row>, d: Draws)
    requires Setup(enc, p, rows, d)
    ensures |rows| == p.numElements && DrawsOk(p, d) && DistinctAddrs(rows) && p.Valid() && Ideal(enc)
    ensures d.key in enc.keys && forall i {:trigger rows[i]} :: 0 <= i < |rows| ==> rows[i].addr < TWO32
  {
  }

  /** An unstashed row and its address. */
  lemma SlotOf(p: Params, rows: seq<Row>, c: Coin, t: Table, e: nat)
    requires BuildTable(p, rows, c) == Ok(t) && e < |rows|
    ensures e !in c.stash ==> rows[e].addr in t.slots && |c.perm.to| == p.Total() && e < p.Total() && t.slots[rows[e].addr] == c.perm.to[e]
    ensures e in c.stash ==> rows[e].addr !in t.slots
    ensures t.params == p && t.key == c.key
  {
    if e !in c.stash {
      BuiltAt(p, rows, c, t, e);
    }
  }

  /** Input `f`'s block is that of the element it was made for, if that is not stashed. */
  lemma BlockIsElement(enc: Cipher, p: Params, rows: seq<Row>, d: Draws, inputs: seq<nat>, home: seq<Option<nat>>, cht: seq<nat>, stash: seq<nat>, t: Table, f: nat)
    requires Placed(enc, p, rows, d, inputs, home, cht, stash) && Bounded(stash, p.Total())
    requires BuildTable(p, rows, CoinOf(p, d, stash)) == Ok(t) && f < |inputs| && home[f].Some?
    ensures var from := Whole(d.b0, d.b1, d.b2).from;
      LowU32(inputs[f]) < |from| && from[LowU32(inputs[f])] < |rows| && BlockOf(enc, t, AsPerm(d.receiver).to, inputs[f], rows[from[LowU32(inputs[f])]].addr)
  {
    var whole, c := Whole(d.b0, d.b1, d.b2), CoinOf(p, d, stash);
    PlacedStash(enc, p, rows, d, inputs, home, cht, stash);
    SetupSizes(enc, p, rows, d);
    var perm := CombinedPerm(p, d);
    hide Whole, LowU32, TagOf, BuildTable, Setup;
    assert InputOk(enc, rows, d.key, whole.from, inputs[f]);
    var i := LowU32(inputs[f]);
    var e := whole.from[i];
    assert i !in stash;
    forall k | 0 <= k < |c.stash| ensures c.stash[k] != e {
      assert stash[k] in stash && whole.to[whole.from[stash[k]]] == stash[k] && whole.to[whole.from[i]] == i;
    }
    SlotOf(p, rows, c, t, e);
    assert whole.to[e] == i && perm.to[e] == AsPerm(d.receiver).to[i];
  }

  /** The table the builder made is the one the model describes. */
  lemma ChtHolds(enc: Cipher, p: Params, rows: seq<Row>, d: Draws, inputs: seq<nat>, home: seq<Option<nat>>, cht: seq<nat>, stash: seq<nat>, t: Table)
    requires Placed(enc, p, rows, d, inputs, home, cht, stash) && Bounded(stash, p.Total())
    requires BuildTable(p, rows, CoinOf(p, d, stash)) == Ok(t)
    ensures ChtOk(enc, t, AsPerm(d.receiver).to, cht)
  {
    ElementsHome(enc, p, rows, d, inputs, home, cht, stash, t);
    BlocksAreElements(enc, p, rows, d, inputs, home, cht, stash, t);
    BlocksOnce(enc, p, rows, d, inputs, home, cht, stash);
    SetupSizes(enc, p, rows, d);
    assert t.params == p;
    hide Setup, BuildTable;
    forall a: nat {:trigger a in t.slots} | a in t.slots ensures a < TWO32 {
      var i := BuiltSlot(p, rows, CoinOf(p, d, stash), t, a);
      UnstashedIs(rows, CoinOf(p, d, stash), a, i);
    }
  }

  lemma ElementsHome(enc: Cipher, p: Params, rows: seq<Row>, d: Draws, inputs: seq<nat>, home: seq<Option<nat>>, cht: seq<nat>, stash: seq<nat>, t: Table)
    requires Placed(enc, p, rows, d, inputs, home, cht, stash) && Bounded(stash, p.Total())
    requires BuildTable(p, rows, CoinOf(p, d, stash)) == Ok(t)
    ensures forall a: nat {:trigger a in t.slots} :: a in t.slots ==> HasHome(enc, t, AsPerm(d.receiver).to, cht, a)
  {
    var whole, c := Whole(d.b0, d.b1, d.b2), CoinOf(p, d, stash);
    PlacedStash(enc, p, rows, d, inputs, home, cht, stash);
    SetupSizes(enc, p, rows, d);
    var perm := CombinedPerm(p, d);
    assert t.params == p;
    hide Whole, LowU32, TagOf, BuildTable, Setup, H0, H1;
    forall a: nat {:trigger a in t.slots} | a in t.slots ensures HasHome(enc, t, AsPerm(d.receiver).to, cht, a) {
      var e := BuiltSlot(p, rows, c, t, a);
      UnstashedIs(rows, c, a, e);
      var i := whole.to[e];
      assert whole.from[i] == e && HasBlock(inputs, i);
      var f :| 0 <= f < |inputs| && LowU32(inputs[f]) == i;
      NotStashed(whole.from, stash, c.stash, i, e);
      assert home[f].Some?;
      BlockIsElement(enc, p, rows, d, inputs, home, cht, stash, t, f);
      assert Stored(cht, p.logCol, inputs[f]);
      assert HomeOf(enc, t, AsPerm(d.receiver).to, cht, inputs[f], a);
    }
  }

  lemma NotStashed(from: seq<nat>, stash: seq<nat>, rows: seq<nat>, i: nat, e: nat)
    requires Bounded(stash, |from|) && rows == Picked(from, stash) && i < |from| && from[i] == e && e !in rows
    ensures i !in stash
  {
    forall k | 0 <= k < |stash| ensures stash[k] != i { assert rows[k] == from[stash[k]] && rows[k] in rows; }
  }

  lemma BlocksAreElements(enc: Cipher, p: Params, rows: seq<Row>, d: Draws, inputs: seq<nat>, home: seq<Option<nat>>, cht: seq<nat>, stash: seq<nat>, t: Table)
    requires Placed(enc, p, rows, d, inputs, home, cht, stash) && Bounded(stash, p.Total())
    requires BuildTable(p, rows, CoinOf(p, d, stash)) == Ok(t)
    ensures forall p {:trigger cht[p]} :: 0 <= p < |cht| && cht[p] != 0 ==> IsElement(enc, t, AsPerm(d.receiver).to, cht[p])
  {
    SetupSizes(enc, p, rows, d);
    hide Whole, LowU32, TagOf, BuildTable, Setup, H0, H1, CoinOf, BlockOf, InputsOk;
    forall q {:trigger cht[q]} | 0 <= q < |cht| && cht[q] != 0 ensures IsElement(enc, t, AsPerm(d.receiver).to, cht[q]) {
      assert Some(q) in home;
      var f :| 0 <= f < |home| && home[f] == Some(q);
      BlockIsElement(enc, p, rows, d, inputs, home, cht, stash, t, f);
    }
  }

  lemma BlocksOnce(enc: Cipher, p: Params, rows: seq<Row>, d: Draws, inputs: seq<nat>, home: seq<Option<nat>>, cht: seq<nat>, stash: seq<nat>)
    requires Placed(enc, p, rows, d, inputs, home, cht, stash)
    ensures forall p, q {:trigger cht[p], cht[q]} :: 0 <= p < |cht| && 0 <= q < |cht| && cht[p] != 0 && TagOf(cht[p]) == TagOf(cht[q]) ==> p == q
  {
    var whole := Whole(d.b0, d.b1, d.b2);
    SetupSizes(enc, p, rows, d);
    var perm := CombinedPerm(p, d);
    hide Whole, LowU32, TagOf, Setup, H0, H1;
    forall x, y {:trigger cht[x], cht[y]} | 0 <= x < |cht| && 0 <= y < |cht| && cht[x] != 0 && TagOf(cht[x]) == TagOf(cht[y]) ensures x == y {
      assert Some(x) in home;
      var e :| 0 <= e < |home| && home[e] == Some(x);
      assert InputOk(enc, rows, d.key, whole.from, inputs[e]);
      TagZero(cht[y]);
      assert cht[y] != 0;
      assert Some(y) in home;
      var f :| 0 <= f < |home| && home[f] == Some(y);
      assert InputOk(enc, rows, d.key, whole.from, inputs[f]);
      var a, b := whole.from[LowU32(inputs[e])], whole.from[LowU32(inputs[f])];
      assert rows[a].addr == rows[b].addr;
      assert a == b;
      assert whole.to[a] == LowU32(inputs[e]) && whole.to[b] == LowU32(inputs[f]);
      assert e == f;
    }
  }

  /** The payload columns in builder order, dummies included. */
  function BuilderRows(p: Params, rows: seq<Row>, d: Draws): (r: seq<Row>)
    requires DrawsOk(p, d) && |rows| == p.numElements
    ensures |r| == p.Total()
  {
    Through(d.b0, d.b1, d.b2, Padded(p, rows))
  }

  function ReceiverRows(p: Params, rows: seq<Row>, d: Draws): (r: seq<Row>)
    requires DrawsOk(p, d) && |rows| == p.numElements
    ensures |r| == p.Total()
  {
    ShuffleOf(d.receiver, BuilderRows(p, rows, d))
  }

  /** Both shuffles together are the coin's permutation. */
  lemma ReceiverAt(p: Params, rows: seq<Row>, d: Draws, j: nat)
    requires DrawsOk(p, d) && |rows| == p.numElements && j < p.Total()
    ensures CombinedPerm(p, d).from[j] < p.Total()
    ensures ReceiverRows(p, rows, d)[j] == Padded(p, rows)[CombinedPerm(p, d).from[j]]
  {
    var perm := CombinedPerm(p, d);
    WholePicks(d.b0, d.b1, d.b2, Padded(p, rows));
    ShufflePicks(d.receiver, BuilderRows(p, rows, d));
  }

  /** Where the stashed builder position `s` is in receiver order. */
  lemma StashAt(p: Params, rows: seq<Row>, d: Draws, s: nat)
    requires DrawsOk(p, d) && |rows| == p.numElements && s < p.Total() && Whole(d.b0, d.b1, d.b2).from[s] < p.numElements
    ensures IsPerm(AsPerm(d.receiver), p.Total())
    ensures ReceiverRows(p, rows, d)[AsPerm(d.receiver).to[s]] == rows[Whole(d.b0, d.b1, d.b2).from[s]]
  {
    var perm := CombinedPerm(p, d);
    ReceiverAt(p, rows, d, AsPerm(d.receiver).to[s]);
  }

  /** Receiver slots marked by the stash. */
  ghost predicate StashTouched(p: Params, d: Draws, stash: seq<nat>, touched: seq<bool>)
    requires DrawsOk(p, d)
  {
    && |touched| == p.Total() && Bounded(stash, p.Total()) && Bounded(AsPerm(d.receiver).to, p.Total())
    && forall s {:trigger AsPerm(d.receiver).to[s]} :: 0 <= s < p.Total() ==> (touched[AsPerm(d.receiver).to[s]] <==> s in stash)
  }

  lemma TouchedAt(p: Params, d: Draws, stash: seq<nat>, touched: seq<bool>, j: nat)
    requires DrawsOk(p, d) && j < p.Total()
    requires Bounded(AsPerm(d.receiver).to, p.Total()) && StashTouched(p, d, stash, touched)
    ensures CombinedPerm(p, d).from[j] in CoinOf(p, d, stash).stash <==> touched[j]
  {
    var perm, whole, r, c := CombinedPerm(p, d), Whole(d.b0, d.b1, d.b2), AsPerm(d.receiver), CoinOf(p, d, stash);
    hide Whole, AsPerm, CombinedPerm;
    var s := r.from[j];
    assert r.to[s] == j && perm.from[j] == whole.from[s];
    if s in stash {
      var k :| 0 <= k < |stash| && stash[k] == s;
      assert c.stash[k] == whole.from[s];
    }
    if whole.from[s] in c.stash {
      var k :| 0 <= k < |c.stash| && c.stash[k] == whole.from[s];
      assert whole.to[whole.from[s]] == s && whole.to[whole.from[stash[k]]] == stash[k];
    }
  }

  lemma RowsPicked(xs: seq<nat>, ys: seq<Record>, from: seq<nat>)
    requires |xs| == |ys| && Bounded(from, |xs|)
    ensures RowsOf(Picked(xs, from), Picked(ys, from)) == Picked(RowsOf(xs, ys), from)
  {
  }

  /** Shuffling the address and payload columns alike shuffles the rows. */
  lemma RowsThrough(b0: seq<nat>, b1: seq<nat>, b2: seq<nat>, xs: seq<nat>, ys: seq<Record>)
    requires Choices(b0) && Choices(b1) && Choices(b2) && |b0| == |b1| == |b2| == |xs| == |ys|
    ensures RowsOf(Through(b0, b1, b2, xs), Through(b0, b1, b2, ys)) == Through(b0, b1, b2, RowsOf(xs, ys))
  {
    WholePicks(b0, b1, b2, xs);
    WholePicks(b0, b1, b2, ys);
    WholePicks(b0, b1, b2, RowsOf(xs, ys));
    RowsPicked(xs, ys, Whole(b0, b1, b2).from);
  }

  lemma RowsShuffled(fy: seq<nat>, xs: seq<nat>, ys: seq<Record>)
    requires Choices(fy) && |fy| == |xs| == |ys|
    ensures RowsOf(ShuffleOf(fy, xs), ShuffleOf(fy, ys)) == ShuffleOf(fy, RowsOf(xs, ys))
  {
    ShufflePicks(fy, xs);
    ShufflePicks(fy, ys);
    ShufflePicks(fy, RowsOf(xs, ys));
    RowsPicked(xs, ys, AsPerm(fy).from);
  }

  /** The fields after a build are those of the model's table. */
  ghost predicate BuiltFields(p: Params, rows: seq<Row>, d: Draws, stash: seq<nat>, xs: seq<nat>, ys: seq<Record>,
                              touched: seq<bool>, stashXs: seq<nat>, stashYs: seq<Record>)
    requires DrawsOk(p, d) && |rows| == p.numElements
  {
    && |xs| == |ys| == p.Total() && RowsOf(xs, ys) == ReceiverRows(p, rows, d)
    && StashTouched(p, d, stash, touched) && |stashXs| == |stashYs| == |stash| == p.stashSize
    && (forall k :: 0 <= k < |stash| ==> stashXs[k] == xs[AsPerm(d.receiver).to[stash[k]]] && stashYs[k] == ys[AsPerm(d.receiver).to[stash[k]]])
  }

  lemma BuiltModel(p: Params, rows: seq<Row>, d: Draws, stash: seq<nat>, xs: seq<nat>, ys: seq<Record>,
                   touched: seq<bool>, stashXs: seq<nat>, stashYs: seq<Record>, t: Table)
    requires DrawsOk(p, d) && |rows| == p.numElements && BuiltFields(p, rows, d, stash, xs, ys, touched, stashXs, stashYs)
    requires BuildTable(p, rows, CoinOf(p, d, stash)) == Ok(t)
    requires forall k :: 0 <= k < |stash| ==> Whole(d.b0, d.b1, d.b2).from[stash[k]] < p.numElements
    ensures t.params == p && t.key == d.key && t.count == 0 && t.touched == touched
    ensures t.xs == xs && t.ys == ys && t.stashXs == stashXs && t.stashYs == stashYs
  {
    var perm, n, all := CombinedPerm(p, d), p.Total(), Padded(p, rows);
    assert t.params == p && t.key == d.key && t.count == 0;
    hide CombinedPerm, Whole, AsPerm, ReceiverRows, StashTouched;
    forall j | 0 <= j < n ensures xs[j] == all[perm.from[j]].addr && ys[j] == all[perm.from[j]].rec {
      ReceiverAt(p, rows, d, j);
      assert RowsOf(xs, ys)[j] == Row(xs[j], ys[j]);
    }
    forall j | 0 <= j < n ensures touched[j] <==> perm.from[j] in CoinOf(p, d, stash).stash {
      TouchedSizes(p, d, stash, touched);
      TouchedAt(p, d, stash, touched, j);
    }
    forall k | 0 <= k < |stash| ensures Row(stashXs[k], stashYs[k]) == rows[CoinOf(p, d, stash).stash[k]] {
      TouchedSizes(p, d, stash, touched);
      StashAt(p, rows, d, stash[k]);
      var s := AsPerm(d.receiver).to[stash[k]];
      assert RowsOf(xs, ys)[s] == Row(xs[s], ys[s]);
    }
    TouchedSizes(p, d, stash, touched);
    assert t.xs == xs && t.ys == ys && t.touched == touched;
    assert t.stashXs == stashXs && t.stashYs == stashYs;
  }

  lemma TouchedSizes(p: Params, d: Draws, stash: seq<nat>, touched: seq<bool>)
    requires DrawsOk(p, d) && StashTouched(p, d, stash, touched)
    ensures |touched| == p.Total() && Bounded(stash, p.Total()) && Bounded(AsPerm(d.receiver).to, p.Total())
  {
  }

  lemma TableExists(p: Params, rows: seq<Row>, c: Coin)
    requires p.Valid() && |rows| == p.numElements && DistinctAddrs(rows) && ValidCoin(p, c)
    ensures BuildTable(p, rows, c).Ok?
  {
  }

  /** The dummies of the model are the dummies of the builder order seen through the receiver shuffle. */
  lemma DummiesBuilt(p: Params, rows: seq<Row>, d: Draws, stash: seq<nat>, t: Table)
    requires DrawsOk(p, d) && |rows| == p.numElements && Bounded(stash, p.Total()) && BuildTable(p, rows, CoinOf(p, d, stash)) == Ok(t)
    ensures var dummies := Whole(d.b0, d.b1, d.b2).to[p.numElements..];
      && |dummies| == |t.dummySlots|
      && forall k {:trigger dummies[k]} :: 0 <= k < |dummies| ==> dummies[k] < p.Total() && AsPerm(d.receiver).to[dummies[k]] == t.dummySlots[k]
  {
    var perm, whole := CombinedPerm(p, d), Whole(d.b0, d.b1, d.b2);
    hide Whole, AsPerm;
    var dummies := whole.to[p.numElements..];
    forall k {:trigger dummies[k]} | 0 <= k < |dummies| ensures dummies[k] < p.Total() && AsPerm(d.receiver).to[dummies[k]] == t.dummySlots[k] {
      assert dummies[k] == whole.to[p.numElements + k];
    }
  }

  /** The receiver slot that a shown tag leads to is the one the model selects. */
  lemma LookupRefines(enc: Cipher, t: Table, to: seq<nat>, cht: seq<nat>, dummies: seq<nat>, tag: Tag, useDummy: bool, random: nat)
    requires Ideal(enc) && ChtOk(enc, t, to, cht) && BlankTag(enc, random) && Askable(enc, tag) && t.count < |dummies| == |t.dummySlots|
    requires dummies[t.count] < |to| && to[dummies[t.count]] == t.dummySlots[t.count]
    ensures
      var hit := !useDummy && tag.key == t.key && tag.addr in t.slots;
      var shown := if useDummy then random else enc.Block(tag.key, tag.addr);
      var (index, found) := Lookup(shown, cht[H0(shown, t.params.logCol)], cht[H1(shown, t.params.logCol)], dummies[t.count]);
      found == hit && index < |to| && to[index] == if hit then t.slots[tag.addr] else t.dummySlots[t.count]
  {
    var hit := !useDummy && tag.key == t.key && tag.addr in t.slots;
    var shown := if useDummy then random else enc.Block(tag.key, tag.addr);
    assert KeyedOk(enc, t);
    hide TagOf, H0, H1, Lookup, ChtOk;
    if hit {
      LookupFinds(enc, t, to, cht, tag.addr, shown, dummies[t.count]);
    } else {
      LookupMisses(enc, t, to, cht, shown, dummies[t.count]);
    }
  }

  function Before(results: seq<(Record, bool)>, r: Outcome<(Table, seq<(Record, bool)>)>): Outcome<(Table, seq<(Record, bool)>)> {
    if r.Ok? then Ok((r.value.0, results + r.value.1)) else r
  }

  /** The queries from number `i` on. */
  function EachFrom(t: Table, tags: seq<Tag>, useDummies: seq<bool>, i: nat): Outcome<(Table, seq<(Record, bool)>)>
    requires |tags| == |useDummies| && i <= |tags|
  {
    QueryEach(t, tags[i..], useDummies[i..])
  }

  /** Running the next of several queries ahead. */
  lemma EachNext(t: Table, tags: seq<Tag>, useDummies: seq<bool>, i: nat, results: seq<(Record, bool)>)
    requires i < |tags| == |useDummies| && Before(results, EachFrom(t, tags, useDummies, i)).Ok?
    ensures var first := Query(t, tags[i], useDummies[i]);
      && first.Ok?
      && Before(results, EachFrom(t, tags, useDummies, i))
         == Before(results + [(first.value.1, first.value.2)], EachFrom(first.value.0, tags, useDummies, i + 1))
  {
    hide Query;
    assert tags[i..][1..] == tags[i + 1..] && useDummies[i..][1..] == useDummies[i + 1..];
    var first := Query(t, tags[i], useDummies[i]);
    if first.Ok? {
      var rest := QueryEach(first.value.0, tags[i + 1..], useDummies[i + 1..]);
      if rest.Ok? {
        assert results + ([(first.value.1, first.value.2)] + rest.value.1) == (results + [(first.value.1, first.value.2)]) + rest.value.1;
      }
    }
  }

  lemma EachAll(t: Table, tags: seq<Tag>, useDummies: seq<bool>)
    requires |tags| == |useDummies|
    ensures Before([], EachFrom(t, tags, useDummies, 0)) == QueryEach(t, tags, useDummies)
  {
    assert tags[0..] == tags && useDummies[0..] == useDummies;
    var r := QueryEach(t, tags, useDummies);
    if r.Ok? { assert [] + r.value.1 == r.value.1; }
  }

  lemma EachDone(t: Table, tags: seq<Tag>, useDummies: seq<bool>, results: seq<(Record, bool)>)
    requires |tags| == |useDummies|
    ensures Before(results, EachFrom(t, tags, useDummies, |tags|)) == Ok((t, results))
  {
    assert results + [] == results;
  }

  /** What a query leaves alone. */
  lemma QueryKeeps(t: Table, tag: Tag, useDummy: bool)
    requires Query(t, tag, useDummy).Ok?
    ensures var t1 := Query(t, tag, useDummy).value.0;
      t1.params == t.params && t1.key == t.key && t1.slots == t.slots && t1.dummySlots == t.dummySlots && t1.count == t.count + 1
      && t1.xs == t.xs && t1.ys == t.ys && t1.stashXs == t.stashXs && t1.stashYs == t.stashYs && t.count < |t.dummySlots|
  {
  }

  /** The cuckoo table's contract speaks of the elements alone. */
  lemma ChtKept(enc: Cipher, t: Table, t1: Table, to: seq<nat>, cht: seq<nat>)
    requires ChtOk(enc, t, to, cht) && t1.params == t.params && t1.key == t.key && t1.slots == t.slots
    ensures ChtOk(enc, t1, to, cht)
  {
    hide TagOf, LowU32;
    forall a: nat {:trigger a in t1.slots} | a in t1.slots ensures HasHome(enc, t1, to, cht, a) {
      assert HasHome(enc, t, to, cht, a);
      var b: nat :| HomeOf(enc, t, to, cht, b, a);
      assert HomeOf(enc, t1, to, cht, b, a);
    }
    forall p {:trigger cht[p]} | 0 <= p < |cht| && cht[p] != 0 ensures IsElement(enc, t1, to, cht[p]) {
      assert IsElement(enc, t, to, cht[p]);
      var a: nat :| BlockOf(enc, t, to, cht[p], a);
      assert BlockOf(enc, t1, to, cht[p], a);
    }
  }

  ghost predicate RealTags(enc: Cipher, qs: seq<nat>, tags: seq<Tag>) {
    |qs| == |tags| && forall i {:trigger qs[i]} :: 0 <= i < |qs| ==> Askable(enc, tags[i]) && qs[i] == enc.Block(tags[i].key, tags[i].addr)
  }

  /** The tags a batch shows: random ones in place of those to be hidden. */
  function Shown(qs: seq<nat>, useDummies: seq<bool>, randoms: seq<nat>): (shown: seq<nat>)
    requires |qs| == |useDummies| == |randoms|
    ensures |shown| == |qs|
  {
    seq(|qs|, i requires 0 <= i < |qs| => if useDummies[i] then randoms[i] else qs[i])
  }

  ghost predicate Shows(enc: Cipher, shown: seq<nat>, useDummies: seq<bool>, randoms: seq<nat>, tags: seq<Tag>) {
    && |shown| == |useDummies| == |randoms| == |tags|
    && forall i {:trigger shown[i]} :: 0 <= i < |shown| ==>
         BlankTag(enc, randoms[i]) && Askable(enc, tags[i]) && shown[i] == if useDummies[i] then randoms[i] else enc.Block(tags[i].key, tags[i].addr)
  }

  lemma ShownTags(enc: Cipher, qs: seq<nat>, useDummies: seq<bool>, randoms: seq<nat>, tags: seq<Tag>)
    requires |qs| == |useDummies| == |randoms| && RealTags(enc, qs, tags)
    requires forall i {:trigger randoms[i]} :: 0 <= i < |randoms| ==> BlankTag(enc, randoms[i])
    ensures Shows(enc, Shown(qs, useDummies, randoms), useDummies, randoms, tags)
  {
    hide BlankTag;
    forall i | 0 <= i < |qs| ensures BlankTag(enc, randoms[i]) && Askable(enc, tags[i]) && Shown(qs, useDummies, randoms)[i] == if useDummies[i] then randoms[i] else enc.Block(tags[i].key, tags[i].addr) {
      assert qs[i] == enc.Block(tags[i].key, tags[i].addr);
      assert Askable(enc, tags[i]) && qs[i] == enc.Block(tags[i].key, tags[i].addr);
    }
  }

  class OhTable {
    const params: Params
    const enc: Cipher
    const key: nat
    const receiverShuffle: LocalPermutation
    var qsBuilderOrder: seq<nat>
    var xsBuilderOrder: seq<nat>
    var ysBuilderOrder: seq<Record>
    var dummyIndices: seq<nat>
    var cht: seq<nat>
    var builderStashIndices: seq<nat>
    var xsReceiverOrder: seq<nat>
    var ysReceiverOrder: seq<Record>
    var stashXs: seq<nat>
    var stashYs: seq<Record>
    var queryCount: nat
    var touched: seq<bool>
    ghost var model: Table

    ghost predicate Mirrors() reads this {
      && |touched| == |xsReceiverOrder| == |ysReceiverOrder| == params.Total()
      && model.params == params && model.key == key && model.touched == touched
      && model.xs == xsReceiverOrder && model.ys == ysReceiverOrder && model.stashXs == stashXs && model.stashYs == stashYs
    }

    ghost predicate DummiesMirror() reads this {
      && Choices(receiverShuffle.fy) && |dummyIndices| == |model.dummySlots| == params.numDummies
      && forall k {:trigger dummyIndices[k]} :: 0 <= k < |dummyIndices| ==>
           dummyIndices[k] < |receiverShuffle.fy| && AsPerm(receiverShuffle.fy).to[dummyIndices[k]] == model.dummySlots[k]
    }

    /** The table is the model's after `count` queries. */
    ghost predicate ValidAt(count: nat) reads this, receiverShuffle {
      && Ideal(enc) && receiverShuffle.Valid() && receiverShuffle.n == params.Total() && Mirrors() && DummiesMirror()
      && ChtOk(enc, model, AsPerm(receiverShuffle.fy).to, cht) && model.count == count
    }

    ghost predicate Valid() reads this, receiverShuffle { ValidAt(queryCount) }

    /** The blank table of the source's `new`, before `build`. */
    constructor (params: Params, enc: Cipher, key: nat, receiver: seq<nat>)
      requires Choices(receiver) && |receiver| == params.Total()
      ensures this.params == params && this.enc == enc && this.key == key && receiverShuffle.fy == receiver
      ensures fresh(receiverShuffle) && Blank()
    {
      this.params, this.enc, this.key := params, enc, key;
      receiverShuffle := new LocalPermutation.FromFisherYates(receiver);
      qsBuilderOrder, dummyIndices := seq(params.Total(), _ => 0), seq(params.numDummies, _ => 0);
      xsBuilderOrder, ysBuilderOrder := seq(params.Total(), _ => params.Sentinel()), seq(params.Total(), _ => ZERO);
      xsReceiverOrder, ysReceiverOrder := seq(params.Total(), _ => 0), seq(params.Total(), _ => ZERO);
      stashXs, stashYs, builderStashIndices := seq(params.stashSize, _ => 0), seq(params.stashSize, _ => ZERO), seq(params.stashSize, _ => 0);
      cht, queryCount, touched := [], 0, seq(params.Total(), _ => false);
    }

    method FillPrfTags(xs: seq<nat>)
      requires |xs| == params.numElements && qsBuilderOrder == seq(params.Total(), _ => 0)
      modifies this`qsBuilderOrder
      ensures qsBuilderOrder == TagColumn(enc, key, xs, params.Total())
    {
      var qs := seq(|xs|, i requires 0 <= i < |xs| => enc.Block(key, xs[i]));
      qsBuilderOrder := qs + qsBuilderOrder[params.numElements..];
    }

    /** Tags and payloads by the three permutations, row numbers by their inverse. */
    method ShuffleBuilderOrder(xs: seq<nat>, ys: seq<Record>, d: Draws)
      requires |xs| == |ys| == params.numElements && DrawsOk(params, d) && |qsBuilderOrder| == params.Total()
      requires xsBuilderOrder == seq(params.Total(), _ => params.Sentinel()) && ysBuilderOrder == seq(params.Total(), _ => ZERO)
      modifies this`qsBuilderOrder, this`xsBuilderOrder, this`ysBuilderOrder, this`dummyIndices
      ensures qsBuilderOrder == Through(d.b0, d.b1, d.b2, old(qsBuilderOrder))
      ensures |xsBuilderOrder| == |ysBuilderOrder| == params.Total()
      ensures RowsOf(xsBuilderOrder, ysBuilderOrder) == BuilderRows(params, RowsOf(xs, ys), d)
      ensures dummyIndices == Whole(d.b0, d.b1, d.b2).to[params.numElements..]
    {
      xsBuilderOrder := xs + xsBuilderOrder[params.numElements..];
      ysBuilderOrder := ys + ysBuilderOrder[params.numElements..];
      assert RowsOf(xsBuilderOrder, ysBuilderOrder) == Padded(params, RowsOf(xs, ys));
      RowsThrough(d.b0, d.b1, d.b2, xsBuilderOrder, ysBuilderOrder);
      qsBuilderOrder := Through(d.b0, d.b1, d.b2, qsBuilderOrder);
      xsBuilderOrder := Through(d.b0, d.b1, d.b2, xsBuilderOrder);
      ysBuilderOrder := Through(d.b0, d.b1, d.b2, ysBuilderOrder);
      var indices := Back(d.b0, d.b1, d.b2, Identity(params.Total()));
      dummyIndices := indices[params.numElements..];
    }

    /** The builder compacts the nonzero tags, puts them in a random order and builds the cuckoo table. */
    method BuildCht(local: seq<nat>) returns (ok: bool, stashed: seq<nat>, ghost home: seq<Option<nat>>)
      requires Choices(local) && |local| == |Compacted(qsBuilderOrder)|
      modifies this`cht
      ensures var inputs := ShuffleOf(local, Compacted(qsBuilderOrder));
        && (ok <==> params.stashSize <= |inputs| && Fits(inputs, params.logCol, params.stashSize))
        && (ok ==> |stashed| == params.stashSize && Placement(inputs, params.logCol, home, cht, stashed))
    {
      var compacted: seq<nat> := [];
      for i := 0 to |qsBuilderOrder|
        invariant compacted == Compacted(qsBuilderOrder[..i])
      {
        assert qsBuilderOrder[..i + 1][..i] == qsBuilderOrder[..i];
        if qsBuilderOrder[i] != 0 { compacted := compacted + [SetLowU32(qsBuilderOrder[i], i % TWO32)]; }
      }
      assert qsBuilderOrder[..|qsBuilderOrder|] == qsBuilderOrder;
      var perm := new LocalPermutation.FromFisherYates(local);
      var values := new nat[|compacted|](i requires 0 <= i < |compacted| => compacted[i]);
      assert values[..] == compacted;
      perm.Shuffle(values);
      var table, stash;
      ok, table, stash, home := Cht.Build(params.stashSize, params.logCol, values[..]);
      cht, stashed := table[..], stash[..];
    }

    method ShuffleReceiverOrder()
      requires receiverShuffle.Valid() && |xsBuilderOrder| == |ysBuilderOrder| == receiverShuffle.n
      modifies this`xsReceiverOrder, this`ysReceiverOrder
      ensures |xsReceiverOrder| == |ysReceiverOrder| == receiverShuffle.n
      ensures RowsOf(xsReceiverOrder, ysReceiverOrder) == ShuffleOf(receiverShuffle.fy, RowsOf(xsBuilderOrder, ysBuilderOrder))
    {
      RowsShuffled(receiverShuffle.fy, xsBuilderOrder, ysBuilderOrder);
      xsReceiverOrder := ShuffleOf(receiverShuffle.fy, xsBuilderOrder);
      ysReceiverOrder := ShuffleOf(receiverShuffle.fy, ysBuilderOrder);
    }

    /** The stashed rows, found in receiver order, are marked and copied out. */
    method PlaceStash(stashed: seq<nat>)
      requires receiverShuffle.Valid() && |xsReceiverOrder| == |ysReceiverOrder| == |touched| == receiverShuffle.n
      requires |stashed| == |stashXs| == |stashYs| && Bounded(stashed, receiverShuffle.n)
      requires forall j :: 0 <= j < |touched| ==> !touched[j]
      modifies this`touched, this`stashXs, this`stashYs, this`builderStashIndices, receiverShuffle`pi
      ensures receiverShuffle.Valid() && builderStashIndices == stashed && |touched| == receiverShuffle.n && |stashXs| == |stashYs| == |stashed|
      ensures var to := AsPerm(receiverShuffle.fy).to;
        && Bounded(to, receiverShuffle.n)
        && (forall k :: 0 <= k < |stashed| ==> stashXs[k] == xsReceiverOrder[to[stashed[k]]] && stashYs[k] == ysReceiverOrder[to[stashed[k]]])
        && (forall s {:trigger to[s]} :: 0 <= s < receiverShuffle.n ==> (touched[to[s]] <==> s in stashed))
    {
      builderStashIndices := stashed;
      ghost var to := AsPerm(receiverShuffle.fy).to;
      ShuffleIsPerm(receiverShuffle.fy, Identity(receiverShuffle.n));
      ShufflePicks(receiverShuffle.fy, Identity(receiverShuffle.n));
      hide AsPerm;
      for k := 0 to |stashed|
        invariant builderStashIndices == stashed
        invariant receiverShuffle.Valid() && |touched| == receiverShuffle.n && |stashXs| == |stashYs| == |stashed|
        invariant forall i :: 0 <= i < k ==> stashXs[i] == xsReceiverOrder[to[stashed[i]]] && stashYs[i] == ysReceiverOrder[to[stashed[i]]]
        invariant forall s {:trigger to[s]} :: 0 <= s < receiverShuffle.n ==> (touched[to[s]] <==> s in stashed[..k])
      {
        var index := receiverShuffle.EvaluateAt(stashed[k]);
        assert stashed[..k + 1] == stashed[..k] + [stashed[k]];
        touched := touched[index := true];
        stashXs := stashXs[k := xsReceiverOrder[index]];
        stashYs := stashYs[k := ysReceiverOrder[index]];
      }
      assert stashed[..|stashed|] == stashed;
    }

    ghost predicate Blank() reads this, receiverShuffle {
      && receiverShuffle.Valid() && receiverShuffle.n == params.Total() && queryCount == 0
      && touched == seq(params.Total(), _ => false) && qsBuilderOrder == seq(params.Total(), _ => 0)
      && xsBuilderOrder == seq(params.Total(), _ => params.Sentinel()) && ysBuilderOrder == seq(params.Total(), _ => ZERO)
      && |stashXs| == |stashYs| == params.stashSize
    }

    /** `build`: it succeeds exactly when the cuckoo graph of the tags overflows into no more than the stash,
        and then this is the table the model builds from the same rows with the same choices. */
    method Build(xs: seq<nat>, ys: seq<Record>, d: Draws) returns (ok: bool, ghost c: Coin)
      requires Blank() && |xs| == |ys| && Setup(enc, params, RowsOf(xs, ys), d) && d.key == key && d.receiver == receiverShuffle.fy
      modifies this, receiverShuffle`pi
      ensures |Compacted(BuilderTags(enc, params, RowsOf(xs, ys), d))| == params.numElements
      ensures ok <==> Fits(Inputs(enc, params, RowsOf(xs, ys), d), params.logCol, params.stashSize)
      ensures ok ==> Valid() && ValidCoin(params, c) && BuildTable(params, RowsOf(xs, ys), c) == Ok(model)
    {
      hide Through, Whole, Compacted, TagColumn, BuildTable, Placement, Fits, InputsOk, Ideal, CombinedPerm, AsPerm, ShuffleOf, Back, Picked;
      hide Setup, Padded, DrawsOk, Bounded, CoinOf, DistinctAddrs, ValidCoin, Cht.Stash, ChtOk, DummiesMirror, Mirrors;
      ghost var rows := RowsOf(xs, ys);
      SetupSizes(enc, params, rows, d);
      InputsAreBlocks(enc, params, rows, d);
      FillPrfTags(xs);
      assert AddrsOf(rows) == xs;
      ShuffleBuilderOrder(xs, ys, d);
      assert qsBuilderOrder == BuilderTags(enc, params, rows, d);
      var stashed;
      ghost var home;
      c := Coin(key, Perm([], []), []);
      ok, stashed, home := BuildCht(d.local);
      if !ok { return; }
      ghost var inputs := Inputs(enc, params, rows, d);
      assert Placed(enc, params, rows, d, inputs, home, cht, stashed);
      PlacedStash(enc, params, rows, d, inputs, home, cht, stashed);
      ShuffleReceiverOrder();
      PlaceStash(stashed);
      c := CoinOf(params, d, stashed);
      TableExists(params, rows, c);
      model := BuildTable(params, rows, c).value;
      Finish(rows, d, inputs, home, stashed);
    }

    ghost predicate Finished(rows: seq<Row>, d: Draws, stash: seq<nat>) reads this
      requires DrawsOk(params, d) && |rows| == params.numElements
    {
      && BuiltFields(params, rows, d, stash, xsReceiverOrder, ysReceiverOrder, touched, stashXs, stashYs) && queryCount == 0
      && dummyIndices == Whole(d.b0, d.b1, d.b2).to[params.numElements..]
    }

    lemma Finish(rows: seq<Row>, d: Draws, inputs: seq<nat>, home: seq<Option<nat>>, stash: seq<nat>)
      requires Placed(enc, params, rows, d, inputs, home, cht, stash) && Bounded(stash, params.Total())
      requires DrawsOk(params, d) && |rows| == params.numElements && Finished(rows, d, stash)
      requires BuildTable(params, rows, CoinOf(params, d, stash)) == Ok(model)
      requires receiverShuffle.Valid() && receiverShuffle.n == params.Total() && receiverShuffle.fy == d.receiver && key == d.key
      ensures Valid()
    {
      PlacedStash(enc, params, rows, d, inputs, home, cht, stash);
      SetupSizes(enc, params, rows, d);
      BuiltModel(params, rows, d, stash, xsReceiverOrder, ysReceiverOrder, touched, stashXs, stashYs, model);
      DummiesBuilt(params, rows, d, stash, model);
      ChtHolds(enc, params, rows, d, inputs, home, cht, stash, model);
      hide *;
      hide ChtOk, BuildTable, AsPerm, Whole, Ideal;
    }

    /** Marks and reads the slot a lookup leads to. */
    method Answer(index: nat, found: bool, ghost useDummy: bool, ghost random: nat, ghost tag: Tag) returns (y: Record)
      requires ValidAt(model.count) && BlankTag(enc, random) && Askable(enc, tag) && Tables.Query(model, tag, useDummy).Ok? && model.count < |dummyIndices|
      requires (index, found) == LookUp(if useDummy then random else enc.Block(tag.key, tag.addr), model.count)
      modifies this`touched, this`model, receiverShuffle`pi
      ensures ValidAt(model.count) && Tables.Query(old(model), tag, useDummy) == Ok((model, y, found))
    {
      ghost var was, to := model, AsPerm(receiverShuffle.fy).to;
      QueryKeeps(was, tag, useDummy);
      LookupRefines(enc, model, to, cht, dummyIndices, tag, useDummy, random);
      var at := receiverShuffle.EvaluateAt(index);
      assert !touched[at];
      touched := touched[at := true];
      y := ysReceiverOrder[at];
      model := Tables.Query(was, tag, useDummy).value.0;
      ChtKept(enc, was, model, to, cht);
    }

    /** `query` for the shown tag of a pair of key and address, or for a random tag: exactly the model's query. */
    method Query(q: nat, useDummy: bool, random: nat, ghost tag: Tag) returns (y: Record, found: bool)
      requires Valid() && q == enc.Block(tag.key, tag.addr) && BlankTag(enc, random) && Askable(enc, tag) && Tables.Query(model, tag, useDummy).Ok?
      modifies this`queryCount, this`touched, this`model, receiverShuffle`pi
      ensures Valid() && Tables.Query(old(model), tag, useDummy) == Ok((model, y, found))
    {
      QueryKeeps(model, tag, useDummy);
      var shown := if useDummy then random else q;
      var (index, isFound) := LookUp(shown, queryCount);
      found := isFound;
      y := Answer(index, found, useDummy, random, tag);
      queryCount := queryCount + 1;
    }

    lemma ValidFacts(count: nat)
      requires ValidAt(count)
      ensures |cht| == 2 * Pow2(params.logCol) && |dummyIndices| == |model.dummySlots| == params.numDummies == model.params.numDummies
      ensures model.count == count
    {
    }

    lemma KeyAllowed()
      requires Valid()
      ensures model.key in enc.keys
    {
    }

    /** All lookups of a batch, made before any slot is marked. */
    method LookUpAll(shown: seq<nat>) returns (lookups: seq<(nat, bool)>)
      requires |cht| == 2 * Pow2(params.logCol) && queryCount + |shown| <= |dummyIndices|
      ensures |lookups| == |shown| && forall j {:trigger lookups[j]} :: 0 <= j < |shown| ==> lookups[j] == LookUp(shown[j], queryCount + j)
    {
      lookups := [];
      for i := 0 to |shown|
        invariant |lookups| == i && forall j {:trigger lookups[j]} :: 0 <= j < i ==> lookups[j] == LookUp(shown[j], queryCount + j)
      {
        lookups := lookups + [LookUp(shown[i], queryCount + i)];
      }
    }

    /** `query_many`: all lookups are made before any slot is marked, and the result is still the model's. */
    method QueryMany(qs: seq<nat>, useDummies: seq<bool>, randoms: seq<nat>, ghost tags: seq<Tag>) returns (results: seq<(Record, bool)>)
      requires Valid() && |qs| == |useDummies| == |randoms| == |tags|
      requires RealTags(enc, qs, tags) && forall i {:trigger randoms[i]} :: 0 <= i < |randoms| ==> BlankTag(enc, randoms[i])
      requires Tables.QueryMany(model, tags, useDummies).Ok?
      modifies this`queryCount, this`touched, this`model, receiverShuffle`pi
      ensures Valid() && Tables.QueryMany(old(model), tags, useDummies) == Ok((model, results))
    {
      ValidFacts(queryCount);
      var shown := Shown(qs, useDummies, randoms);
      var lookups := LookUpAll(shown);
      EachAll(model, tags, useDummies);
      ShownTags(enc, qs, useDummies, randoms, tags);
      results := AnswerAll(lookups, useDummies, randoms, tags, shown);
      queryCount := queryCount + |qs|;
    }

    /** Marks and reads the slots of all lookups in turn. */
    method AnswerAll(lookups: seq<(nat, bool)>, ghost useDummies: seq<bool>, ghost randoms: seq<nat>, ghost tags: seq<Tag>, ghost shown: seq<nat>)
      returns (results: seq<(Record, bool)>)
      requires Valid() && |lookups| == |useDummies| == |randoms| == |tags| == |shown| && queryCount + |lookups| <= |dummyIndices|
      requires forall j {:trigger lookups[j]} :: 0 <= j < |lookups| ==> lookups[j] == LookUp(shown[j], queryCount + j)
      requires Shows(enc, shown, useDummies, randoms, tags)
      requires Before([], EachFrom(model, tags, useDummies, 0)).Ok?
      modifies this`touched, this`model, receiverShuffle`pi
      ensures ValidAt(queryCount + |lookups|)
      ensures Before([], EachFrom(old(model), tags, useDummies, 0)) == Ok((model, results))
    {
      hide Ideal, BlankTag, Mirrors, DummiesMirror, ValidAt, LookUp, Before, EachFrom, QueryEach, ChtOk, Tables.Query, Lookup, AsPerm, TagOf, H0, H1;
      results := [];
      for i := 0 to |lookups|
        invariant ValidAt(queryCount + i)
        invariant Before(results, EachFrom(model, tags, useDummies, i)) == Before([], EachFrom(old(model), tags, useDummies, 0))
      {
        EachNext(model, tags, useDummies, i, results);
        ValidFacts(queryCount + i);
        QueryKeeps(model, tags[i], useDummies[i]);
        assert BlankTag(enc, randoms[i]) && Askable(enc, tags[i]) && shown[i] == if useDummies[i] then randoms[i] else enc.Block(tags[i].key, tags[i].addr);
        assert lookups[i] == LookUp(shown[i], queryCount + i);
        var y := Answer(lookups[i].0, lookups[i].1, useDummies[i], randoms[i], tags[i]);
        results := results + [(y, lookups[i].1)];
      }
      EachDone(model, tags, useDummies, results);
    }

    /** `extract_untouched`: the unmarked slots in receiver order. */
    method ExtractUntouched() returns (xs: seq<nat>, ys: seq<Record>)
      requires Valid()
      ensures |xs| == |ys| && RowsOf(xs, ys) == UntouchedRows(model)
    {
      hide ChtOk, Ideal, DummiesMirror, AsPerm;
      xs, ys := [], [];
      for i := 0 to |touched|
        invariant |xs| == |ys| == |FreeList(touched[..i])|
        invariant forall k :: 0 <= k < |xs| ==> xs[k] == xsReceiverOrder[FreeList(touched[..i])[k]] && ys[k] == ysReceiverOrder[FreeList(touched[..i])[k]]
      {
        assert touched[..i + 1][..i] == touched[..i];
        if !touched[i] {
          xs := xs + [xsReceiverOrder[i]];
          ys := ys + [ysReceiverOrder[i]];
        }
      }
      assert touched[..|touched|] == touched;
    }

    /** `extract`: possible exactly when the model allows it. */
    method Extract() returns (xs: seq<nat>, ys: seq<Record>)
      requires Valid() && Tables.Extract(model).Ok?
      ensures |xs| == |ys| && Tables.Extract(model) == Ok(RowsOf(xs, ys))
    {
      assert queryCount == params.numDummies;
      xs, ys := ExtractUntouched();
      assert |xs| == params.numElements - params.stashSize;
    }

    /** The lookup of `shown` with the dummy of query number `k`. */
    function LookUp(shown: nat, k: nat): (nat, bool)
      reads this`cht, this`dummyIndices
      requires |cht| == 2 * Pow2(params.logCol) && k < |dummyIndices|
    {
      Lookup(shown, cht[H0(shown, params.logCol)], cht[H1(shown, params.logCol)], dummyIndices[k])
    }
  }
}
