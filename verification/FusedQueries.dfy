/** The cache query carried along with the cipher's rounds: zero test, selection, and the split by target. */
module FusedQueries {
  import opened SharedBits
  import opened ZeroTest

  function ShiftShared(s: Shared, k: nat): Shared { Shared(ShiftRight(s.x0, k), ShiftRight(s.x1, k), ShiftRight(s.x2, k)) }

  lemma ShiftOpens(s: Shared, k: nat, n: nat)
    requires s.Sized(n)
    ensures ShiftShared(s, k).Sized(n) && ShiftShared(s, k).Open() == ShiftRight(s.Open(), k)
  {
  }

  function XorShared(s: Shared, t: Shared): (r: Shared)
    requires |s.x0| == |t.x0| && |s.x1| == |t.x1| && |s.x2| == |t.x2|
  {
    Shared(Plus(s.x0, t.x0), Plus(s.x1, t.x1), Plus(s.x2, t.x2))
  }

  lemma XorOpens(s: Shared, t: Shared, n: nat)
    requires s.Sized(n) && t.Sized(n)
    ensures XorShared(s, t).Sized(n) && XorShared(s, t).Open() == Plus(s.Open(), t.Open())
  {
  }

  /** The four shared bytes of a shared word. */
  function BytesShared(s: Shared): (b: seq<Shared>)
    requires |s.x0| == |s.x1| == |s.x2| == 32
    ensures |b| == 4
  {
    [ByteOf(s, 0), ByteOf(s, 8), ByteOf(s, 16), ByteOf(s, 24)]
  }

  function ByteOf(s: Shared, lo: nat): Shared
    requires |s.x0| == |s.x1| == |s.x2| >= lo + 8
  {
    Shared(s.x0[lo..lo + 8], s.x1[lo..lo + 8], s.x2[lo..lo + 8])
  }

  lemma ByteOpens(s: Shared, lo: nat)
    requires s.Sized(32) && lo <= 24
    ensures ByteOf(s, lo).Sized(8) && ByteOf(s, lo).Open() == s.Open()[lo..lo + 8]
  {
    hide Shared.Open;
    forall i: nat | i < 8 ensures ByteOf(s, lo).Open()[i] == s.Open()[lo..lo + 8][i] {
      OpenBit(ByteOf(s, lo), i, 8);
      OpenBit(s, lo + i, 32);
    }
  }

  lemma BytesOpen(s: Shared, j: nat)
    requires s.Sized(32) && j < 4
    ensures BytesShared(s)[j].Sized(8) && BytesShared(s)[j].Open() == Bytes(s.Open())[j]
  {
    ByteOpens(s, 8 * j);
    assert s.Open()[24..32] == s.Open()[24..];
    hide ByteOf, Shared.Open;
  }

  // ---------------------------------------------------------- the fused test

  /** `ZeroU8Values`: four shared bytes for every word, then two, then one. */
  datatype ZeroValues = Four(four: seq<seq<Shared>>) | Two(two: seq<seq<Shared>>) | One(one: seq<Shared>)

  ghost predicate ByteLists(xs: seq<seq<Shared>>, n: nat) {
    && (forall j {:trigger xs[j]} :: 0 <= j < |xs| ==> |xs[j]| == n)
    && (forall j, b {:trigger xs[j][b]} :: 0 <= j < |xs| && 0 <= b < n ==> xs[j][b].Sized(8))
  }

  ghost predicate Bytewise(z: ZeroValues) {
    match z
    case Four(v) => ByteLists(v, 4)
    case Two(v) => ByteLists(v, 2)
    case One(v) => AllOf(v, 8)
  }

  /** `pairs_into`: the factors of this round's products. */
  method PairsInto(z: ZeroValues, round: nat) returns (lhs: seq<Shared>, rhs: seq<Shared>)
    requires Bytewise(z) && round < 5
    ensures (lhs, rhs) == Pairs(z, round)
  {
    lhs, rhs := [], [];
    match z
    case Four(v) =>
      for j := 0 to |v|
        invariant |lhs| == |rhs| == 2 * j
        invariant forall i {:trigger lhs[i]} :: 0 <= i < 2 * j ==> lhs[i] == v[i / 2][2 * (i % 2)]
        invariant forall i {:trigger rhs[i]} :: 0 <= i < 2 * j ==> rhs[i] == v[i / 2][2 * (i % 2) + 1]
      {
        lhs, rhs := lhs + [v[j][0], v[j][2]], rhs + [v[j][1], v[j][3]];
      }
      assert lhs == Pairs(z, round).0 && rhs == Pairs(z, round).1;
    case Two(v) =>
      for j := 0 to |v|
        invariant |lhs| == |rhs| == j
        invariant forall i {:trigger lhs[i]} {:trigger rhs[i]} :: 0 <= i < j ==> lhs[i] == v[i][0] && rhs[i] == v[i][1]
      {
        lhs, rhs := lhs + [v[j][0]], rhs + [v[j][1]];
      }
      assert lhs == Pairs(z, round).0 && rhs == Pairs(z, round).1;
    case One(v) =>
      for j := 0 to |v|
        invariant |lhs| == |rhs| == j && lhs == v[..j]
        invariant forall i {:trigger rhs[i]} :: 0 <= i < j ==> rhs[i] == ShiftShared(v[i], Half(4 - round))
      {
        lhs, rhs := lhs + [v[j]], rhs + [ShiftShared(v[j], Half(4 - round))];
      }
      assert lhs == Pairs(z, round).0 && rhs == Pairs(z, round).1;
  }

  function Pairs(z: ZeroValues, round: nat): (r: (seq<Shared>, seq<Shared>))
    requires Bytewise(z) && round < 5
    ensures |r.0| == |r.1| && AllOf(r.0, 8) && AllOf(r.1, 8)
  {
    match z
    case Four(v) =>
      (seq(2 * |v|, i requires 0 <= i < 2 * |v| => v[i / 2][2 * (i % 2)]), seq(2 * |v|, i requires 0 <= i < 2 * |v| => v[i / 2][2 * (i % 2) + 1]))
    case Two(v) =>
      (seq(|v|, i requires 0 <= i < |v| => v[i][0]), seq(|v|, i requires 0 <= i < |v| => v[i][1]))
    case One(v) =>
      (v, seq(|v|, i requires 0 <= i < |v| => ShiftShared(v[i], Half(4 - round))))
  }

  /** `apply`: the products take the place of their factors. */
  function Apply(ands: seq<Shared>, round: nat): ZeroValues {
    if round == 0 then Two(ByTwos(ands)) else One(ands)
  }

  function ByTwos(ands: seq<Shared>): (two: seq<seq<Shared>>)
    ensures |two| == |ands| / 2 && forall j {:trigger two[j]} :: 0 <= j < |two| ==> |two[j]| == 2
  {
    seq(|ands| / 2, i requires 0 <= i < |ands| / 2 => [ands[2 * i], ands[2 * i + 1]])
  }

  lemma TwosAt(ands: seq<Shared>, j: nat, b: nat)
    requires 2 * j + 1 < |ands| && b < 2
    ensures j < |ByTwos(ands)| && ByTwos(ands)[j][b] == ands[2 * j + b]
  {
  }

  /** The masks of a round. */
  function Drawn(draws: (nat, nat) -> Shared, r: nat, n: nat): (masks: seq<Shared>)
    requires forall r: nat, i: nat {:trigger draws(r, i)} :: draws(r, i).Sized(8)
    ensures |masks| == n && AllOf(masks, 8)
  {
    if n == 0 then [] else Drawn(draws, r, n - 1) + [draws(r, n - 1)]
  }

  ghost predicate Words32(xs: seq<Bits>) { forall j {:trigger xs[j]} :: 0 <= j < |xs| ==> |xs[j]| == 32 }

  /** What the values open to before `round`, word by word. */
  ghost predicate AtRound(xs: seq<Bits>, z: ZeroValues, round: nat)
    requires Words32(xs)
  {
    Bytewise(z) &&
    match z
    case Four(v) => round == 0 && |v| == |xs| && forall j, b {:trigger v[j][b]} :: 0 <= j < |v| && 0 <= b < 4 ==> v[j][b].Open() == Bytes(xs[j])[b]
    case Two(v) => round == 1 && |v| == |xs| && forall j, b {:trigger v[j][b]} :: 0 <= j < |v| && 0 <= b < 2 ==> v[j][b].Open() == Pair(xs[j])[b]
    case One(v) => 2 <= round <= 5 && |v| == |xs| && forall j {:trigger v[j]} :: 0 <= j < |v| ==> v[j].Open() == Single(xs[j], round)
  }

  ghost function Pair(x: Bits): (p: seq<Bits>)
    requires |x| == 32
    ensures |p| == 2 && |p[0]| == |p[1]| == 8
  {
    [And(Bytes(x)[0], Bytes(x)[1]), And(Bytes(x)[2], Bytes(x)[3])]
  }

  ghost function Single(x: Bits, round: nat): (v: Bits)
    requires |x| == 32 && 2 <= round
    ensures |v| == 8
  {
    if round == 2 then And(Pair(x)[0], Pair(x)[1])
    else if round > 5 then Single(x, 5)
    else And(Single(x, round - 1), ShiftRight(Single(x, round - 1), Half(5 - round)))
  }

  lemma SingleIsSchedule(x: Bits)
    requires |x| == 32
    ensures Single(x, 5)[0] == Schedule(Bytes(x))
  {
    assert Half(0) == 1 && Half(1) == 2 && Half(2) == 4;
    assert Single(x, 3) == And(Single(x, 2), ShiftRight(Single(x, 2), 4));
    assert Single(x, 4) == And(Single(x, 3), ShiftRight(Single(x, 3), 2));
    assert Single(x, 5) == And(Single(x, 4), ShiftRight(Single(x, 4), 1));
  }

  lemma FirstRound(xs: seq<Bits>, z: ZeroValues, masks: seq<Shared>)
    requires Words32(xs) && AtRound(xs, z, 0) && AllOf(masks, 8) && |masks| == |Pairs(z, 0).0|
    ensures var (lhs, rhs) := Pairs(z, 0); AtRound(xs, Apply(Products(lhs, rhs, masks, 8), 0), 1)
  {
    hide And, Bytes, Products, Shared.Open, Pairs, ByTwos, Pair;
    var v := z.four;
    var (lhs, rhs) := Pairs(z, 0);
    ProductsOpen(lhs, rhs, masks, 8);
    var ands := Products(lhs, rhs, masks, 8);
    var two: seq<seq<Shared>> := ByTwos(ands);
    FourSizes(v);
    forall j: nat, b: nat {:trigger two[j][b]} | j < |xs| && b < 2 ensures two[j][b].Sized(8) && two[j][b].Open() == Pair(xs[j])[b] {
      TwosAt(ands, j, b);
      FourPairs(v, j, b);
      PairAt(xs[j], b);
      assert ands[2 * j + b].Open() == And(lhs[2 * j + b].Open(), rhs[2 * j + b].Open());
    }
    assert ByteLists(two, 2);
  }

  lemma FourSizes(v: seq<seq<Shared>>)
    requires ByteLists(v, 4)
    ensures |Pairs(Four(v), 0).0| == 2 * |v|
  {
  }

  lemma PairAt(x: Bits, b: nat)
    requires |x| == 32 && b < 2
    ensures Pair(x)[b] == And(Bytes(x)[2 * b], Bytes(x)[2 * b + 1])
  {
  }

  /** Where the factors of a word's first two products stand. */
  lemma FourPairs(v: seq<seq<Shared>>, j: nat, b: nat)
    requires ByteLists(v, 4) && j < |v| && b < 2
    ensures |Pairs(Four(v), 0).0| == 2 * |v| && Pairs(Four(v), 0).0[2 * j + b] == v[j][2 * b] && Pairs(Four(v), 0).1[2 * j + b] == v[j][2 * b + 1]
  {
    assert (2 * j + b) / 2 == j && (2 * j + b) % 2 == b;
  }

  lemma SecondRound(xs: seq<Bits>, z: ZeroValues, masks: seq<Shared>)
    requires Words32(xs) && AtRound(xs, z, 1) && AllOf(masks, 8) && |masks| == |Pairs(z, 1).0|
    ensures var (lhs, rhs) := Pairs(z, 1); AtRound(xs, Apply(Products(lhs, rhs, masks, 8), 1), 2)
  {
    var v := z.two;
    var (lhs, rhs) := Pairs(z, 1);
    ProductsOpen(lhs, rhs, masks, 8);
    var ands := Products(lhs, rhs, masks, 8);
    hide And, Pair, Products, Shared.Open;
    forall j {:trigger ands[j]} | 0 <= j < |xs| ensures ands[j].Open() == Single(xs[j], 2) {
      assert lhs[j] == v[j][0] && rhs[j] == v[j][1];
    }
  }

  lemma LaterRound(xs: seq<Bits>, z: ZeroValues, round: nat, masks: seq<Shared>)
    requires Words32(xs) && 2 <= round < 5 && AtRound(xs, z, round) && AllOf(masks, 8) && |masks| == |Pairs(z, round).0|
    ensures var (lhs, rhs) := Pairs(z, round); AtRound(xs, Apply(Products(lhs, rhs, masks, 8), round), round + 1)
  {
    var v := z.one;
    var (lhs, rhs) := Pairs(z, round);
    ProductsOpen(lhs, rhs, masks, 8);
    var ands := Products(lhs, rhs, masks, 8);
    hide And, ShiftRight, Half, Products, Shared.Open, ShiftShared;
    forall j {:trigger ands[j]} | 0 <= j < |xs| ensures ands[j].Open() == Single(xs[j], round + 1) {
      ShiftOpens(v[j], Half(4 - round), 8);
      assert lhs[j] == v[j] && rhs[j] == ShiftShared(v[j], Half(4 - round));
    }
  }

  lemma RoundStep(xs: seq<Bits>, z: ZeroValues, round: nat, masks: seq<Shared>)
    requires Words32(xs) && round < 5 && AtRound(xs, z, round) && AllOf(masks, 8) && |masks| == |Pairs(z, round).0|
    ensures var (lhs, rhs) := Pairs(z, round); AtRound(xs, Apply(Products(lhs, rhs, masks, 8), round), round + 1)
  {
    if round == 0 { FirstRound(xs, z, masks); } else if round == 1 { SecondRound(xs, z, masks); } else { LaterRound(xs, z, round, masks); }
    hide *;
  }

  ghost function Complements(inputs: seq<Shared>): (xs: seq<Bits>)
    requires AllOf(inputs, 32)
    ensures Words32(xs) && |xs| == |inputs| && forall j {:trigger xs[j]} :: 0 <= j < |xs| ==> xs[j] == Not(inputs[j].Open())
  {
    seq(|inputs|, j requires 0 <= j < |inputs| => Not(inputs[j].Open()))
  }

  /** `ZeroU8Values::new`: the bytes of every word's complement. */
  method Start(inputs: seq<Shared>) returns (z: ZeroValues)
    requires AllOf(inputs, 32)
    ensures AtRound(Complements(inputs), z, 0)
  {
    z := Four(seq(|inputs|, j requires 0 <= j < |inputs| => BytesShared(NotShared(inputs[j]))));
    ghost var xs := Complements(inputs);
    forall j, b: nat {:trigger z.four[j][b]} | 0 <= j < |inputs| && b < 4 ensures z.four[j][b].Sized(8) && z.four[j][b].Open() == Bytes(xs[j])[b] {
      assert xs[j] == Not(inputs[j].Open());
      NotOpens(inputs[j], 32);
      BytesOpen(NotShared(inputs[j]), b);
    }
    hide Bytes, Not, NotShared, BytesShared, Shared.Open;
  }

  /** `found_bits`: after five rounds bit 0 of each value says whether its word is zero. */
  method FoundBits(ghost inputs: seq<Shared>, z: ZeroValues) returns (found: seq<Shared>)
    requires AllOf(inputs, 32)
    requires AtRound(Complements(inputs), z, 5)
    ensures |found| == |inputs| && forall j {:trigger found[j]} :: 0 <= j < |found| ==> Decides(found[j], inputs[j])
  {
    var last := z.one;
    found := seq(|last|, j requires 0 <= j < |last| => LowBit(last[j]));
    ghost var xs := Complements(inputs);
    hide LowBit, Bytes, Not, Shared.Open, Single, IsZero, Schedule;
    forall j {:trigger found[j]} | 0 <= j < |inputs| ensures Decides(found[j], inputs[j]) {
      assert last[j].Open() == Single(xs[j], 5) && xs[j] == Not(inputs[j].Open());
      SingleIsSchedule(xs[j]);
      FusedAgrees(inputs[j].Open());
      LowBitOpens(last[j]);
    }
  }

  // ------------------------------------------------------------- selection

  function Zeros(n: nat): (x: Bits) ensures |x| == n { seq(n, _ => false) }

  /** `bit_to_binary_mask`: the bit in every position, component by component. */
  function Spread(found: Shared, n: nat): (r: Shared)
    requires |found.x0| == |found.x1| == |found.x2| == 1
  {
    Shared(seq(n, _ => found.x0[0]), seq(n, _ => found.x1[0]), seq(n, _ => found.x2[0]))
  }

  /** The masked product of the spread bit and a word: for all masks, the word if found and zero if not. */
  lemma SelectOpens(found: Shared, b: bool, word: Shared, m: Shared, n: nat)
    requires Flag(found, b) && word.Sized(n) && m.Sized(n)
    ensures Spread(found, n).Sized(n)
    ensures var r := AndShared(Spread(found, n), word, m); r.Sized(n) && r.Open() == if b then word.Open() else Zeros(n)
  {
    var s := Spread(found, n);
    assert found.Open()[0] == b;
    forall i | 0 <= i < n ensures s.Open()[i] == b { }
    AndOpens(s, word, m, n);
    assert And(s.Open(), word.Open()) == if b then word.Open() else Zeros(n);
  }

  /** What a query learns about one cache row. */
  datatype Hit = Hit(found: Shared, x: Shared, y: Shared)

  /** The hit opens to the row where the addresses agree, and to nothing where they do not. */
  ghost predicate HitIs(h: Hit, query: Bits, addr: Bits, row: Bits) {
    && Flag(h.found, addr == query)
    && h.x.Sized(|addr|) && h.x.Open() == (if addr == query then addr else Zeros(|addr|))
    && h.y.Sized(|row|) && h.y.Open() == (if addr == query then row else Zeros(|row|))
  }

  datatype CacheRow = CacheRow(query: Shared, addr: Shared, data: Shared)
  {
    ghost predicate Wide(width: nat) { query.Sized(32) && addr.Sized(32) && data.Sized(width) }
  }

  lemma EqualIsZero(x: Bits, y: Bits)
    requires |x| == |y|
    ensures IsZero(Plus(x, y)) <==> x == y
  {
    if IsZero(Plus(x, y)) { forall i | 0 <= i < |x| ensures x[i] == y[i] { assert !Plus(x, y)[i]; } }
  }

  /** The masks of one query over many rows. */
  datatype Draws = Draws(zero: (nat, nat) -> Shared, x: nat -> Shared, y: nat -> Shared)
  {
    ghost predicate Sized(zeroWidth: nat -> nat, width: nat) {
      && (forall r: nat, i: nat {:trigger zero(r, i)} :: zero(r, i).Sized(zeroWidth(r)))
      && (forall i: nat {:trigger x(i)} :: x(i).Sized(32))
      && (forall i: nat {:trigger y(i)} :: y(i).Sized(width))
    }
  }

  /** The selection from one row. */
  method SelectRow(row: CacheRow, found: Shared, mx: Shared, my: Shared, ghost width: nat) returns (h: Hit)
    requires row.Wide(width) && mx.Sized(32) && my.Sized(width) && Flag(found, row.addr.Open() == row.query.Open())
    ensures HitIs(h, row.query.Open(), row.addr.Open(), row.data.Open())
  {
    ghost var b := row.addr.Open() == row.query.Open();
    SelectOpens(found, b, row.addr, mx, 32);
    SelectOpens(found, b, row.data, my, width);
    h := Hit(found, AndShared(Spread(found, 32), row.addr, mx), AndShared(Spread(found, |row.data.x0|), row.data, my));
  }

  ghost predicate AllWide(rows: seq<CacheRow>, width: nat) {
    forall i {:trigger rows[i]} :: 0 <= i < |rows| ==> rows[i].Wide(width)
  }

  ghost predicate AllHit(rows: seq<CacheRow>, hits: seq<Hit>, width: nat)
    requires AllWide(rows, width)
  {
    && |hits| == |rows|
    && forall i {:trigger hits[i]} :: 0 <= i < |hits| ==> HitIs(hits[i], rows[i].query.Open(), rows[i].addr.Open(), rows[i].data.Open())
  }

  /** The selections of the round after the zero test. */
  method SelectRows(rows: seq<CacheRow>, found: seq<Shared>, draws: Draws, ghost width: nat) returns (hits: seq<Hit>)
    requires AllWide(rows, width) && |found| == |rows|
    requires forall i {:trigger found[i]} :: 0 <= i < |found| ==> Flag(found[i], rows[i].addr.Open() == rows[i].query.Open())
    requires (forall i: nat {:trigger draws.x(i)} :: draws.x(i).Sized(32)) && (forall i: nat {:trigger draws.y(i)} :: draws.y(i).Sized(width))
    ensures AllHit(rows, hits, width)
  {
    hits := [];
    hide HitIs, Flag, Shared.Open;
    for i := 0 to |rows|
      invariant |hits| == i
      invariant forall j {:trigger hits[j]} :: 0 <= j < i ==> HitIs(hits[j], rows[j].query.Open(), rows[j].addr.Open(), rows[j].data.Open())
    {
      var h := SelectRow(rows[i], found[i], draws.x(i), draws.y(i), width);
      hits := hits + [h];
    }
  }

  function ZeroInputs(rows: seq<CacheRow>): (xs: seq<Shared>)
    requires forall i {:trigger rows[i]} :: 0 <= i < |rows| ==>
      |rows[i].addr.x0| == |rows[i].query.x0| && |rows[i].addr.x1| == |rows[i].query.x1| && |rows[i].addr.x2| == |rows[i].query.x2|
    ensures |xs| == |rows|
  {
    seq(|rows|, i requires 0 <= i < |rows| => XorShared(rows[i].addr, rows[i].query))
  }

  lemma ZeroInputsOpen(rows: seq<CacheRow>, width: nat)
    requires AllWide(rows, width)
    ensures forall i {:trigger ZeroInputs(rows)[i]} :: 0 <= i < |rows| ==>
      ZeroInputs(rows)[i].Sized(32) && (IsZero(ZeroInputs(rows)[i].Open()) <==> rows[i].addr.Open() == rows[i].query.Open())
  {
    var xs := ZeroInputs(rows);
    forall i {:trigger xs[i]} | 0 <= i < |rows|
      ensures xs[i].Sized(32) && (IsZero(xs[i].Open()) <==> rows[i].addr.Open() == rows[i].query.Open())
    {
      assert rows[i].Wide(width);
      XorOpens(rows[i].addr, rows[i].query, 32);
      EqualIsZero(rows[i].addr.Open(), rows[i].query.Open());
    }
  }

  // ----------------------------------------------------- merging and splitting

  /** One query against the rows of a cache. */
  datatype Target = Target(query: Shared, addrs: seq<Shared>, data: seq<Shared>)
  {
    ghost predicate Wide(width: nat) {
      && query.Sized(32) && |addrs| == |data|
      && (forall i {:trigger addrs[i]} :: 0 <= i < |addrs| ==> addrs[i].Sized(32))
      && (forall i {:trigger data[i]} :: 0 <= i < |data| ==> data[i].Sized(width))
    }

    function Rows(): (rows: seq<CacheRow>)
      requires |addrs| == |data|
      ensures |rows| == |addrs|
    {
      seq(|addrs|, i requires 0 <= i < |addrs| => CacheRow(query, addrs[i], data[i]))
    }
  }

  ghost predicate TargetsWide(targets: seq<Target>, width: nat) {
    forall t {:trigger targets[t]} :: 0 <= t < |targets| ==> targets[t].Wide(width)
  }

  ghost function AllRows(targets: seq<Target>): seq<CacheRow>
    requires forall t {:trigger targets[t]} :: 0 <= t < |targets| ==> |targets[t].addrs| == |targets[t].data|
  {
    if targets == [] then [] else targets[0].Rows() + AllRows(targets[1..])
  }

  lemma {:induction false} AllRowsWide(targets: seq<Target>, width: nat)
    requires TargetsWide(targets, width)
    ensures AllWide(AllRows(targets), width)
  {
    if targets != [] {
      AllRowsWide(targets[1..], width);
      var own, rest: seq<CacheRow> := targets[0].Rows(), AllRows(targets[1..]);
      var all: seq<CacheRow> := own + rest;
      assert targets[0].Wide(width) && all == AllRows(targets);
      forall i {:trigger all[i]} | 0 <= i < |all| ensures all[i].Wide(width) {
        if i < |own| { assert targets[0].Wide(width) && own[i].Wide(width); } else { assert rest[i - |own|].Wide(width); }
      }
    }
  }

  /** `merge_speed_caches`: the rows of all targets one after the other, each with its own query. */
  method Merge(targets: seq<Target>, ghost width: nat) returns (merged: seq<CacheRow>)
    requires TargetsWide(targets, width)
    ensures AllWide(merged, width) && merged == AllRows(targets)
  {
    merged := [];
    var t := |targets|;
    while t > 0
      invariant 0 <= t <= |targets| && merged == AllRows(targets[t..])
    {
      t := t - 1;
      assert targets[t].Wide(width);
      assert targets[t..][0] == targets[t] && targets[t..][1..] == targets[t + 1..];
      merged := targets[t].Rows() + merged;
    }
    assert targets[0..] == targets;
    AllRowsWide(targets, width);
  }

  /** The target's own hits, row by row. */
  ghost predicate Answers(target: Target, hits: seq<Hit>, width: nat)
    requires target.Wide(width)
  {
    && |hits| == |target.addrs|
    && forall i {:trigger hits[i]} :: 0 <= i < |hits| ==> HitIs(hits[i], target.query.Open(), target.addrs[i].Open(), target.data[i].Open())
  }

  /** `split_speed_cache_result`: every target takes its prefix. */
  method Split(targets: seq<Target>, hits: seq<Hit>, ghost width: nat) returns (results: seq<seq<Hit>>)
    requires TargetsWide(targets, width) && AllWide(AllRows(targets), width) && AllHit(AllRows(targets), hits, width)
    ensures |results| == |targets| && forall t {:trigger results[t]} :: 0 <= t < |targets| ==> Answers(targets[t], results[t], width)
  {
    results := [];
    var rest := hits;
    assert targets[0..] == targets;
    hide HitIs, Shared.Open;
    for t := 0 to |targets|
      invariant |results| == t && AllWide(AllRows(targets[t..]), width) && AllHit(AllRows(targets[t..]), rest, width)
      invariant forall u {:trigger results[u]} :: 0 <= u < t ==> Answers(targets[u], results[u], width)
    {
      assert targets[t].Wide(width);
      assert targets[t..][0] == targets[t] && targets[t..][1..] == targets[t + 1..];
      var n := |targets[t].addrs|;
      SplitOff(targets[t], AllRows(targets[t + 1..]), rest, width);
      results := results + [rest[..n]];
      rest := rest[n..];
    }
  }

  lemma SplitOff(target: Target, others: seq<CacheRow>, hits: seq<Hit>, width: nat)
    requires target.Wide(width) && AllWide(target.Rows() + others, width) && AllHit(target.Rows() + others, hits, width)
    ensures |target.addrs| <= |hits| && Answers(target, hits[..|target.addrs|], width)
    ensures AllWide(others, width) && AllHit(others, hits[|target.addrs|..], width)
  {
    var n, own := |target.addrs|, target.Rows();
    hide HitIs, Shared.Open;
    forall i {:trigger others[i]} | 0 <= i < |others| ensures others[i].Wide(width) { assert (own + others)[n + i] == others[i]; }
    var first, last := hits[..n], hits[n..];
    forall i {:trigger first[i]} | 0 <= i < n ensures HitIs(first[i], target.query.Open(), target.addrs[i].Open(), target.data[i].Open()) {
      assert first[i] == hits[i] && (own + others)[i] == own[i];
    }
    forall i {:trigger last[i]} | 0 <= i < |last| ensures HitIs(last[i], others[i].query.Open(), others[i].addr.Open(), others[i].data.Open()) {
      assert last[i] == hits[n + i] && (own + others)[n + i] == others[i];
    }
  }

  lemma {:induction false} SomeRow(targets: seq<Target>, width: nat)
    requires TargetsWide(targets, width)
    ensures AllRows(targets) != [] <==> exists t :: 0 <= t < |targets| && targets[t].addrs != []
  {
    if targets != [] {
      SomeRow(targets[1..], width);
      var rest := targets[1..];
      if t :| 0 <= t < |rest| && rest[t].addrs != [] { assert targets[t + 1].addrs != []; }
      if t :| 0 <= t < |targets| && targets[t].addrs != [] {
        if t > 0 { assert rest[t - 1].addrs != []; } else { assert |targets[0].Rows()| == |targets[0].addrs| > 0; }
      }
    }
  }

  /** The query outside the cipher: the logarithmic fold and the same selection, with the same hits. */
  method QueryAlone(target: Target, draws: Draws, ghost width: nat) returns (hits: seq<Hit>)
    requires target.Wide(width) && forall j: nat, i: nat {:trigger draws.zero(j, i)} :: draws.zero(j, i).Sized(Kept(Half(j)))
    requires (forall i: nat {:trigger draws.x(i)} :: draws.x(i).Sized(32)) && (forall i: nat {:trigger draws.y(i)} :: draws.y(i).Sized(width))
    ensures Answers(target, hits, width)
  {
    var rows := target.Rows();
    assert AllWide(rows, width) by {
      forall i {:trigger rows[i]} | 0 <= i < |rows| ensures rows[i].Wide(width) { assert target.addrs[i].Sized(32) && target.data[i].Sized(width); }
    }
    ZeroInputsOpen(rows, width);
    assert 2 * Half(4) == 32;
    var found := IsZeroMany(ZeroInputs(rows), 4, draws.zero);
    hits := SelectRows(rows, found, draws, width);
  }
}
