/** The oblivious hash table on opened values, with ideal tags: a tag is the pair of key and
    address, so different addresses never share one and a random tag matches no entry. */
module Tables {
  import opened Words
  import opened Sets

  /** How an operation ends: normally, with an error reported to the caller, or by a failed assertion. */
  datatype Outcome<+T> = Ok(value: T) | Refused | Crash
  {
    predicate IsFailure() { !Ok? }
    function PropagateFailure<U>(): Outcome<U> requires !Ok? { if Refused? then Refused else Crash }
    function Extract(): T requires Ok? { value }
  }

  /** An opened record: the payload word and the set of one bits of its alibi byte. */
  datatype Record = Record(value: nat, alibi: set<nat>)

  const ZERO := Record(0, {})

  function XorRecord(a: Record, b: Record): Record {
    Record(Xor(a.value, b.value), (a.alibi - b.alibi) + (b.alibi - a.alibi))
  }

  lemma XorZero(a: Record)
    ensures XorRecord(a, ZERO) == a && XorRecord(ZERO, a) == a
  {
  }

  datatype Row = Row(addr: nat, rec: Record)

  function RowsOf(xs: seq<nat>, ys: seq<Record>): (rows: seq<Row>)
    requires |xs| == |ys|
    ensures |rows| == |xs|
  {
    seq(|xs|, i requires 0 <= i < |xs| => Row(xs[i], ys[i]))
  }

  datatype Params = Params(numElements: nat, numDummies: nat, stashSize: nat, logCol: nat, logN: nat)
  {
    function Total(): nat { numElements + numDummies }

    /** `OHTableParams::validate`. */
    predicate Valid() { stashSize <= numElements && Total() <= 2 * Pow2(logCol) }

    function Sentinel(): nat { Pow2(logN) }
  }

  /** A permutation of the positions below `n`: `to[i]` is where row `i` goes, `from` the inverse. */
  datatype Perm = Perm(to: seq<nat>, from: seq<nat>)

  ghost predicate IsPerm(p: Perm, n: nat) {
    && |p.to| == n && |p.from| == n
    && (forall i {:trigger p.to[i]} :: 0 <= i < n ==> p.to[i] < n && p.from[p.to[i]] == i)
    && (forall j {:trigger p.from[j]} :: 0 <= j < n ==> p.from[j] < n)
    && (forall j {:trigger p.to[p.from[j]]} :: 0 <= j < n ==> p.to[p.from[j]] == j)
  }

  /** What a build draws: the table key, the combined shuffle, and which elements are stashed. */
  datatype Coin = Coin(key: nat, perm: Perm, stash: seq<nat>)

  ghost predicate ValidCoin(p: Params, c: Coin) {
    && IsPerm(c.perm, p.Total()) && |c.stash| == p.stashSize
    && (forall i :: 0 <= i < |c.stash| ==> c.stash[i] < p.numElements)
    && (forall i, j :: 0 <= i < j < |c.stash| ==> c.stash[i] != c.stash[j])
  }

  datatype Tag = Tag(key: nat, addr: nat)

  /** A built table.  `slots` maps each unstashed element's address to its receiver-order slot,
      `dummySlots[k]` is the slot of the k-th dummy, and `asked` records, for the proofs only,
      the addresses whose real tag was looked up. */
  datatype Table = Table(params: Params, key: nat, xs: seq<nat>, ys: seq<Record>, touched: seq<bool>,
                         slots: map<nat, nat>, dummySlots: seq<nat>,
                         stashXs: seq<nat>, stashYs: seq<Record>, count: nat, asked: set<nat>)

  ghost predicate DistinctAddrs(rows: seq<Row>) {
    forall i, j :: 0 <= i < j < |rows| ==> rows[i].addr != rows[j].addr
  }

  /** The input followed by the dummy rows. */
  function Padded(p: Params, rows: seq<Row>): (r: seq<Row>)
    ensures |r| == |rows| + p.numDummies
  {
    rows + seq(p.numDummies, _ => Row(p.Sentinel(), ZERO))
  }

  ghost function SlotMap(rows: seq<Row>, to: seq<nat>, stash: seq<nat>): (m: map<nat, nat>)
    requires |rows| <= |to| && DistinctAddrs(rows)
  {
    map i | 0 <= i < |rows| && i !in stash :: rows[i].addr := to[i]
  }

  /** `OhTable::new` on rows with pairwise distinct addresses. */
  ghost function BuildTable(p: Params, rows: seq<Row>, c: Coin): (t: Outcome<Table>)
  {
    if !p.Valid() || |rows| != p.numElements || !DistinctAddrs(rows) || !ValidCoin(p, c) then Crash
    else
      var n, all := p.Total(), Padded(p, rows);
      Ok(Table(p, c.key,
               seq(n, j requires 0 <= j < n => all[c.perm.from[j]].addr),
               seq(n, j requires 0 <= j < n => all[c.perm.from[j]].rec),
               seq(n, j requires 0 <= j < n => c.perm.from[j] in c.stash),
               SlotMap(rows, c.perm.to, c.stash),
               c.perm.to[p.numElements..],
               seq(p.stashSize, k requires 0 <= k < p.stashSize => rows[c.stash[k]].addr),
               seq(p.stashSize, k requires 0 <= k < p.stashSize => rows[c.stash[k]].rec),
               0, {}))
  }

  /** `OhTable::query`: a real tag of an unstashed element selects its slot, anything else the next dummy. */
  function Query(t: Table, tag: Tag, useDummy: bool): (r: Outcome<(Table, Record, bool)>)
  {
    var hit := !useDummy && tag.key == t.key && tag.addr in t.slots;
    if t.count >= t.params.numDummies || t.count >= |t.dummySlots| then Crash
    else
      var index := if hit then t.slots[tag.addr] else t.dummySlots[t.count];
      if index >= |t.touched| || index >= |t.ys| || t.touched[index] then Crash
      else Ok((t.(touched := t.touched[index := true], count := t.count + 1,
                  asked := if useDummy then t.asked else t.asked + {tag.addr}),
               t.ys[index], hit))
  }

  /** `OhTable::query_many`. */
  function QueryMany(t: Table, tags: seq<Tag>, useDummies: seq<bool>): (r: Outcome<(Table, seq<(Record, bool)>)>)
    requires |tags| == |useDummies|
    ensures r.Ok? ==> |r.value.1| == |tags|
  {
    if t.count + |tags| > t.params.numDummies then Crash else QueryEach(t, tags, useDummies)
  }

  function QueryEach(t: Table, tags: seq<Tag>, useDummies: seq<bool>): (r: Outcome<(Table, seq<(Record, bool)>)>)
    requires |tags| == |useDummies|
    ensures r.Ok? ==> |r.value.1| == |tags|
    decreases |tags|
  {
    if tags == [] then Ok((t, []))
    else
      var (t1, y, hit) :- Query(t, tags[0], useDummies[0]);
      var (t2, rest) :- QueryEach(t1, tags[1..], useDummies[1..]);
      Ok((t2, [(y, hit)] + rest))
  }

  /** The untouched slots in increasing order. */
  function FreeList(touched: seq<bool>): (free: seq<nat>)
    ensures |free| <= |touched|
    ensures forall i :: 0 <= i < |free| ==> free[i] < |touched| && !touched[free[i]]
    ensures forall i, j :: 0 <= i < j < |free| ==> free[i] < free[j]
  {
    if touched == [] then []
    else
      var n := |touched| - 1;
      FreeList(touched[..n]) + (if touched[n] then [] else [n])
  }

  /** `extract_untouched`: the untouched rows in receiver order. */
  function UntouchedRows(t: Table): (rows: seq<Row>)
    requires |t.xs| == |t.ys| == |t.touched|
  {
    var free := FreeList(t.touched);
    seq(|free|, i requires 0 <= i < |free| => Row(t.xs[free[i]], t.ys[free[i]]))
  }

  /** `extract`: only when the dummy budget is spent. */
  function Extract(t: Table): Outcome<seq<Row>>
    requires |t.xs| == |t.ys| == |t.touched|
  {
    if t.count != t.params.numDummies || |UntouchedRows(t)| != t.params.numElements - t.params.stashSize then Crash
    else Ok(UntouchedRows(t))
  }

  // ------------------------------------------------------------ invariants

  ghost function FreeSlots(touched: seq<bool>): (s: set<nat>) {
    set j | 0 <= j < |touched| && !touched[j]
  }

  ghost predicate Slotted(t: Table, a: nat) {
    && a in t.slots && t.slots[a] < |t.xs| == |t.ys| == |t.touched|
    && t.xs[t.slots[a]] == a && t.ys[t.slots[a]].alibi == {}
    && (t.touched[t.slots[a]] <==> a in t.asked)
  }

  ghost predicate DummyAt(t: Table, k: nat)
    requires k < |t.dummySlots|
  {
    && t.dummySlots[k] < |t.xs| == |t.ys| == |t.touched|
    && t.xs[t.dummySlots[k]] == t.params.Sentinel() && t.ys[t.dummySlots[k]] == ZERO
    && (t.touched[t.dummySlots[k]] ==> k < t.count)
  }

  ghost predicate TableShape(t: Table) {
    && |t.xs| == |t.ys| == |t.touched| == t.params.Total()
    && |t.dummySlots| == t.params.numDummies && t.count <= t.params.numDummies
    && t.params.stashSize <= t.params.numElements
    && |FreeSlots(t.touched)| + t.params.stashSize + t.count == t.params.Total()
  }

  ghost predicate ElementsOk(t: Table) {
    forall a {:trigger t.slots[a]} :: a in t.slots ==> Slotted(t, a) && a < 2 * t.params.Sentinel()
  }

  ghost predicate DummiesOk(t: Table) {
    && (forall k {:trigger t.dummySlots[k]} :: 0 <= k < |t.dummySlots| ==> DummyAt(t, k))
    && (forall k, l :: 0 <= k < l < |t.dummySlots| ==> t.dummySlots[k] != t.dummySlots[l])
  }

  ghost predicate Apart(t: Table) {
    forall a, k {:trigger t.slots[a], t.dummySlots[k]} :: a in t.slots && 0 <= k < |t.dummySlots| ==>
      t.slots[a] != t.dummySlots[k]
  }

  ghost predicate AllUsed(t: Table) {
    |t.touched| == |t.xs| &&
    forall j {:trigger t.touched[j]} :: 0 <= j < |t.touched| && !t.touched[j] ==> Used(t, j)
  }

  /** Slots of elements and dummies are apart, an element's slot is touched exactly when its address was
      asked for, a dummy's only when its turn has come, and every query touched one more slot. */
  ghost predicate TableInv(t: Table) {
    TableShape(t) && ElementsOk(t) && DummiesOk(t) && Apart(t) && AllUsed(t)
  }

  ghost predicate Used(t: Table, j: nat)
    requires j < |t.xs|
  {
    (t.xs[j] in t.slots && t.slots[t.xs[j]] == j) || j in t.dummySlots
  }

  /** `a` has an untouched copy in the table. */
  ghost predicate Live(t: Table, a: nat) {
    a in t.slots && a !in t.asked
  }

  ghost function ValueIn(t: Table, a: nat): nat
    requires TableInv(t) && a in t.slots
  {
    t.ys[t.slots[a]].value
  }

  /** `t1` is `t` after one query for `x`. */
  ghost predicate Asked(t: Table, t1: Table, x: nat) {
    && TableInv(t1) && t1.params == t.params && t1.key == t.key && t1.slots == t.slots && t1.xs == t.xs && t1.ys == t.ys
    && t1.dummySlots == t.dummySlots && t1.stashXs == t.stashXs && t1.stashYs == t.stashYs
    && t1.count == t.count + 1 && t.asked <= t1.asked <= t.asked + {x}
  }

  /** A query within the budget that does not repeat a real tag never crashes: it finds a live element's
      record and otherwise returns the zero record of the next dummy. */
  lemma QueryOk(t: Table, x: nat, useDummy: bool)
    requires TableInv(t) && t.count < t.params.numDummies && (useDummy || x !in t.asked)
    ensures var r := Query(t, Tag(t.key, x), useDummy);
      && r.Ok? && Asked(t, r.value.0, x) && (r.value.2 <==> !useDummy && Live(t, x))
      && (r.value.2 ==> r.value.1 == Record(ValueIn(t, x), {}))
      && (!r.value.2 ==> r.value.1 == ZERO)
      && (!useDummy ==> x in r.value.0.asked) && (useDummy ==> r.value.0.asked == t.asked)
  {
    var hit := !useDummy && x in t.slots;
    var index := if hit then t.slots[x] else t.dummySlots[t.count];
    assert !t.touched[index];
    var t1 := Query(t, Tag(t.key, x), useDummy).value.0;
    TouchedOne(t, t1, index);
    assert forall a {:trigger t.slots[a]} :: a in t.slots && a != x && hit ==> Slotted(t, a) && t.slots[a] != t.slots[x];
    assert forall a {:trigger t.slots[a]} :: a in t.slots && a != x ==> t.slots[a] != index;
    KeepsElements(t, t1, x, index);
    KeepsDummies(t, t1, index);
  }

  /** The query touches one free slot and counts one. */
  ghost predicate Touches(t: Table, t1: Table, index: nat) {
    && index < |t.touched| && !t.touched[index]
    && t1 == t.(touched := t.touched[index := true], count := t.count + 1, asked := t1.asked)
  }

  lemma TouchedOne(t: Table, t1: Table, index: nat)
    requires TableShape(t) && t.count < t.params.numDummies && Touches(t, t1, index)
    ensures TableShape(t1)
  {
    assert FreeSlots(t1.touched) == FreeSlots(t.touched) - {index};
  }

  lemma KeepsElements(t: Table, t1: Table, x: nat, index: nat)
    requires TableInv(t) && Touches(t, t1, index)
    requires t.asked <= t1.asked <= t.asked + {x} && (x in t.slots ==> (t1.touched[t.slots[x]] <==> x in t1.asked))
    requires forall a {:trigger t.slots[a]} :: a in t.slots && a != x ==> t.slots[a] != index
    ensures ElementsOk(t1) && Apart(t1)
  {
    forall a {:trigger t1.slots[a]} | a in t1.slots ensures Slotted(t1, a) && a < 2 * t1.params.Sentinel() { assert Slotted(t, a); }
  }

  lemma KeepsDummies(t: Table, t1: Table, index: nat)
    requires TableInv(t) && Touches(t, t1, index)
    requires forall k {:trigger t.dummySlots[k]} :: 0 <= k < |t.dummySlots| && t.dummySlots[k] == index ==> k <= t.count
    ensures DummiesOk(t1) && AllUsed(t1)
  {
    forall k {:trigger DummyAt(t1, k)} | 0 <= k < |t1.dummySlots| ensures DummyAt(t1, k) {
      assert DummyAt(t, k) && (t.dummySlots[k] == index ==> k <= t.count);
    }
    forall j {:trigger Used(t1, j)} | 0 <= j < |t1.touched| && !t1.touched[j] ensures Used(t1, j) { assert t.touched[j] == t1.touched[j]; }
  }

  // ---------------------------------------------------------------- building

  /** Where input row `i` ends up in a fresh table. */
  lemma BuiltAt(p: Params, rows: seq<Row>, c: Coin, t: Table, i: nat)
    requires BuildTable(p, rows, c) == Ok(t) && i < p.Total()
    ensures |t.xs| == |t.ys| == |t.touched| == p.Total() && |t.dummySlots| == p.numDummies
    ensures |c.perm.to| == |c.perm.from| == p.Total() && c.perm.to[i] < p.Total() && c.perm.from[c.perm.to[i]] == i
    ensures t.xs[c.perm.to[i]] == Padded(p, rows)[i].addr && t.ys[c.perm.to[i]] == Padded(p, rows)[i].rec
    ensures t.touched[c.perm.to[i]] <==> i in c.stash
    ensures i in c.stash ==> i < p.numElements
    ensures i < p.numElements && i !in c.stash ==> rows[i].addr in t.slots && t.slots[rows[i].addr] == c.perm.to[i]
    ensures i >= p.numElements ==> t.dummySlots[i - p.numElements] == c.perm.to[i]
  {
  }

  lemma BuiltFrom(p: Params, rows: seq<Row>, c: Coin, t: Table, j: nat)
    requires BuildTable(p, rows, c) == Ok(t) && j < p.Total()
    ensures |c.perm.to| == |c.perm.from| == p.Total() && c.perm.from[j] < p.Total() && c.perm.to[c.perm.from[j]] == j
  {
  }

  lemma BuiltSlot(p: Params, rows: seq<Row>, c: Coin, t: Table, a: nat) returns (i: nat)
    requires BuildTable(p, rows, c) == Ok(t) && a in t.slots
    ensures Unstashed(rows, c, a, i) && i < p.numElements
  {
    i :| 0 <= i < |rows| && i !in c.stash && rows[i].addr == a;
  }

  ghost predicate Unstashed(rows: seq<Row>, c: Coin, a: nat, i: nat) {
    i < |rows| && i !in c.stash && rows[i].addr == a
  }

  lemma InLast(rest: seq<nat>, last: nat, x: nat)
    ensures x in rest + [last] <==> x in rest || x == last
  {
  }

  /** The slots of distinct stashed rows are as many as those rows. */
  lemma {:induction false} StashSlots(perm: Perm, n: nat, stash: seq<nat>) returns (stashed: set<nat>)
    requires IsPerm(perm, n) && forall i :: 0 <= i < |stash| ==> stash[i] < n
    requires forall i, j :: 0 <= i < j < |stash| ==> stash[i] != stash[j]
    ensures |stashed| == |stash|
    ensures forall j: nat {:trigger j in stashed} :: j in stashed <==> j < n && perm.from[j] in stash
  {
    if stash == [] {
      stashed := {};
    } else {
      hide IsPerm;
      var k, rest := |stash| - 1, stash[..|stash| - 1];
      var before := StashSlots(perm, n, rest);
      var last := stash[k];
      var slot := SlotFor(perm, n, last);
      NewLast(stash);
      stashed := before + {slot};
      OneMoreSlot(perm, n, rest, last, slot, before);
    }
  }

  lemma NewLast(stash: seq<nat>)
    requires stash != [] && forall i, j :: 0 <= i < j < |stash| ==> stash[i] != stash[j]
    ensures stash == stash[..|stash| - 1] + [stash[|stash| - 1]] && stash[|stash| - 1] !in stash[..|stash| - 1]
  {
  }

  lemma OneMoreSlot(perm: Perm, n: nat, rest: seq<nat>, last: nat, slot: nat, before: set<nat>)
    requires |perm.from| == n && slot < n && last !in rest
    requires forall j {:trigger perm.from[j]} :: 0 <= j < n ==> (perm.from[j] == last <==> j == slot)
    requires forall j: nat {:trigger j in before} :: j in before <==> j < n && perm.from[j] in rest
    ensures slot !in before
    ensures forall j: nat {:trigger j in before + {slot}} :: j in before + {slot} <==> j < n && perm.from[j] in rest + [last]
  {
    forall j: nat ensures j in before + {slot} <==> j < n && perm.from[j] in rest + [last] {
      if j < n { InLast(rest, last, perm.from[j]); }
    }
  }

  lemma SlotFor(perm: Perm, n: nat, row: nat) returns (slot: nat)
    requires IsPerm(perm, n) && row < n
    ensures |perm.from| == n && slot < n && forall j {:trigger perm.from[j]} :: 0 <= j < n ==> (perm.from[j] == row <==> j == slot)
  {
    slot := perm.to[row];
    forall j: nat {:trigger perm.from[j]} | j < n ensures perm.from[j] == row <==> j == slot { assert perm.to[perm.from[j]] == j; }
  }

  lemma StashFree(p: Params, rows: seq<Row>, c: Coin, t: Table)
    requires BuildTable(p, rows, c) == Ok(t)
    ensures |t.touched| == p.Total() && |FreeSlots(t.touched)| + p.stashSize == p.Total()
  {
    var stashed := StashSlots(c.perm, p.Total(), c.stash);
    assert forall j {:trigger t.touched[j]} :: 0 <= j < p.Total() ==> (t.touched[j] <==> c.perm.from[j] in c.stash);
    hide BuildTable, ValidCoin, IsPerm;
    forall j: nat ensures j in Below(p.Total()) <==> j in FreeSlots(t.touched) || j in stashed {
      if j < p.Total() { assert t.touched[j] <==> c.perm.from[j] in c.stash; }
    }
    assert Below(p.Total()) == FreeSlots(t.touched) + stashed;
    forall j: nat | j in stashed ensures j !in FreeSlots(t.touched) {
      assert t.touched[j];
    }
    assert FreeSlots(t.touched) !! stashed;
  }

  ghost predicate GoodRows(p: Params, rows: seq<Row>) {
    forall i {:trigger rows[i]} :: 0 <= i < |rows| ==> rows[i].addr < 2 * p.Sentinel() && rows[i].rec.alibi == {}
  }

  lemma BuildElements(p: Params, rows: seq<Row>, c: Coin, t: Table)
    requires BuildTable(p, rows, c) == Ok(t) && GoodRows(p, rows)
    ensures ElementsOk(t) && |c.perm.from| == p.Total()
    ensures forall a {:trigger t.slots[a]} :: a in t.slots ==> t.slots[a] < p.Total() && c.perm.from[t.slots[a]] < p.numElements
  {
    assert t.params == p && t.asked == {} && |c.perm.from| == p.Total() && |rows| == p.numElements;
    hide BuildTable, Unstashed;
    forall a {:trigger t.slots[a]} | a in t.slots
      ensures Slotted(t, a) && a < 2 * p.Sentinel() && t.slots[a] < p.Total() && c.perm.from[t.slots[a]] < p.numElements
    {
      var i := BuiltSlot(p, rows, c, t, a);
      BuiltAt(p, rows, c, t, i);
      UnstashedIs(rows, c, a, i);
    }
  }

  lemma BuildDummies(p: Params, rows: seq<Row>, c: Coin, t: Table)
    requires BuildTable(p, rows, c) == Ok(t)
    ensures DummiesOk(t) && |c.perm.from| == p.Total() && |t.dummySlots| == p.numDummies
    ensures forall k {:trigger t.dummySlots[k]} :: 0 <= k < |t.dummySlots| ==>
      t.dummySlots[k] < p.Total() && c.perm.from[t.dummySlots[k]] == p.numElements + k
  {
    assert t.params == p && |c.perm.from| == p.Total() && |t.dummySlots| == p.numDummies && |rows| == p.numElements;
    hide BuildTable;
    forall k | 0 <= k < |t.dummySlots|
      ensures t.dummySlots[k] < p.Total() && c.perm.from[t.dummySlots[k]] == p.numElements + k
      ensures DummyAt(t, k)
    {
      BuiltAt(p, rows, c, t, p.numElements + k);
      assert Padded(p, rows)[p.numElements + k] == Row(p.Sentinel(), ZERO);
    }
    forall k, l | 0 <= k < l < |t.dummySlots| ensures t.dummySlots[k] != t.dummySlots[l] {
      assert c.perm.from[t.dummySlots[k]] != c.perm.from[t.dummySlots[l]];
    }
  }

  lemma BuildUsed(p: Params, rows: seq<Row>, c: Coin, t: Table)
    requires BuildTable(p, rows, c) == Ok(t)
    ensures AllUsed(t)
  {
    assert |t.touched| == |t.xs| == p.Total() && |t.dummySlots| == p.numDummies && |rows| == p.numElements;
    hide BuildTable;
    forall j {:trigger t.touched[j]} | 0 <= j < |t.touched| && !t.touched[j] ensures Used(t, j) {
      BuiltFrom(p, rows, c, t, j);
      BuiltAt(p, rows, c, t, c.perm.from[j]);
    }
  }

  lemma BuildInv(p: Params, rows: seq<Row>, c: Coin, t: Table)
    requires BuildTable(p, rows, c) == Ok(t) && GoodRows(p, rows)
    ensures TableInv(t) && t.params == p && t.key == c.key && t.count == 0 && t.asked == {}
  {
    StashFree(p, rows, c, t);
    BuildElements(p, rows, c, t);
    BuildDummies(p, rows, c, t);
    BuildUsed(p, rows, c, t);
    assert TableShape(t) && t.params == p && t.key == c.key && t.count == 0 && t.asked == {};
    hide BuildTable, ElementsOk, DummiesOk, AllUsed, TableShape;
  }

  lemma UnstashedIs(rows: seq<Row>, c: Coin, a: nat, i: nat)
    requires Unstashed(rows, c, a, i)
    ensures i < |rows| && i !in c.stash && rows[i].addr == a
  {
  }

  /** A fresh table holds exactly the unstashed elements and hands the stashed ones over. */
  lemma BuildOk(p: Params, rows: seq<Row>, c: Coin)
    requires p.Valid() && |rows| == p.numElements && DistinctAddrs(rows) && ValidCoin(p, c) && GoodRows(p, rows)
    ensures var r := BuildTable(p, rows, c);
      && r.Ok? && TableInv(r.value) && r.value.params == p && r.value.key == c.key && r.value.count == 0 && r.value.asked == {}
      && (forall i {:trigger rows[i]} :: 0 <= i < |rows| && i !in c.stash ==>
            Live(r.value, rows[i].addr) && ValueIn(r.value, rows[i].addr) == rows[i].rec.value)
      && (forall a :: Live(r.value, a) ==> exists i: nat :: Unstashed(rows, c, a, i))
      && |r.value.stashXs| == |r.value.stashYs| == |c.stash|
      && (forall k :: 0 <= k < |c.stash| ==>
            Row(r.value.stashXs[k], r.value.stashYs[k]) == rows[c.stash[k]])
  {
    var t := BuildTable(p, rows, c).value;
    BuildInv(p, rows, c, t);
    hide TableInv;
    forall a | Live(t, a) ensures exists i: nat :: Unstashed(rows, c, a, i) {
      var i := BuiltSlot(p, rows, c, t, a);
    }
    forall i | 0 <= i < |rows| && i !in c.stash
      ensures rows[i].addr in t.slots && t.ys[t.slots[rows[i].addr]].value == rows[i].rec.value
    {
      BuiltAt(p, rows, c, t, i);
    }
  }

  // -------------------------------------------------------------- extracting

  /** No address below `bound` occurs twice. */
  ghost predicate RealDistinct(rows: seq<Row>, bound: nat) {
    forall i, j :: 0 <= i < j < |rows| && rows[i].addr < bound ==> rows[i].addr != rows[j].addr
  }

  ghost predicate Holds(rows: seq<Row>, a: nat) {
    exists i :: 0 <= i < |rows| && rows[i].addr == a
  }

  lemma FreeSlotsSplit(touched: seq<bool>, n: nat)
    requires |touched| == n + 1
    ensures |FreeSlots(touched)| == |FreeSlots(touched[..n])| + (if touched[n] then 0 else 1)
  {
    var before := FreeSlots(touched[..n]);
    var last: set<nat> := if touched[n] then {} else {n};
    forall j: nat ensures j in FreeSlots(touched) <==> j in before + last {
      if j < n { assert touched[..n][j] == touched[j]; }
    }
    assert FreeSlots(touched) == before + last;
  }

  lemma {:induction false} FreeListSize(touched: seq<bool>)
    ensures |FreeList(touched)| == |FreeSlots(touched)|
  {
    if touched != [] {
      FreeListSize(touched[..|touched| - 1]);
      FreeSlotsSplit(touched, |touched| - 1);
    }
  }

  lemma {:induction false} FreeListHas(touched: seq<bool>, j: nat)
    requires j < |touched| && !touched[j]
    ensures j in FreeList(touched)
  {
    var n := |touched| - 1;
    if j < n { FreeListHas(touched[..n], j); }
  }

  lemma FreeListComplete(touched: seq<bool>)
    ensures |FreeList(touched)| == |FreeSlots(touched)|
    ensures forall j {:trigger touched[j]} :: 0 <= j < |touched| && !touched[j] ==> j in FreeList(touched)
  {
    FreeListSize(touched);
    forall j {:trigger touched[j]} | 0 <= j < |touched| && !touched[j] ensures j in FreeList(touched) {
      FreeListHas(touched, j);
    }
  }

  /** What is left in a table: each live address once with its value, the rest dummies. */
  lemma ExtractFacts(t: Table)
    requires TableInv(t)
    ensures var rows, n := UntouchedRows(t), t.params.Sentinel();
      && |rows| + t.params.stashSize + t.count == t.params.Total() && RealDistinct(rows, n)
      && (forall i {:trigger rows[i]} :: 0 <= i < |rows| ==> rows[i].addr < 2 * n)
      && (forall i {:trigger rows[i]} :: 0 <= i < |rows| && rows[i].addr < n ==>
            Live(t, rows[i].addr) && rows[i].rec.value == ValueIn(t, rows[i].addr))
      && (forall a: nat :: a < n && Live(t, a) ==> Holds(rows, a))
  {
    var rows, n, free := UntouchedRows(t), t.params.Sentinel(), FreeList(t.touched);
    FreeListComplete(t.touched);
    forall i | 0 <= i < |rows|
      ensures rows[i].addr < 2 * n
      ensures rows[i].addr < n ==> rows[i].addr in t.slots && t.slots[rows[i].addr] == free[i]
      ensures rows[i].addr < n ==> Live(t, rows[i].addr) && rows[i].rec.value == ValueIn(t, rows[i].addr)
    {
      var j := free[i];
      assert Used(t, j);
      if t.xs[j] in t.slots && t.slots[t.xs[j]] == j {
        assert Slotted(t, t.xs[j]);
      } else {
        var k :| 0 <= k < |t.dummySlots| && t.dummySlots[k] == j;
        assert DummyAt(t, k);
      }
    }
    forall a: nat | a < n && Live(t, a) ensures Holds(rows, a) {
      assert Slotted(t, a) && !t.touched[t.slots[a]];
      var i :| 0 <= i < |free| && free[i] == t.slots[a];
      assert rows[i].addr == a;
    }
  }
}
