/** New hierarchies, and hierarchies that grow by one address bit. */
module Growing {
  import opened Arithmetic
  import opened Words
  import opened Tables
  import opened Caches
  import opened Doram
  import opened Invariants
  import opened Rows
  import opened Collect
  import opened Rebuilding
  import opened Refinement
  import Accessing
  import Sets
  import Sizes

  lemma NewOk(cfg: Config)
    requires cfg.Valid()
    ensures New(cfg).Ok? && Inv(New(cfg).value) && Represents(New(cfg).value, map[])
    ensures New(cfg).value.cfg == cfg && !New(cfg).value.hadInitial && Started(New(cfg).value, 0)
  {
    var s := New(cfg).value;
    Sizes.LowSumZero(s.digits, cfg.Amp(), cfg.Bottom());
    forall l: nat | l < |s.levels| ensures LevelOk(s, l) {}
  }

  /** A hierarchy that has not been rebuilt yet, with or without a bottom level. */
  ghost predicate Started(s: State, bottom: nat) {
    && s.cache.numStored == s.cfg.stash && s.rebuilds == 0
    && |s.digits| == s.cfg.numLevels > 0 && s.digits[s.cfg.Bottom()] == bottom
  }

  // ------------------------------------------------- a full bottom level alone

  /** Rows that hold a whole memory: every address, if the hierarchy started full, and every nonzero one. */
  ghost predicate Whole(cfg: Config, hadInitial: bool, rows: seq<Row>, m: Memory) {
    && DistinctAddrs(rows) && NoAlibi(rows) && Faithful(rows, cfg.N(), m) && |rows| == cfg.N()
    && (forall a: nat {:trigger Holds(rows, a)} :: a < cfg.N() && !Holds(rows, a) ==> !hadInitial && Get(m, a) == 0)
    && (forall a :: a in m ==> a < cfg.N())
  }

  lemma BottomRebuiltAs(s2: State, s1: State, r: nat, t: Table)
    requires s2.cfg.Valid() && r == s2.cfg.Bottom() && |s2.levels| == |s2.digits| == s2.cfg.numLevels
    requires forall k {:trigger s2.levels[k]} :: 0 <= k < |s2.levels| ==> s2.levels[k] == None && s2.digits[k] == 0
    requires s1 == WithTable(s2, r, t).(cache := s1.cache) && StashCached(s1, r, t)
    ensures RebuiltAs(s1, s1, r, t) && Shape(s1)
    ensures LowSum(s1.digits, s1.cfg.Amp(), s1.cfg.Bottom()) == 0
  {
    forall k {:trigger s1.digits[k]} | 0 <= k < r ensures s1.digits[k] == 0 {
      assert s2.levels[k] == None;
    }
    Sizes.LowSumZero(s1.digits, s1.cfg.Amp(), s1.cfg.Bottom());
  }

  lemma BottomLevels(s1: State, r: nat, t: Table)
    requires Shape(s1) && RebuiltAs(s1, s1, r, t) && r == s1.cfg.Bottom()
    requires TableInv(t) && t.params.logN == s1.cfg.logN && t.params.stashSize == s1.cfg.stash && t.params.numDummies == s1.cfg.NumDummies(r)
    requires t.params.numElements == s1.cfg.NumElementsAt(r, s1.digits[r]) && t.count == 0
    ensures LevelsOk(s1)
  {
    forall l: nat | l < |s1.levels| ensures LevelOk(s1, l) {
      SpentKept(s1, s1, r, t, l);
      if l < r { assert s1.levels[l] == None; }
    }
  }

  /** A hierarchy whose only table is a bottom level built on a whole memory. */
  lemma BottomOk(s2: State, m: Memory, rows: seq<Row>, o: Oracle)
    requires s2.cfg.Valid() && Good(o) && Whole(s2.cfg, s2.hadInitial, rows, m)
    requires s2 == Empty(s2.cfg, s2.hadInitial).(built := s2.built)
    ensures var b := s2.cfg.Bottom();
      && NewTable(s2, b, rows, o).Ok? && InsertStash(NewTable(s2, b, rows, o).value, b).Ok?
      && var s1 := InsertStash(NewTable(s2, b, rows, o).value, b).value;
        Inv(s1) && Represents(s1, m) && s1.cfg == s2.cfg && s1.hadInitial == s2.hadInitial && Started(s1, 1)
  {
    var r := s2.cfg.Bottom();
    var c, t := NewTableForm(s2, r, rows, o);
    assert NewTable(s2, r, rows, o) == Ok(WithTable(s2, r, t));
    BuiltOnSame(s2, s2, r, rows, c, t);
    var cache := StashEnters(WithTable(s2, r, t), r, t);
    var s1 := WithTable(s2, r, t).(cache := cache);
    BottomRebuiltAs(s2, s1, r, t);
    BuiltOnSame(s1, s2, r, rows, c, t);
    BottomInv(s1, m, r, rows, c, t);
    StashCount(s1, s1, r, t);
    hide Inv, Represents, Good, Whole, BuiltOn, RebuiltAs, StashCached, NewTable, InsertStash, Shape;
    assert s1.digits[r] == 1;
  }

  lemma BottomInv(s1: State, m: Memory, r: nat, rows: seq<Row>, c: Coin, t: Table)
    requires Shape(s1) && RebuiltAs(s1, s1, r, t) && r == s1.cfg.Bottom() && BuiltOn(s1, r, rows, c, t)
    requires Whole(s1.cfg, s1.hadInitial, rows, m) && t.params.numElements == |rows|
    requires LowSum(s1.digits, s1.cfg.Amp(), s1.cfg.Bottom()) == 0 && s1.rebuilds == 0
    ensures Inv(s1) && Represents(s1, m)
  {
    assert Residue(s1, m, r, rows);
    BuiltFresh(s1, m, r, rows, c, t);
    BottomLevels(s1, r, t);
    RebuiltUnique(s1, s1, m, r, rows, c, t);
    RebuiltNoRepeats(s1, s1, m, r, rows, c, t);
    RebuiltCache(s1, s1, m, r, rows, c, t);
    RebuiltRepresents(s1, s1, m, r, rows, c, t);
    RebuiltComplete(s1, s1, m, r, rows, c, t);
    SameConfig(s1, s1, r, t);
    assert Odometer(s1);
    hide *;
  }

  function MemoryOf(ys: seq<nat>): (m: Memory) {
    map a | 0 <= a < |ys| :: ys[a]
  }

  function InitialRows(ys: seq<nat>): (rows: seq<Row>)
    ensures |rows| == |ys|
  {
    seq(|ys|, i requires 0 <= i < |ys| => Row(i, Record(ys[i], {})))
  }

  lemma InitialWhole(cfg: Config, ys: seq<nat>)
    requires |ys| == cfg.N()
    ensures Whole(cfg, true, InitialRows(ys), MemoryOf(ys))
  {
    var rows := InitialRows(ys);
    forall a: nat | a < cfg.N() ensures Holds(rows, a) { assert rows[a].addr == a; }
  }

  /** A hierarchy created from `N` values represents them. */
  lemma NewWithBottomOk(cfg: Config, ys: seq<nat>, o: Oracle)
    requires cfg.Valid() && Good(o)
    ensures NewWithBottom(cfg, ys, o).Ok? <==> |ys| == cfg.N()
    ensures NewWithBottom(cfg, ys, o).Ok? ==> var s := NewWithBottom(cfg, ys, o).value;
      Inv(s) && Represents(s, MemoryOf(ys)) && s.cfg == cfg && s.hadInitial && Started(s, 1)
  {
    if |ys| == cfg.N() {
      var rows := InitialRows(ys);
      assert rows == seq(|ys|, i requires 0 <= i < |ys| => Row(i, Record(ys[i], {})));
      InitialWhole(cfg, ys);
      var s2 := Empty(cfg, true);
      assert s2 == s2.(built := 0);
      BottomOk(s2, MemoryOf(ys), rows, o);
    }
  }

  // ---------------------------------------------------------------- growing

  /** The widened rows hold the same memory in the larger address space. */
  lemma WidenedInitial(s: State, newCfg: Config, rows: seq<Row>, m: Memory)
    requires s.cfg.Valid() && newCfg.Valid() && newCfg.logN == s.cfg.logN + 1 && s.hadInitial
    requires Whole(s.cfg, true, rows, m) && forall i {:trigger rows[i]} :: 0 <= i < |rows| ==> rows[i].addr < s.cfg.N()
    ensures var w := Widened(s, newCfg, rows); w.Ok? && Whole(newCfg, true, w.value, m)
  {
    var n := s.cfg.N();
    Sizes.SpaceFits(newCfg);
    assert newCfg.N() == 2 * n;
    var more := seq(newCfg.N() - n, i requires 0 <= i < newCfg.N() - n => Row(n + i, ZERO));
    var w := rows + more;
    assert Widened(s, newCfg, rows) == Ok(w);
    forall a: nat | a < newCfg.N() ensures Holds(w, a) {
      HoldsConcat(rows, more, a);
      if a < n {
        assert Holds(rows, a);
      } else {
        assert more[a - n].addr == a;
      }
    }
  }

  lemma WidenedSorted(s: State, newCfg: Config, rows: seq<Row>, m: Memory)
    requires s.cfg.Valid() && newCfg.Valid() && newCfg.logN == s.cfg.logN + 1 && !s.hadInitial
    requires NoAlibi(rows) && Faithful(rows, s.cfg.N(), m) && |rows| <= newCfg.N()
    requires forall a: nat {:trigger Holds(rows, a)} :: a < s.cfg.N() && !Holds(rows, a) ==> Get(m, a) == 0
    requires forall a :: a in m ==> a < s.cfg.N()
    ensures var w := Widened(s, newCfg, rows); w.Ok? && Whole(newCfg, false, w.value, m)
  {
    var n := s.cfg.N();
    Sizes.SpaceFits(newCfg);
    assert newCfg.N() == 2 * n;
    var k := newCfg.N() - |rows|;
    PadKeeps(rows, k, n, m);
    var padded := rows + DummyRows(k, n);
    RelabelWide(padded, s.cfg.logN, m);
    var w := Relabel(padded, s.cfg.logN, newCfg.N()).value;
    forall a: nat | a < newCfg.N() && !Holds(w, a) ensures Get(m, a) == 0 {
      if a < n { assert Holds(rows, a) <==> Holds(padded, a); }
    }
  }

  /** Relabelling into the label space of the grown hierarchy. */
  lemma RelabelWide(rows: seq<Row>, logN: nat, m: Memory)
    requires Faithful(rows, Pow2(logN), m) && NoAlibi(rows) && |rows| == 2 * Pow2(logN) && 4 * Pow2(logN) <= TWO32
    ensures var n, r := Pow2(logN), Relabel(rows, logN, 2 * Pow2(logN));
      && r.Ok? && |r.value| == |rows| && DistinctAddrs(r.value) && NoAlibi(r.value)
      && Faithful(r.value, 2 * n, m) && SameReal(rows, r.value, n)
  {
    hide Pow2, NoAlibi, SameReal, DistinctAddrs, Relabel;
    RelabelIs(rows, logN, 2 * Pow2(logN));
    RelabelledKeeps(rows, Relabel(rows, logN, 2 * Pow2(logN)).value, Pow2(logN), 2 * Pow2(logN), m);
  }

  lemma FinishGrowOk(s: State, newCfg: Config, m: Memory, wide: seq<Row>, rows: seq<Row>, o: Oracle)
    requires newCfg.Valid() && Good(o) && Widened(s, newCfg, rows) == Ok(wide) && Whole(newCfg, s.hadInitial, wide, m)
    ensures var r := FinishGrow(s, newCfg, rows, o);
      && r.Ok? && Inv(r.value) && Represents(r.value, m) && r.value.cfg == newCfg && r.value.hadInitial == s.hadInitial && Started(r.value, 1)
  {
    var s2 := Empty(newCfg, s.hadInitial).(built := s.built);
    assert s2 == Empty(s2.cfg, s2.hadInitial).(built := s2.built);
    BottomOk(s2, m, wide, o);
  }

  /** All copies of a memory: what either way of growing starts from. */
  ghost predicate AllCopies(s: State, m: Memory, rows: seq<Row>) {
    && NoAlibi(rows) && Faithful(rows, s.cfg.N(), m)
    && forall a: nat {:trigger Holds(rows, a)} :: a < s.cfg.N() ==> (Holds(rows, a) <==> Located(s, a))
  }

  /** The grown hierarchy represents the same memory under the new configuration. */
  ghost predicate GrownTo(s: State, newCfg: Config, m: Memory, g: Outcome<State>) {
    && g.Ok? && Inv(g.value) && Represents(g.value, m)
    && g.value.cfg == newCfg && g.value.hadInitial == s.hadInitial && Started(g.value, 1)
  }

  lemma CleansedInitial(s: State, newCfg: Config, m: Memory, rows: seq<Row>, perm: Perm)
    requires Inv(s) && Represents(s, m) && newCfg.Valid() && newCfg.logN == s.cfg.logN + 1 && IsPerm(perm, |rows|)
    requires AllCopies(s, m, rows) && s.hadInitial && |rows| >= s.cfg.N()
    ensures var f := Finalize(s.cfg, true, rows, perm);
      f.Ok? && Widened(s, newCfg, f.value).Ok? && Whole(newCfg, true, Widened(s, newCfg, f.value).value, m)
  {
    var n := s.cfg.N();
    forall a: nat | a < n ensures Holds(rows, a) { assert Located(s, a); }
    FinalizeFiltered(s.cfg, rows, m, perm);
    var ready := Finalize(s.cfg, true, rows, perm).value;
    assert (forall a :: a in m ==> a < n) && s.cfg.Valid();
    hide Inv, Represents, Finalize, AllCopies, NoAlibi, DistinctAddrs, Faithful, Holds;
    forall a: nat | a < n ensures Holds(ready, a) { assert Holds(rows, a); }
    assert Whole(s.cfg, true, ready, m);
    WidenedInitial(s, newCfg, ready, m);
  }

  lemma CleansedSorted(s: State, newCfg: Config, m: Memory, rows: seq<Row>, perm: Perm)
    requires Inv(s) && Represents(s, m) && newCfg.Valid() && newCfg.logN == s.cfg.logN + 1
    requires AllCopies(s, m, rows) && !s.hadInitial && NextPow2(|rows|, 1) < TWO32
    ensures var f := Finalize(s.cfg, false, rows, perm);
      f.Ok? && Widened(s, newCfg, f.value).Ok? && Whole(newCfg, false, Widened(s, newCfg, f.value).value, m)
  {
    hide *;
    CopiesParts(s, newCfg, m, rows);
    FinalizeSorted(s.cfg, rows, m, perm);
    var ready := Finalize(s.cfg, false, rows, perm).value;
    DefaultElsewhere(s, m, rows, ready);
    WidenedSorted(s, newCfg, ready, m);
  }

  lemma CopiesParts(s: State, newCfg: Config, m: Memory, rows: seq<Row>)
    requires Inv(s) && Represents(s, m) && AllCopies(s, m, rows) && newCfg.logN == s.cfg.logN + 1
    ensures s.cfg.Valid() && NoAlibi(rows) && Faithful(rows, s.cfg.N(), m) && newCfg.N() == 2 * s.cfg.N()
    ensures forall a :: a in m ==> a < s.cfg.N()
  {
    hide Holds, RealDistinct;
  }

  /** An address none of all the copies holds has the default value. */
  lemma DefaultElsewhere(s: State, m: Memory, rows: seq<Row>, ready: seq<Row>)
    requires Represents(s, m) && AllCopies(s, m, rows) && SameReal(rows, ready, s.cfg.N())
    ensures forall a: nat {:trigger Holds(ready, a)} :: a < s.cfg.N() && !Holds(ready, a) ==> Get(m, a) == 0
  {
    hide Holds, RealDistinct;
    forall a: nat | a < s.cfg.N() && !Holds(ready, a) ensures Get(m, a) == 0 { assert !Holds(rows, a) && !Located(s, a); }
  }

  /** All copies, cleansed and widened, hold the whole memory: the filter keeps exactly the real rows, the
      sort may only drop dummies, and new addresses get the default value. */
  lemma Cleansed(s: State, newCfg: Config, m: Memory, rows: seq<Row>, perm: Perm)
    requires Inv(s) && Represents(s, m) && newCfg.Valid() && newCfg.logN == s.cfg.logN + 1 && IsPerm(perm, |rows|)
    requires AllCopies(s, m, rows) && (if s.hadInitial then |rows| >= s.cfg.N() else NextPow2(|rows|, 1) < TWO32)
    ensures var f := Finalize(s.cfg, s.hadInitial, rows, perm);
      f.Ok? && Widened(s, newCfg, f.value).Ok? && Whole(newCfg, s.hadInitial, Widened(s, newCfg, f.value).value, m)
  {
    hide *;
    if s.hadInitial {
      CleansedInitial(s, newCfg, m, rows, perm);
    } else {
      CleansedSorted(s, newCfg, m, rows, perm);
    }
  }

  lemma GrowRows(s: State, newCfg: Config, m: Memory, rows: seq<Row>, perm: Perm, o: Oracle)
    requires Inv(s) && Represents(s, m) && Good(o) && newCfg.Valid() && newCfg.logN == s.cfg.logN + 1 && IsPerm(perm, |rows|)
    requires AllCopies(s, m, rows) && (if s.hadInitial then |rows| >= s.cfg.N() else NextPow2(|rows|, 1) < TWO32)
    ensures var f := Finalize(s.cfg, s.hadInitial, rows, perm);
      f.Ok? && GrownTo(s, newCfg, m, FinishGrow(s, newCfg, f.value, o))
  {
    Cleansed(s, newCfg, m, rows, perm);
    hide Inv, Represents, Finalize, FinishGrow, Good, AllCopies, Whole, Widened;
    var ready := Finalize(s.cfg, s.hadInitial, rows, perm).value;
    FinishGrowOk(s, newCfg, m, Widened(s, newCfg, ready).value, ready, o);
  }

  // ------------------------------------------------------ at a full collapse

  /** Growing at a full-collapse boundary never fails and keeps the memory; elsewhere it is refused. */
  lemma GrowNaturallyOk(s: State, newCfg: Config, m: Memory, o: Oracle)
    requires Inv(s) && Represents(s, m) && Good(o) && newCfg.Valid()
    ensures var g := GrowNaturally(s, newCfg, o);
      if newCfg.logN == s.cfg.logN + 1 && ReadyToGrow(s) then GrownTo(s, newCfg, m, g) else g.Refused?
  {
    ShapesOk(s);
    assert s.cache.Shaped();
    if newCfg.logN == s.cfg.logN + 1 && ReadyToGrow(s) {
      var rows := CollapseRows(s, m);
      var perm := o.shuffle(s.built, |rows|);
      assert IsPerm(perm, |rows|);
      SmallSort(s, newCfg, rows);
      GrowRows(s, newCfg, m, rows, perm, o);
      GrowNaturallyUnfolds(s, newCfg, rows, o);
      hide *;
    } else {
      hide Inv, Represents, Good, ReadyToGrow, StateShaped, FinishGrow, Collected, Finalize;
    }
  }

  lemma SmallSort(s: State, newCfg: Config, rows: seq<Row>)
    requires Shape(s) && |rows| == if s.levels[s.cfg.Bottom()].Some? then 2 * s.cfg.N() else s.cfg.N()
    requires newCfg.Valid() && newCfg.logN == s.cfg.logN + 1
    ensures NextPow2(|rows|, 1) < TWO32
  {
    SortSize(s, rows);
  }

  lemma GrowNaturallyUnfolds(s: State, newCfg: Config, rows: seq<Row>, o: Oracle)
    requires s.cache.Shaped() && StateShaped(s) && newCfg.Valid() && newCfg.logN == s.cfg.logN + 1 && ReadyToGrow(s) && rows != []
    requires var b := s.cfg.Bottom(); Collected(s, if NeedExtract(s, b) then b + 1 else b) == Ok(rows)
    requires Finalize(s.cfg, s.hadInitial, rows, o.shuffle(s.built, |rows|)).Ok?
    ensures GrowNaturally(s, newCfg, o) == FinishGrow(s, newCfg, Finalize(s.cfg, s.hadInitial, rows, o.shuffle(s.built, |rows|)).value, o)
  {
    hide ReadyToGrow, StateShaped, FinishGrow, Collected, Finalize, NeedExtract;
  }

  lemma CollapseRows(s: State, m: Memory) returns (rows: seq<Row>)
    requires Inv(s) && Represents(s, m) && ReadyToGrow(s)
    ensures StateShaped(s)
    ensures var b := s.cfg.Bottom(); Collected(s, if NeedExtract(s, b) then b + 1 else b) == Ok(rows)
    ensures AllCopies(s, m, rows) && rows != []
    ensures |rows| == if s.levels[s.cfg.Bottom()].Some? then 2 * s.cfg.N() else s.cfg.N()
  {
    var b := s.cfg.Bottom();
    TargetOk(s, b);
    NeedIsLive(s, b);
    var last := if NeedExtract(s, b) then b + 1 else b;
    CollectedFacts(s, m, last);
    rows := Collected(s, last).value;
    CollectedBottomSize(s);
    CollectsThrough(s, m, rows, b);
    forall a: nat | a < s.cfg.N() ensures Holds(rows, a) <==> Located(s, a) {
      LocatedSomewhere(s, a);
    }
  }

  lemma LocatedSomewhere(s: State, a: nat)
    ensures Located(s, a) <==> IsCached(s.cache, a) || LiveBelow(s.levels, a, |s.levels|)
  {
    if l :| LiveAt(s.levels, l, a) { assert LiveBelow(s.levels, a, |s.levels|); }
  }

  // ------------------------------------------------------------- on demand

  lemma MoreThanStash(cfg: Config, l: nat, d: nat)
    requires cfg.Valid() && l < cfg.numLevels && d >= 1 && (l == cfg.Bottom() ==> d == 1)
    ensures cfg.NumElementsAt(l, d) > cfg.stash
  {
    Sizes.ElementsUnit(cfg, l, d);
    Pow2Mono(cfg.logS, l * cfg.logAmp + cfg.logS);
    MulMono(1, d, Pow2(l * cfg.logAmp + cfg.logS));
  }

  lemma LevelLeft(s: State, m: Memory, l: nat)
    requires Inv(s) && Represents(s, m) && l < s.cfg.numLevels && s.levels[l].Some?
    ensures LevelShaped(s.levels[l])
    ensures var rows := UntouchedRows(s.levels[l].value);
      && Faithful(rows, s.cfg.N(), m) && rows != []
      && forall a: nat {:trigger Holds(rows, a)} :: a < s.cfg.N() ==> (Holds(rows, a) <==> LiveAt(s.levels, l, a))
  {
    var t, n := s.levels[l].value, s.cfg.N();
    assert LevelOk(s, l);
    assert s.levels[l].Some? <==> s.digits[l] != 0;
    MoreThanStash(s.cfg, l, s.digits[l]);
    ExtractFacts(t);
    var rows := UntouchedRows(t);
    assert t.params.Total() == t.params.numElements + t.params.numDummies;
    assert rows != [];
    hide TableInv, UntouchedRows, LevelOk;
    forall i | 0 <= i < |rows| && rows[i].addr < n ensures rows[i].rec.value == Get(m, rows[i].addr) {
      assert LiveAt(s.levels, l, rows[i].addr);
    }
    forall a: nat | a < n ensures Holds(rows, a) <==> LiveAt(s.levels, l, a) {
      if Holds(rows, a) { var i :| 0 <= i < |rows| && rows[i].addr == a; }
    }
  }

  /** `rows` are the live copies below level `upto`. */
  ghost predicate HoldsBelow(s: State, m: Memory, rows: seq<Row>, upto: nat) {
    && Faithful(rows, s.cfg.N(), m)
    && forall a: nat {:trigger Holds(rows, a)} :: a < s.cfg.N() ==> (Holds(rows, a) <==> LiveBelow(s.levels, a, upto))
  }

  lemma OnceLive(s: State, k: int, l: int, a: nat)
    requires Inv(s) && a < s.cfg.N() && LiveAt(s.levels, k, a) && k < l
    ensures !LiveAt(s.levels, l, a)
  {
  }

  lemma AppendLevel(s: State, m: Memory, l: nat, before: seq<Row>)
    requires Inv(s) && Represents(s, m) && l < s.cfg.numLevels && HoldsBelow(s, m, before, l)
    ensures LevelShaped(s.levels[l])
    ensures HoldsBelow(s, m, before + (if s.levels[l].Some? then UntouchedRows(s.levels[l].value) else []), l + 1)
  {
    var n := s.cfg.N();
    forall a: nat ensures LiveBelow(s.levels, a, l + 1) <==> LiveBelow(s.levels, a, l) || LiveAt(s.levels, l, a) {
      LiveBelowNext(s.levels, a, l);
    }
    InvShape(s);
    if s.levels[l].Some? {
      LevelLeft(s, m, l);
      var own := UntouchedRows(s.levels[l].value);
      hide UntouchedRows, Faithful, Holds, TableInv, Represents;
      forall a: nat {:trigger Holds(before, a)} | a < n && Holds(before, a) ensures !Holds(own, a) {
        var k :| k < l && LiveAt(s.levels, k, a);
        OnceLive(s, k, l, a);
      }
      hide Inv;
      FaithfulConcat(before, own, n, m);
      forall a: nat | a < n ensures Holds(before + own, a) <==> LiveBelow(s.levels, a, l + 1) {
        HoldsConcat(before, own, a);
      }
    } else {
      assert before + [] == before;
    }
  }

  lemma {:induction false} GatherAllFacts(s: State, m: Memory, upto: nat)
    requires Inv(s) && Represents(s, m) && upto <= s.cfg.numLevels && StateShaped(s)
    ensures HoldsBelow(s, m, GatherAll(s.levels, upto), upto)
  {
    hide *;
    NothingHeld(s, m);
    if upto > 0 {
      SpaceLevels(s);
      GatherAllFacts(s, m, upto - 1);
      AppendLevel(s, m, upto - 1, GatherAll(s.levels, upto - 1));
      GatherAllUnfolds(s.levels, upto - 1);
    }
  }

  lemma NothingHeld(s: State, m: Memory)
    requires StateShaped(s)
    ensures |s.levels| == |s.digits| == s.cfg.numLevels && LevelsShaped(s.levels) && HoldsBelow(s, m, GatherAll(s.levels, 0), 0)
  {
  }

  lemma SpaceLevels(s: State)
    requires Inv(s)
    ensures |s.levels| == s.cfg.numLevels
  {
  }

  lemma GatherAllUnfolds(levels: seq<Option<Table>>, l: nat)
    requires l < |levels| && LevelsShaped(levels)
    ensures levels[l].Some? ==> LevelShaped(levels[l])
    ensures GatherAll(levels, l + 1) == GatherAll(levels, l) + (if levels[l].Some? then UntouchedRows(levels[l].value) else [])
  {
  }

  lemma {:induction false} GatherAllEmpty(s: State, m: Memory, upto: nat)
    requires Inv(s) && Represents(s, m) && upto <= s.cfg.numLevels && StateShaped(s)
    ensures GatherAll(s.levels, upto) == [] <==> forall l {:trigger s.levels[l]} :: 0 <= l < upto ==> s.levels[l].None?
  {
    hide *;
    NothingHeld(s, m);
    if upto == 0 {
      NothingGathered(s.levels);
    } else {
      var l := upto - 1;
      GatherAllEmpty(s, m, l);
      GatherAllUnfolds(s.levels, l);
      if s.levels[l].Some? { LevelLeft(s, m, l); }
    }
  }

  lemma NothingGathered(levels: seq<Option<Table>>)
    requires LevelsShaped(levels)
    ensures GatherAll(levels, 0) == []
  {
  }

  /** Growing on demand has something to work on unless the hierarchy is new and has no stash. */
  predicate Blank(s: State) {
    s.cache.numStored == 0 && forall l {:trigger s.levels[l]} :: 0 <= l < |s.levels| ==> s.levels[l].None?
  }

  lemma EverythingFacts(s: State, m: Memory)
    requires Inv(s) && Represents(s, m)
    ensures StateShaped(s)
    ensures AllCopies(s, m, EverythingIn(s)) && (EverythingIn(s) == [] <==> Blank(s))
  {
    var n, k := s.cfg.N(), s.cfg.numLevels;
    ShapesOk(s);
    GatherAllFacts(s, m, k);
    GatherAllEmpty(s, m, k);
    CacheRows(s, m);
    var mine, below := StoredRows(s.cache), GatherAll(s.levels, k);
    forall a: nat | a < n && Holds(mine, a) ensures !Holds(below, a) {
      var i :| CachedAt(s.cache, i, a);
      forall l ensures !LiveAt(s.levels, l, a) {}
    }
    FaithfulConcat(mine, below, n, m);
    ClearKeeps(mine + below, n, m);
    forall a: nat | a < n ensures Holds(ClearAlibis(mine + below), a) <==> Located(s, a) {
      HoldsConcat(mine, below, a);
      LocatedSomewhere(s, a);
    }
  }

  /** Distinct addresses need that many rows. */
  lemma AllNeedRoom(rows: seq<Row>, n: nat)
    requires forall a: nat {:trigger Holds(rows, a)} :: a < n ==> Holds(rows, a)
    ensures |rows| >= n
  {
    var at := map a: nat | a in Sets.Below(n) :: First(rows, a);
    Sets.InjectionCard(Sets.Below(n), Sets.Below(|rows|), at);
  }

  ghost function First(rows: seq<Row>, a: nat): (i: nat)
    ensures Holds(rows, a) ==> i < |rows| && rows[i].addr == a
  {
    if Holds(rows, a) then var i :| 0 <= i < |rows| && rows[i].addr == a; i else 0
  }

  /** Whether growing on demand would sort 2^32 rows or more. */
  ghost predicate GrowOverflows(s: State)
    requires StateShaped(s)
  {
    !s.hadInitial && NextPow2(|EverythingIn(s)|, 1) >= TWO32
  }

  /** Growing on demand keeps the memory from every reachable state: it is refused only where nothing was
      ever stored, not even a stash, and fails only when the sort is too long. */
  lemma GrowOnDemandOk(s: State, newCfg: Config, m: Memory, o: Oracle)
    requires Inv(s) && Represents(s, m) && Good(o) && newCfg.Valid()
    ensures StateShaped(s)
    ensures var g := GrowOnDemand(s, newCfg, o);
      if newCfg.logN != s.cfg.logN + 1 || Blank(s) then g.Refused?
      else if GrowOverflows(s) then g.Crash?
      else GrownTo(s, newCfg, m, g)
  {
    EverythingFacts(s, m);
    if newCfg.logN == s.cfg.logN + 1 && !Blank(s) {
      var rows := EverythingIn(s);
      var perm := o.shuffle(s.built, |rows|);
      assert IsPerm(perm, |rows|);
      if s.hadInitial {
        forall a: nat | a < s.cfg.N() ensures Holds(rows, a) { assert Located(s, a); }
        AllNeedRoom(rows, s.cfg.N());
      }
      if !GrowOverflows(s) { GrowRows(s, newCfg, m, rows, perm, o); }
      hide *;
    }
  }

  lemma LevelLeftSize(s: State, l: nat)
    requires Shape(s) && LevelsOk(s) && l < s.cfg.numLevels && s.levels[l].Some?
    ensures LevelShaped(s.levels[l]) && |UntouchedRows(s.levels[l].value)| <= 2 * s.cfg.NumElementsAt(l, s.digits[l])
  {
    var d := s.digits[l];
    assert LevelOk(s, l);
    assert s.levels[l].Some? <==> d != 0;
    assert s.cfg.Valid() && (l == s.cfg.Bottom() ==> d == 1);
    hide Pow2, Power, UntouchedRows, Shape, LevelsOk;
    LeftSize(s.levels[l].value);
    ManyElements(s.cfg, l, d);
  }

  lemma LeftSize(t: Table)
    requires TableInv(t)
    ensures |t.xs| == |t.ys| == |t.touched| && |UntouchedRows(t)| <= t.params.numElements + t.params.numDummies
  {
    ExtractFacts(t);
  }

  /** A live level has at least as many elements as dummies. */
  lemma ManyElements(cfg: Config, l: nat, d: nat)
    requires cfg.Valid() && l < cfg.numLevels && d >= 1 && (l == cfg.Bottom() ==> d == 1)
    ensures cfg.NumDummies(l) <= cfg.NumElementsAt(l, d)
  {
    hide *;
    Sizes.ElementsUnit(cfg, l, d);
    Sizes.LevelUnit(cfg, l);
    Sizes.DummiesAre(cfg, l);
    var p, unit := Power(cfg.Amp(), l), Pow2(l * cfg.logAmp + cfg.logS);
    DummiesFew(p, cfg.Fill(), cfg.S(), unit, d);
  }

  lemma DummiesFew(p: nat, fill: nat, size: nat, unit: nat, d: nat)
    requires fill <= size && unit == p * size && d >= 1
    ensures p * fill <= d * unit
  {
    MulMono(fill, size, p);
    MulMono(1, d, unit);
    assert fill * p == p * fill && size * p == p * size;
  }

  lemma {:induction false} GatherAllSize(s: State, upto: nat)
    requires Shape(s) && LevelsOk(s) && upto <= s.cfg.numLevels && StateShaped(s)
    ensures |GatherAll(s.levels, upto)| <= 2 * RowCount(s, upto)
  {
    hide *;
    ShapeSizes(s);
    if upto > 0 {
      GatherAllSize(s, upto - 1);
      GatherAllNext(s.levels, upto - 1);
      RowCountNext(s, upto - 1);
      if s.levels[upto - 1].Some? { LevelLeftSize(s, upto - 1); }
    }
  }

  lemma ShapeSizes(s: State)
    requires StateShaped(s)
    ensures |s.levels| == |s.digits| == s.cfg.numLevels && LevelsShaped(s.levels)
    ensures |GatherAll(s.levels, 0)| == RowCount(s, 0) == 0
  {
  }

  lemma GatherAllNext(levels: seq<Option<Table>>, l: nat)
    requires l < |levels| && LevelsShaped(levels)
    ensures levels[l].Some? ==> LevelShaped(levels[l]) && |GatherAll(levels, l + 1)| == |GatherAll(levels, l)| + |UntouchedRows(levels[l].value)|
    ensures levels[l].None? ==> |GatherAll(levels, l + 1)| == |GatherAll(levels, l)|
  {
  }

  lemma RowCountNext(s: State, l: nat)
    requires l < |s.levels| == |s.digits|
    ensures RowCount(s, l + 1) == RowCount(s, l) + (if s.levels[l].Some? then s.cfg.NumElementsAt(l, s.digits[l]) else 0)
  {
  }

  lemma EverythingSize(s: State)
    requires Shape(s) && LevelsOk(s) && StateShaped(s)
    ensures |EverythingIn(s)| <= 4 * s.cfg.N()
  {
    var b, p, size := s.cfg.Bottom(), Power(s.cfg.Amp(), s.cfg.Bottom()), s.cfg.S();
    var low := LowSum(s.digits, s.cfg.Amp(), b);
    GatherAllSize(s, s.cfg.numLevels);
    RowCountSum(s, b);
    Accessing.LowSumBound(s.cfg, s.digits, b);
    Sizes.SpaceUnit(s.cfg);
    RowCountLast(s);
    hide LevelsOk, Pow2, Power, LowSum, GatherAll, RowCount, LevelOk, LevelsShaped;
    LowFits(low, p, size);
  }

  lemma LowFits(low: nat, p: nat, size: nat)
    requires low < p
    ensures low * size + size <= p * size
  {
    MulMono(low + 1, p, size);
    assert (low + 1) * size == low * size + size;
  }

  lemma RowCountLast(s: State)
    requires Shape(s)
    ensures RowCount(s, s.cfg.numLevels) <= RowCount(s, s.cfg.Bottom()) + s.cfg.N()
  {
    hide Pow2;
  }

  lemma {:induction false} NextPow2Below(n: nat, k: nat, j: nat)
    requires j <= k && n <= Pow2(k)
    ensures NextPow2(n, Pow2(j)) <= Pow2(k)
    decreases k - j
  {
    Pow2Mono(j, k);
    if Pow2(j) < n {
      assert j < k;
      NextPow2Below(n, k, j + 1);
    }
  }

  /** Up to 2^29 addresses, growing on demand never sorts too many rows. */
  lemma SmallGrows(s: State)
    requires Inv(s) && s.cfg.logN <= 29
    ensures StateShaped(s) && !GrowOverflows(s)
  {
    ShapesOk(s);
    EverythingSize(s);
    var k := s.cfg.logN + 2;
    assert Pow2(0) == 1 && Pow2(k) == 4 * s.cfg.N() && Pow2(k + 1) == 2 * Pow2(k);
    hide Inv, Pow2, EverythingIn;
    NextPow2Below(|EverythingIn(s)|, k, 0);
    Pow2Mono(k + 1, 32);
    Sizes.Pow2At32();
  }

  /** A reachable state that cannot grow on demand, although it represents a memory like any other. */
  lemma BlankRefused(cfg: Config, newCfg: Config, o: Oracle)
    requires cfg == Config(2, 2, 1, 1, 0, Empirical) && newCfg == Config(3, 2, 2, 1, 0, Empirical) && Good(o)
    ensures cfg.Valid() && newCfg.Valid() && newCfg.logN == cfg.logN + 1
    ensures New(cfg).Ok? && Inv(New(cfg).value) && GrowOnDemand(New(cfg).value, newCfg, o).Refused?
  {
    hide Inv, Represents, New, Blank, GrowOnDemand, Good, Pow2;
    NewOk(cfg);
    NewIsBlank(cfg);
    BlankRefusedAny(New(cfg).value, newCfg, map[], o);
  }

  lemma NewIsBlank(cfg: Config)
    requires cfg.Valid() && cfg.stash == 0
    ensures New(cfg).Ok? && Blank(New(cfg).value)
  {
  }

  lemma BlankRefusedAny(s: State, newCfg: Config, m: Memory, o: Oracle)
    requires Inv(s) && Represents(s, m) && Good(o) && newCfg.Valid() && Blank(s)
    ensures GrowOnDemand(s, newCfg, o).Refused?
  {
    GrowOnDemandOk(s, newCfg, m, o);
    hide *;
  }
}
