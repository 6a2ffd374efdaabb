/** What a rebuild collects and prepares: every live copy of the emptied levels, once, and nothing else real. */
module Collect {
  import opened Arithmetic
  import opened Words
  import opened Tables
  import opened Caches
  import opened Doram
  import opened Invariants
  import opened Rows
  import Sizes

  ghost predicate IsCached(c: Cache, a: nat) {
    exists i :: CachedAt(c, i, a)
  }

  /** All digits below level `l` are at their maximum. */
  ghost predicate MaxBelow(s: State, l: nat)
    requires l <= |s.digits|
  {
    forall k {:trigger s.digits[k]} :: 0 <= k < l ==> s.digits[k] == s.cfg.Amp() - 1
  }

  function RowCount(s: State, upto: nat): nat
    requires upto <= |s.levels| == |s.digits|
  {
    if upto == 0 then 0
    else RowCount(s, upto - 1) + (if s.levels[upto - 1].Some? then s.cfg.NumElementsAt(upto - 1, s.digits[upto - 1]) else 0)
  }

  lemma ShapesOk(s: State)
    requires Shape(s) && LevelsOk(s)
    ensures StateShaped(s)
  {
    forall l {:trigger s.levels[l]} | 0 <= l < |s.levels| ensures LevelShaped(s.levels[l]) {
      assert LevelOk(s, l);
    }
  }

  /** The padded rows of one spent level: its live addresses, each once. */
  lemma LevelRows(s: State, m: Memory, l: nat)
    requires Inv(s) && Represents(s, m) && s.cache.numStored == s.cfg.S()
    requires l < s.cfg.numLevels && s.levels[l].Some? && MaxBelow(s, l)
    ensures LevelShaped(s.levels[l]) && Extract(s.levels[l].value).Ok?
    ensures var padded := PadTo(Extract(s.levels[l].value).value, s.cfg.NumElementsAt(l, s.digits[l]), s.cfg.N());
      && padded.Ok? && Faithful(padded.value, s.cfg.N(), m)
      && forall a: nat {:trigger Holds(padded.value, a)} :: a < s.cfg.N() ==> (Holds(padded.value, a) <==> LiveAt(s.levels, l, a))
  {
    var t, n := s.levels[l].value, s.cfg.N();
    assert LevelOk(s, l);
    Sizes.BudgetSpent(s, l);
    ExtractFacts(t);
    var rows := UntouchedRows(t);
    forall i | 0 <= i < |rows| && rows[i].addr < n ensures rows[i].rec.value == Get(m, rows[i].addr) {
      assert LiveAt(s.levels, l, rows[i].addr);
    }
    PadKeeps(rows, s.cfg.NumElementsAt(l, s.digits[l]) - |rows|, n, m);
    forall a: nat | a < n ensures Holds(rows, a) <==> LiveAt(s.levels, l, a) {
      if Holds(rows, a) { var i :| 0 <= i < |rows| && rows[i].addr == a; }
    }
  }

  lemma {:induction false} GatherFacts(s: State, m: Memory, upto: nat)
    requires Inv(s) && Represents(s, m) && s.cache.numStored == s.cfg.S()
    requires upto <= s.cfg.numLevels && (upto > 0 ==> MaxBelow(s, upto - 1))
    ensures StateShaped(s)
    ensures var r := Gather(s.cfg, s.levels, s.digits, upto);
      && r.Ok? && |r.value| == RowCount(s, upto) && Faithful(r.value, s.cfg.N(), m)
      && forall a: nat {:trigger Holds(r.value, a)} :: a < s.cfg.N() ==> (Holds(r.value, a) <==> LiveBelow(s.levels, a, upto))
  {
    ShapesOk(s);
    if upto > 0 {
      var l, n := upto - 1, s.cfg.N();
      GatherFacts(s, m, l);
      var before := Gather(s.cfg, s.levels, s.digits, l).value;
      forall a: nat ensures LiveBelow(s.levels, a, upto) <==> LiveBelow(s.levels, a, l) || LiveAt(s.levels, l, a) {
        LiveBelowNext(s.levels, a, l);
      }
      if s.levels[l].Some? {
        LevelRows(s, m, l);
        var own := PadTo(Extract(s.levels[l].value).value, s.cfg.NumElementsAt(l, s.digits[l]), n).value;
        forall a: nat | a < n && Holds(before, a) ensures !Holds(own, a) {
          var k :| k < l && LiveAt(s.levels, k, a);
        }
        FaithfulConcat(before, own, n, m);
        forall a: nat | a < n ensures Holds(before + own, a) <==> LiveBelow(s.levels, a, upto) {
          HoldsConcat(before, own, a);
        }
      }
    }
  }

  lemma LiveBelowNext(levels: seq<Option<Table>>, a: nat, l: nat)
    ensures LiveBelow(levels, a, l + 1) <==> LiveBelow(levels, a, l) || LiveAt(levels, l, a)
  {
    if LiveBelow(levels, a, l) { var k :| k < l && LiveAt(levels, k, a); assert k < l + 1; }
  }

  lemma CacheRows(s: State, m: Memory)
    requires Inv(s) && Represents(s, m)
    ensures s.cache.Shaped() && Faithful(StoredRows(s.cache), s.cfg.N(), m)
    ensures forall a: nat {:trigger Holds(StoredRows(s.cache), a)} :: Holds(StoredRows(s.cache), a) <==> IsCached(s.cache, a)
  {
    var rows, n := StoredRows(s.cache), s.cfg.N();
    forall i, j | 0 <= i < j < |rows| && rows[i].addr < n ensures rows[i].addr != rows[j].addr {
      assert CachedAt(s.cache, i, rows[i].addr) && (CachedAt(s.cache, j, rows[j].addr));
    }
    forall i | 0 <= i < |rows| && rows[i].addr < n ensures rows[i].rec.value == Get(m, rows[i].addr) {
      assert CachedAt(s.cache, i, rows[i].addr);
    }
    forall a: nat ensures Holds(rows, a) <==> IsCached(s.cache, a) {
      if Holds(rows, a) { var i :| 0 <= i < |rows| && rows[i].addr == a; assert CachedAt(s.cache, i, a); }
      if IsCached(s.cache, a) { var i :| CachedAt(s.cache, i, a); assert rows[i].addr == a; }
    }
  }

  /** `rows` are the real copies of the cache and of the levels below `last`, with the map's values. */
  ghost predicate Collects(s: State, m: Memory, rows: seq<Row>, last: nat) {
    && Faithful(rows, s.cfg.N(), m) && NoAlibi(rows)
    && forall a: nat {:trigger Holds(rows, a)} :: a < s.cfg.N() ==> (Holds(rows, a) <==> IsCached(s.cache, a) || LiveBelow(s.levels, a, last))
  }

  lemma CollectedFacts(s: State, m: Memory, last: nat)
    requires Inv(s) && Represents(s, m) && s.cache.numStored == s.cfg.S()
    requires last <= s.cfg.numLevels && (last > 0 ==> MaxBelow(s, last - 1))
    ensures StateShaped(s)
    ensures var r := Collected(s, last);
      r.Ok? && |r.value| == s.cfg.S() + RowCount(s, last) && Collects(s, m, r.value, last)
  {
    var n := s.cfg.N();
    GatherFacts(s, m, last);
    CacheRows(s, m);
    var mine, below := StoredRows(s.cache), Gather(s.cfg, s.levels, s.digits, last).value;
    forall a: nat | a < n && Holds(mine, a) ensures !Holds(below, a) {
      var i :| CachedAt(s.cache, i, a);
      forall k ensures !LiveAt(s.levels, k, a) {}
    }
    FaithfulConcat(mine, below, n, m);
    ClearKeeps(mine + below, n, m);
    forall a: nat | a < n ensures Holds(ClearAlibis(mine + below), a) <==> IsCached(s.cache, a) || LiveBelow(s.levels, a, last) {
      HoldsConcat(mine, below, a);
    }
  }

  /** The collected levels below the bottom amount to the low digits times the cache size. */
  lemma {:induction false} RowCountSum(s: State, upto: nat)
    requires Shape(s) && upto <= s.cfg.Bottom()
    ensures RowCount(s, upto) == LowSum(s.digits, s.cfg.Amp(), upto) * s.cfg.S()
  {
    if upto > 0 {
      var l := upto - 1;
      RowCountSum(s, l);
      Sizes.LevelUnit(s.cfg, l);
      assert s.levels[l].Some? <==> s.digits[l] != 0;
      AddUnit(LowSum(s.digits, s.cfg.Amp(), l), s.digits[l], Power(s.cfg.Amp(), l), s.cfg.S());
    }
  }

  lemma AddUnit(low: nat, d: nat, p: nat, size: nat)
    ensures low * size + d * (p * size) == (low + d * p) * size
  {
    assert d * (p * size) == (d * p) * size;
  }

  /** A rebuild into a level above the bottom assembles one unit more than the level's digit. */
  lemma CollectedSize(s: State, r: nat)
    requires Shape(s) && r < s.cfg.Bottom() && MaxBelow(s, r)
    ensures s.cfg.S() + RowCount(s, r + 1) == s.cfg.NumElementsAt(r, s.digits[r] + 1)
    ensures s.levels[r].None? ==> s.cfg.S() + RowCount(s, r) == s.cfg.NumElementsAt(r, s.digits[r] + 1)
  {
    RowCountSum(s, r + 1);
    Sizes.LowSumFull(s.digits, s.cfg.Amp(), r);
    Sizes.LevelUnit(s.cfg, r);
    UnitSum(s.cfg.S(), Power(s.cfg.Amp(), r), s.digits[r]);
    assert s.levels[r].Some? <==> s.digits[r] != 0;
  }

  lemma UnitSum(size: nat, p: nat, d: nat)
    requires p >= 1
    ensures size + ((p - 1) + d * p) * size == (d + 1) * (p * size)
  {
    assert ((p - 1) + d * p) * size == ((d + 1) * p - 1) * size by { assert (d + 1) * p == d * p + p; }
    assert ((d + 1) * p - 1) * size == ((d + 1) * p) * size - size;
    assert ((d + 1) * p) * size == (d + 1) * (p * size);
  }

  /** A rebuild into the bottom assembles the address space once, or twice with the old bottom. */
  lemma CollectedBottomSize(s: State)
    requires Shape(s) && MaxBelow(s, s.cfg.Bottom())
    ensures s.cfg.S() + RowCount(s, s.cfg.Bottom()) == s.cfg.N()
    ensures s.cfg.S() + RowCount(s, s.cfg.numLevels) == if s.levels[s.cfg.Bottom()].Some? then 2 * s.cfg.N() else s.cfg.N()
  {
    var b := s.cfg.Bottom();
    RowCountSum(s, b);
    Sizes.LowSumFull(s.digits, s.cfg.Amp(), b);
    Sizes.SpaceUnit(s.cfg);
    assert (Power(s.cfg.Amp(), b) - 1) * s.cfg.S() == Power(s.cfg.Amp(), b) * s.cfg.S() - s.cfg.S();
  }

  // ---------------------------------------------------------------- preparing

  lemma {:induction false} NextPow2Exact(k: nat, j: nat)
    requires j <= k
    ensures NextPow2(Pow2(k), Pow2(j)) == Pow2(k)
    decreases k - j
  {
    if j < k {
      Pow2Mono(j + 1, k);
      NextPow2Exact(k, j + 1);
    }
  }

  /** The rows a table can be built on: distinct addresses, no alibis, the collected real rows. */
  ghost predicate Buildable(s: State, m: Memory, rows: seq<Row>, ready: seq<Row>, size: nat) {
    && DistinctAddrs(ready) && NoAlibi(ready) && |ready| == size
    && Faithful(ready, s.cfg.N(), m) && SameReal(rows, ready, s.cfg.N())
  }

  lemma PreparedMiddle(s: State, m: Memory, r: nat, rows: seq<Row>, last: nat, o: Oracle)
    requires Inv(s) && r < s.cfg.Bottom() && StateShaped(s) && Collects(s, m, rows, last)
    requires |rows| == s.cfg.NumElementsAt(r, s.digits[r] + 1) && s.digits[r] + 1 < s.cfg.Amp() && rows != []
    ensures var p := Prepared(s, r, rows, o);
      p.Ok? && Buildable(s, m, rows, p.value, s.cfg.NumElementsAt(r, s.digits[r] + 1))
  {
    MiddleSmall(s.cfg, r, s.digits[r] + 1);
    Sizes.SpaceFits(s.cfg);
    RelabelKeeps(rows, s.cfg.logN, m);
  }

  lemma Commute(a: nat, b: nat)
    ensures a * b == b * a
  {
  }

  /** Below the bottom a table never has more elements than there are addresses. */
  lemma MiddleSmall(cfg: Config, r: nat, d: nat)
    requires cfg.Valid() && r < cfg.Bottom() && d <= cfg.Amp()
    ensures cfg.NumElementsAt(r, d) <= cfg.N()
  {
    var unit := r * cfg.logAmp + cfg.logS;
    hide Pow2;
    MulMono(d, cfg.Amp(), Pow2(unit));
    Pow2Add(unit, cfg.logAmp);
    assert unit + cfg.logAmp == (r + 1) * cfg.logAmp + cfg.logS;
    MulMono(r + 1, cfg.Bottom(), cfg.logAmp);
    Pow2Mono(unit + cfg.logAmp, cfg.logN);
    Commute(cfg.Amp(), Pow2(unit));
  }

  /** The sorted bottom: padding, stable partition, cut and relabelling keep the real rows. */
  lemma FinalizeSorted(cfg: Config, rows: seq<Row>, m: Memory, perm: Perm)
    requires cfg.Valid() && Faithful(rows, cfg.N(), m) && NoAlibi(rows) && NextPow2(|rows|, 1) < TWO32
    ensures var r := Finalize(cfg, false, rows, perm);
      && r.Ok? && DistinctAddrs(r.value) && NoAlibi(r.value) && Faithful(r.value, cfg.N(), m) && SameReal(rows, r.value, cfg.N())
      && |r.value| <= cfg.N() && (|rows| >= cfg.N() ==> |r.value| == cfg.N())
  {
    NextPow2Above(|rows|, 1);
    hide *;
    FinalizeIs(cfg, rows, perm);
    SortedCut(cfg, rows, m);
    RelabelCut(cfg, rows, Cut(cfg, rows), m);
  }

  /** The padded rows, sorted and cut to the address space. */
  ghost function Cut(cfg: Config, rows: seq<Row>): (cut: seq<Row>)
    requires |rows| <= NextPow2(|rows|, 1)
  {
    var sorted := StablePartition(rows + DummyRows(NextPow2(|rows|, 1) - |rows|, cfg.N()), cfg.logN);
    if |sorted| <= cfg.N() then sorted else sorted[..cfg.N()]
  }

  lemma SortedCut(cfg: Config, rows: seq<Row>, m: Memory)
    requires Faithful(rows, cfg.N(), m) && NoAlibi(rows) && |rows| <= NextPow2(|rows|, 1)
    ensures var cut := Cut(cfg, rows);
      && Faithful(cut, cfg.N(), m) && NoAlibi(cut) && SameReal(rows, cut, cfg.N())
      && |cut| <= cfg.N() && (|rows| >= cfg.N() ==> |cut| == cfg.N())
  {
    var n, k := cfg.N(), NextPow2(|rows|, 1) - |rows|;
    PaddedNoAlibi(rows, k, n);
    SpaceIs(cfg);
    hide Faithful, SameReal, NoAlibi, StablePartition, NextPow2, Pow2, DummyRows;
    PadKeeps(rows, k, n, m);
    CutKeeps(rows + DummyRows(k, n), cfg.logN, m);
    SameRealTrans(rows, rows + DummyRows(k, n), Cut(cfg, rows), n);
  }

  lemma SpaceIs(cfg: Config)
    ensures cfg.N() == Pow2(cfg.logN)
  {
  }

  lemma RelabelCut(cfg: Config, rows: seq<Row>, cut: seq<Row>, m: Memory)
    requires cfg.Valid() && Faithful(cut, cfg.N(), m) && NoAlibi(cut) && |cut| <= cfg.N() && SameReal(rows, cut, cfg.N())
    ensures var r := Relabel(cut, cfg.logN, cfg.N());
      && r.Ok? && |r.value| == |cut| && DistinctAddrs(r.value) && NoAlibi(r.value) && Faithful(r.value, cfg.N(), m) && SameReal(rows, r.value, cfg.N())
  {
    Sizes.SpaceFits(cfg);
    hide Faithful, SameReal, NoAlibi, DistinctAddrs, Relabel, Pow2;
    RelabelKeeps(cut, cfg.logN, m);
    SameRealTrans(rows, cut, Relabel(cut, cfg.logN, cfg.N()).value, cfg.N());
  }

  lemma FinalizeIs(cfg: Config, rows: seq<Row>, perm: Perm)
    requires NextPow2(|rows|, 1) < TWO32 && |rows| <= NextPow2(|rows|, 1)
    ensures Finalize(cfg, false, rows, perm) == Relabel(Cut(cfg, rows), cfg.logN, cfg.N())
  {
    hide StablePartition, Relabel, NextPow2, Pow2;
  }

  lemma PaddedNoAlibi(rows: seq<Row>, k: nat, n: nat)
    requires NoAlibi(rows)
    ensures NoAlibi(rows + DummyRows(k, n))
  {
  }

  lemma {:induction false} NextPow2Above(n: nat, p: nat)
    requires p >= 1
    ensures NextPow2(n, p) >= n
    decreases n - p
  {
    if p < n { NextPow2Above(n, 2 * p); }
  }

  /** The filtered bottom: with every address present exactly the address space remains. */
  lemma FinalizeFiltered(cfg: Config, rows: seq<Row>, m: Memory, perm: Perm)
    requires cfg.Valid() && Faithful(rows, cfg.N(), m) && NoAlibi(rows) && IsPerm(perm, |rows|) && |rows| >= cfg.N()
    requires forall a: nat {:trigger Holds(rows, a)} :: a < cfg.N() ==> Holds(rows, a)
    ensures var r := Finalize(cfg, true, rows, perm);
      && r.Ok? && DistinctAddrs(r.value) && NoAlibi(r.value) && Faithful(r.value, cfg.N(), m) && SameReal(rows, r.value, cfg.N())
      && |r.value| == cfg.N() && forall i {:trigger r.value[i]} :: 0 <= i < |r.value| ==> r.value[i].addr < cfg.N()
  {
    ShuffleKeeps(rows, perm, cfg.N(), m);
    var shuffled := Shuffled(rows, perm).value;
    SelectKeeps(shuffled, cfg.logN, false, m);
    var kept := Select(shuffled, cfg.logN, false);
    SameRealTrans(rows, shuffled, kept, cfg.N());
    CountReal(kept, cfg.N());
  }
}
