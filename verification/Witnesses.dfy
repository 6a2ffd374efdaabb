/** Reachable states in which the two exceptional conditions hold: the sorts of 2^32 rows do happen. */
module Witnesses {
  import opened Words
  import opened Tables
  import opened Doram
  import opened Invariants
  import opened Rebuilding
  import opened Refinement
  import opened Batching
  import opened Growing
  import opened Clocks
  import opened Runs
  import opened Odometers

  function Reading(n: nat): (calls: seq<Call>)
    ensures |calls| == n
  {
    seq(n, _ => Read(0))
  }

  /** Reading `n` times is `n` ticks. */
  lemma {:induction false} ReadingTicks(sp: Spec, n: nat)
    requires sp.Valid() && CanServe(sp.clock, n)
    ensures AllLegal(sp, Reading(n)) && SpecRun(sp, Reading(n)).Ok?
    ensures SpecRun(sp, Reading(n)).value.0.clock == Ticks(sp.clock, n)
    decreases n
  {
    if n > 0 {
      assert Reading(n)[0] == Read(0) && Reading(n)[1..] == Reading(n - 1);
      ReadingTicks(SpecStep(sp, Read(0)).value.0, n - 1);
    }
    hide SortFails;
  }

  lemma {:induction false} TicksFill(c: Clock, n: nat)
    requires c.cfg.numLevels > 0 && c.stored + n <= c.cfg.S()
    ensures CanServe(c, n) && Ticks(c, n) == c.(stored := c.stored + n)
    decreases n
  {
    if n > 0 { TicksFill(Tick(c), n - 1); }
    hide LastTurn;
  }

  lemma {:induction false} TicksJoin(c: Clock, a: nat, b: nat)
    requires c.cfg.numLevels > 0
    ensures CanServe(c, a + b) <==> CanServe(c, a) && CanServe(Ticks(c, a), b)
    ensures Ticks(c, a + b) == Ticks(Ticks(c, a), b)
    decreases a
  {
    if a > 0 { TicksJoin(Tick(c), a - 1, b); }
    hide Tick, SortFails;
  }

  /** A hierarchy of 2^31 addresses and a single level. */
  predicate Largest(cfg: Config) { cfg.Valid() && cfg.logN == 31 && cfg.numLevels == 1 }

  lemma LargestExists()
    ensures Largest(Config(31, 1, 31, 0, 0, Empirical))
  {
    hide Pow2;
  }

  /** Its cache fills twice before the rebuild that sorts 2^32 rows. */
  function TwoFills(cfg: Config): nat { cfg.Fill() + cfg.Fill() }

  lemma LargestTicks(cfg: Config)
    requires Largest(cfg)
    ensures NewSpec(cfg).Valid() && CanServe(NewSpec(cfg).clock, TwoFills(cfg)) && SortFails(Ticks(NewSpec(cfg).clock, TwoFills(cfg)))
  {
    hide Pow2, Power;
    var c, n := NewSpec(cfg).clock, cfg.Fill();
    AlwaysLast(c);
    TicksFill(c, n);
    var full := c.(stored := cfg.S());
    AlwaysLast(full);
    var next := Tick(full);
    assert next == c.(stored := cfg.stash + 1, rebuilds := 1, bottomLive := true);
    TicksFill(next, n - 1);
    AlwaysLast(Ticks(next, n - 1));
    assert Ticks(full, n) == Ticks(next, n - 1) && CanServe(full, n);
    TicksJoin(c, n, n);
  }

  /** With a single level every rebuild goes to the bottom. */
  lemma AlwaysLast(c: Clock)
    requires c.cfg.numLevels == 1
    ensures LastTurn(c)
  {
    assert Power(c.cfg.Amp(), 0) == 1;
    assert c.rebuilds % 1 == 0;
    hide Power;
  }

  /** After those reads of a new hierarchy the next access fails. */
  lemma SortReached(cfg: Config, o: Oracle)
    requires Largest(cfg) && Good(o)
    ensures New(cfg).Ok? && Run(New(cfg).value, Reading(TwoFills(cfg)), o).Ok?
    ensures var s := Run(New(cfg).value, Reading(TwoFills(cfg)), o).value.0;
      && Inv(s) && s.cache.Shaped() && |s.levels| == |s.digits| == s.cfg.numLevels > 0 && Full(s) && SortOverflows(s)
      && forall write :: Access(s, 0, write, o).Crash?
  {
    hide *;
    LargestTicks(cfg);
    var sp, n := NewSpec(cfg), TwoFills(cfg);
    ReadingTicks(sp, n);
    LargestValid(cfg);
    NewRefinesMap(cfg, Reading(n), o);
    var s, sp1 := Run(New(cfg).value, Reading(n), o).value.0, SpecRun(sp, Reading(n)).value.0;
    StandsParts(s, sp1);
    SortFailsIs(s);
    SomeAddress(s.cfg);
    forall write ensures Access(s, 0, write, o).Crash? { AccessTicks(s, sp1.memory, 0, write, o); }
  }

  lemma LargestValid(cfg: Config)
    requires Largest(cfg)
    ensures cfg.Valid() && Legal(NewSpec(cfg).clock, Read(0))
  {
  }

  lemma SomeAddress(cfg: Config)
    ensures 0 < cfg.N()
  {
  }

  // ------------------------------------------------------ growing on demand

  /** Two levels, the smallest cache, no stash. */
  predicate TwoLevels(cfg: Config) { cfg.Valid() && cfg.numLevels == 2 && cfg.logS == 1 && cfg.stash == 0 && cfg.logAmp >= 1 }

  predicate Ladder(small: Config, middle: Config, large: Config) {
    TwoLevels(small) && TwoLevels(middle) && large.Valid() && small.logN == 29 && middle.logN == 30 && large.logN == 31
  }

  lemma LadderExists()
    ensures Ladder(Config(29, 2, 1, 28, 0, Empirical), Config(30, 2, 1, 29, 0, Empirical), Config(31, 2, 1, 30, 0, Empirical))
  {
    assert Pow2(1) == 2 by { assert Pow2(0) == 1; }
    hide Pow2;
  }

  /** Growing on demand, with three reads after it. */
  function GrowingOnce(middle: Config): (calls: seq<Call>) { [Write(0, 1), OnDemand(middle), Read(0), Read(0), Read(0)] }

  /** The clock after those calls: one row in the cache, one level and the bottom. */
  function GrownClock(middle: Config): Clock { Clock(middle, 1, 1, true, false) }

  lemma TwoSizes(cfg: Config)
    requires TwoLevels(cfg)
    ensures cfg.S() == 2 && cfg.Fill() == 2 && cfg.Amp() >= 2 && cfg.Bottom() == 1 && cfg.N() == 2 * cfg.Amp()
    ensures Power(cfg.Amp(), 0) == 1 && Power(cfg.Amp(), 1) == cfg.Amp()
    ensures cfg.NumElementsAt(0, 1) == 2 && cfg.NumElementsAt(1, 1) == cfg.N()
    ensures cfg.NumDummies(0) == 2 && cfg.NumDummies(1) == cfg.N()
  {
    assert Pow2(0) == 1 && Pow2(1) == 2 * Pow2(0) && Pow2(cfg.logAmp) == 2 * Pow2(cfg.logAmp - 1);
    assert cfg.logN == cfg.logAmp + 1 && Pow2(cfg.logN) == 2 * Pow2(cfg.logN - 1);
    assert Power(cfg.Amp(), 1) == cfg.Amp() * Power(cfg.Amp(), 0);
    hide Pow2, Power;
  }

  /** The first of two digits turns over after `amp` rebuilds. */
  lemma EarlyTurns(c: Clock)
    requires TwoLevels(c.cfg) && c.rebuilds == 0
    ensures !LastTurn(c) && (BlankAt(c) <==> c.stored == 0 && !c.bottomLive)
  {
    hide Pow2, Power;
    TwoSizes(c.cfg);
    SmallMod(0, c.cfg.Amp());
  }

  lemma {:induction false} OnceTicks(small: Config, middle: Config)
    requires TwoLevels(small) && TwoLevels(middle) && middle.logN == small.logN + 1 && small.logN == 29
    ensures NewSpec(small).Valid() && AllLegal(NewSpec(small), GrowingOnce(middle)) && SpecRun(NewSpec(small), GrowingOnce(middle)).Ok?
    ensures SpecRun(NewSpec(small), GrowingOnce(middle)).value.0.clock == GrownClock(middle)
  {
    hide Pow2, Power, LastTurn, CollectedRows, BlankAt, GrowFails;
    TwoSizes(small);
    TwoSizes(middle);
    var calls, sp0 := GrowingOnce(middle), NewSpec(small);
    EarlyTurns(Clock(small, 1, 0, false, false));
    FewRows(Clock(small, 1, 0, false, false));
    EarlyTurns(Clock(middle, 2, 0, true, false));
    var w := SpecStep(sp0, Write(0, 1));
    assert w.Ok? && w.value.0.clock == Clock(small, 1, 0, false, false);
    var g := SpecStep(w.value.0, OnDemand(middle));
    assert g.Ok? && g.value.0.clock == Clock(middle, 0, 0, true, false);
    var a := SpecStep(g.value.0, Read(0));
    assert a.Ok? && a.value.0.clock == Clock(middle, 1, 0, true, false);
    var b := SpecStep(a.value.0, Read(0));
    assert b.Ok? && b.value.0.clock == Clock(middle, 2, 0, true, false);
    var d := SpecStep(b.value.0, Read(0));
    assert d.Ok? && d.value.0.clock == GrownClock(middle);
    hide SpecStep;
    assert calls[1..] == [OnDemand(middle), Read(0), Read(0), Read(0)];
    assert calls[1..][1..] == [Read(0), Read(0), Read(0)];
    OneCall(d.value.0, []);
    OneCall(b.value.0, [Read(0)]);
    OneCall(a.value.0, [Read(0), Read(0)]);
    OneCall(g.value.0, [Read(0), Read(0), Read(0)]);
    OneCall(w.value.0, calls[1..]);
    OneCall(sp0, calls);
  }

  /** Unfolding a run by one answered call. */
  lemma OneCall(sp: Spec, calls: seq<Call>)
    requires sp.Valid()
    ensures calls == [] ==> AllLegal(sp, calls) && SpecRun(sp, calls).Ok? && SpecRun(sp, calls).value.0 == sp
    ensures calls != [] && Legal(sp.clock, calls[0]) && SpecStep(sp, calls[0]).Ok? ==>
      var next := SpecStep(sp, calls[0]).value.0;
      && (AllLegal(sp, calls) <==> AllLegal(next, calls[1..]))
      && (SpecRun(sp, calls).Ok? <==> SpecRun(next, calls[1..]).Ok?)
      && (SpecRun(sp, calls).Ok? ==> SpecRun(sp, calls).value.0 == SpecRun(next, calls[1..]).value.0)
  {
    hide Legal, SpecStep;
  }

  lemma LeftTwo(c: Clock)
    requires c.cfg.numLevels == 2
    ensures CollectedRows(c) == c.stored + LeftAt(c, 0) + LeftAt(c, 1)
  {
    hide LeftAt;
    assert LeftBelow(c, 2) == LeftBelow(c, 1) + LeftAt(c, 1) && LeftBelow(c, 1) == LeftBelow(c, 0) + LeftAt(c, 0);
  }

  /** A hierarchy without levels has nothing but its cache to collect. */
  lemma FewRows(c: Clock)
    requires TwoLevels(c.cfg) && c.stored == 1 && c.rebuilds == 0 && !c.bottomLive
    ensures !GrowFails(c)
  {
    hide *;
    FirstDigits(c);
    TwoLevelsIs(c.cfg);
    NoneAt(c, 0);
    NoneAt(c, 1);
    LeftTwo(c);
    FitsIf(c);
  }

  /** The digits of so few rebuilds. */
  lemma FirstDigits(c: Clock)
    requires TwoLevels(c.cfg) && c.rebuilds < 2
    ensures c.cfg.numLevels == 2 && Digits(c) == [c.rebuilds, if c.bottomLive then 1 else 0]
  {
    TwoSizes(c.cfg);
    SmallMod(c.rebuilds, c.cfg.Amp());
    hide Pow2, Power, TwoLevels;
    assert c.rebuilds / Power(c.cfg.Amp(), 0) == c.rebuilds;
    assert Digits(c)[0] == c.rebuilds && Digits(c)[1] == if c.bottomLive then 1 else 0;
  }

  lemma SmallMod(r: nat, a: nat)
    requires r < a
    ensures r % a == r
  {
  }

  lemma FitsIf(c: Clock)
    requires c.cfg.numLevels > 0 && CollectedRows(c) <= 1
    ensures !GrowFails(c)
  {
    hide Pow2, CollectedRows;
  }

  lemma NoneAt(c: Clock, l: nat)
    requires l < c.cfg.numLevels && Digits(c)[l] == 0
    ensures LeftAt(c, l) == 0
  {
  }

  /** After them, growing once more would sort more than 2^31 rows. */
  lemma OnceRows(c: Clock)
    requires TwoLevels(c.cfg) && c.stored == 1 && c.rebuilds == 1 && c.bottomLive
    ensures CollectedRows(c) == 2 * c.cfg.N() + 1
  {
    hide Pow2, Power, Digits, CollectedRows;
    TwoSizes(c.cfg);
    FirstDigits(c);
    LowSumOne(c.cfg.Amp());
    assert LeftAt(c, 0) == 3;
    assert LeftAt(c, 1) == c.cfg.N() + c.cfg.N() - 3;
    LeftTwo(c);
  }

  lemma LowSumOne(amp: nat)
    ensures LowSum([1, 1], amp, 0) == 0 && LowSum([1, 1], amp, 1) == 1
  {
    assert Power(amp, 0) == 1;
  }

  lemma TwoLevelsIs(cfg: Config)
    requires TwoLevels(cfg)
    ensures cfg.numLevels == 2
  {
  }

  lemma TooMany(middle: Config)
    requires TwoLevels(middle) && middle.logN == 30
    ensures GrowFails(GrownClock(middle)) && !BlankAt(GrownClock(middle))
  {
    hide Pow2, Power;
    OnceRows(GrownClock(middle));
    DoubledSpace(middle);
    hide CollectedRows;
  }

  lemma DoubledSpace(cfg: Config)
    requires cfg.logN == 30
    ensures 2 * cfg.N() == Pow2(31)
  {
    var k := cfg.logN + 1;
    assert Pow2(k) == 2 * Pow2(k - 1);
    hide Pow2;
  }

  /** A short run, within the smallest cache, after which growing on demand fails. */
  lemma GrowReached(small: Config, middle: Config, large: Config, o: Oracle)
    requires Ladder(small, middle, large) && Good(o)
    ensures New(small).Ok? && Run(New(small).value, GrowingOnce(middle), o).Ok?
    ensures var s := Run(New(small).value, GrowingOnce(middle), o).value.0;
      && Inv(s) && s.cache.Shaped() && StateShaped(s) && GrowOverflows(s)
      && large.logN == s.cfg.logN + 1 && GrowOnDemand(s, large, o).Crash?
  {
    hide *;
    LadderParts(small, middle, large);
    OnceTicks(small, middle);
    TooMany(middle);
    NewRefinesMap(small, GrowingOnce(middle), o);
    var s, sp := Run(New(small).value, GrowingOnce(middle), o).value.0, SpecRun(NewSpec(small), GrowingOnce(middle)).value.0;
    StandsParts(s, sp);
    GrowFailsIs(s);
    BlankIs(s);
    GrownIs(middle);
    GrowOnDemandOk(s, large, sp.memory, o);
  }

  lemma LadderParts(small: Config, middle: Config, large: Config)
    requires Ladder(small, middle, large)
    ensures TwoLevels(small) && TwoLevels(middle) && small.Valid() && large.Valid()
    ensures small.logN == 29 && middle.logN == 30 && large.logN == 31
  {
  }

  lemma GrownIs(middle: Config)
    ensures GrownClock(middle).cfg == middle
  {
  }
}
