/** What the calls alone determine: how full the cache is, how many rebuilds there were, and what follows from that. */
module Clocks {
  import opened Arithmetic
  import opened Words
  import opened Tables
  import opened Doram
  import opened Invariants
  import opened Collect
  import opened Rebuilding
  import opened Refinement
  import opened Growing
  import opened Odometers
  import Accessing
  import Sizes

  /** The public part of a state: rows in the cache, rebuilds since it was created or last grown, and whether
      there is a bottom level. */
  datatype Clock = Clock(cfg: Config, stored: nat, rebuilds: nat, bottomLive: bool, hadInitial: bool)

  ghost function ClockOf(s: State): (c: Clock)
    requires |s.digits| == s.cfg.numLevels > 0
    ensures c.cfg == s.cfg && c.stored == s.cache.numStored && c.hadInitial == s.hadInitial
  {
    Clock(s.cfg, s.cache.numStored, s.rebuilds, s.digits[s.cfg.Bottom()] != 0, s.hadInitial)
  }

  /** The next rebuild goes to the bottom. */
  predicate LastTurn(c: Clock)
    requires c.cfg.numLevels > 0
  {
    c.rebuilds % Power(c.cfg.Amp(), c.cfg.Bottom()) == Power(c.cfg.Amp(), c.cfg.Bottom()) - 1
  }

  predicate AtBoundary(c: Clock)
    requires c.cfg.numLevels > 0
  {
    c.stored >= c.cfg.S() && LastTurn(c)
  }

  /** The next access has to sort 2^32 rows. */
  predicate SortFails(c: Clock)
    requires c.cfg.numLevels > 0
  {
    AtBoundary(c) && !c.hadInitial && c.bottomLive && c.cfg.logN == 31
  }

  /** After one access. */
  function Tick(c: Clock): (d: Clock)
    requires c.cfg.numLevels > 0
    ensures d.cfg == c.cfg && d.hadInitial == c.hadInitial
  {
    if c.stored >= c.cfg.S() then c.(stored := c.cfg.stash + 1, rebuilds := c.rebuilds + 1, bottomLive := c.bottomLive || LastTurn(c))
    else c.(stored := c.stored + 1)
  }

  function Ticks(c: Clock, n: nat): (d: Clock)
    requires c.cfg.numLevels > 0
    ensures d.cfg == c.cfg && d.hadInitial == c.hadInitial
    decreases n
  {
    if n == 0 then c else Ticks(Tick(c), n - 1)
  }

  /** None of the next `n` accesses has to sort 2^32 rows. */
  predicate CanServe(c: Clock, n: nat)
    requires c.cfg.numLevels > 0
    decreases n
  {
    n == 0 || (!SortFails(c) && CanServe(Tick(c), n - 1))
  }

  // ------------------------------------------------------------- the boundary

  lemma {:induction false} LowSumShort(cfg: Config, digits: seq<nat>, k: nat, l: nat)
    requires k < l <= cfg.Bottom() && |digits| == cfg.numLevels && digits[k] + 1 < cfg.Amp()
    requires forall j {:trigger digits[j]} :: 0 <= j < cfg.Bottom() ==> digits[j] < cfg.Amp()
    ensures LowSum(digits, cfg.Amp(), l) < Power(cfg.Amp(), l) - 1
  {
    var amp := cfg.Amp();
    var d, p, low := digits[l - 1], Power(amp, l - 1), LowSum(digits, amp, l - 1);
    NextPower(amp, l - 1);
    NextSum(digits, amp, l);
    Accessing.LowSumBound(cfg, digits, l - 1);
    hide *;
    if k < l - 1 {
      LowSumShort(cfg, digits, k, l - 1);
      DigitFits(low + 1, d, p, amp);
    } else {
      ShortTop(low, d, p, amp);
    }
  }

  lemma ShortTop(low: nat, d: nat, p: nat, amp: nat)
    requires low < p && d + 1 < amp
    ensures low + d * p < amp * p - 1
  {
    DigitFits(low, d + 1, p, amp);
    assert (d + 1) * p == d * p + p;
  }

  /** The rebuild target is the bottom exactly on the last turn. */
  lemma TurnIs(s: State)
    requires Inv(s)
    ensures |s.levels| == |s.digits| == s.cfg.numLevels > 0
    ensures TargetFrom(s.cfg, s.digits, 0) == s.cfg.Bottom() <==> LastTurn(ClockOf(s))
  {
    var b, amp, t := s.cfg.Bottom(), s.cfg.Amp(), TargetFrom(s.cfg, s.digits, 0);
    TargetOk(s, t);
    DigitBounds(s);
    hide Inv, TargetFrom, LowSum, Power;
    if t == b {
      Sizes.LowSumFull(s.digits, amp, b);
    } else {
      LowSumShort(s.cfg, s.digits, t, b);
    }
  }

  lemma DigitBounds(s: State)
    requires Inv(s)
    ensures |s.levels| == |s.digits| == s.cfg.numLevels > 0 && s.cfg.Amp() >= 1
    ensures forall j {:trigger s.digits[j]} :: 0 <= j < s.cfg.Bottom() ==> s.digits[j] < s.cfg.Amp()
    ensures LowSum(s.digits, s.cfg.Amp(), s.cfg.Bottom()) == s.rebuilds % Power(s.cfg.Amp(), s.cfg.Bottom())
    ensures s.levels[s.cfg.Bottom()].Some? <==> s.digits[s.cfg.Bottom()] != 0
    ensures s.digits[s.cfg.Bottom()] <= 1 && s.cache.numStored <= s.cfg.S() == |s.cache.addrs| && s.cfg.stash < s.cfg.S()
  {
  }

  lemma SortFailsIs(s: State)
    requires Inv(s)
    ensures |s.levels| == |s.digits| == s.cfg.numLevels > 0
    ensures Full(s) && SortOverflows(s) <==> SortFails(ClockOf(s))
  {
    TurnIs(s);
    DigitBounds(s);
    hide Inv, TargetFrom, Power;
  }

  lemma ReadyIs(s: State)
    requires Inv(s)
    ensures |s.levels| == |s.digits| == s.cfg.numLevels > 0
    ensures ReadyToGrow(s) <==> AtBoundary(ClockOf(s))
  {
    TurnIs(s);
    DigitBounds(s);
    hide Inv, TargetFrom, Power;
  }

  /** An access moves the clock on by one tick. */
  lemma AccessTicks(s: State, m: Memory, x: nat, write: Option<nat>, o: Oracle)
    requires Inv(s) && Represents(s, m) && x < s.cfg.N() && Good(o)
    ensures s.cache.Shaped() && |s.levels| == |s.digits| == s.cfg.numLevels > 0
    ensures Access(s, x, write, o).Ok? <==> !SortFails(ClockOf(s))
    ensures !Access(s, x, write, o).Ok? ==> Access(s, x, write, o).Crash?
    ensures Access(s, x, write, o).Ok? ==>
      var (s1, value) := Access(s, x, write, o).value;
      && value == Get(m, x) && Inv(s1) && Represents(s1, m[x := if write.Some? then write.value else value])
      && |s1.digits| == s1.cfg.numLevels > 0 && ClockOf(s1) == Tick(ClockOf(s)) && s1.cfg == s.cfg
  {
    hide *;
    DigitBounds(s);
    AccessOk(s, m, x, write, o);
    SortFailsIs(s);
    TurnIs(s);
    AccessCrashes(s, m, x, write, o);
    if Access(s, x, write, o).Ok? {
      var s1 := Access(s, x, write, o).value.0;
      DigitBounds(s1);
      TickIs(s, s1);
    }
  }

  /** What an access does to the counters is a tick. */
  lemma TickIs(s: State, s1: State)
    requires s.cache.Shaped() && |s.levels| == |s.digits| == |s1.digits| == s.cfg.numLevels > 0 && s1.cfg == s.cfg && s1.hadInitial == s.hadInitial
    requires |s.cache.addrs| == s.cfg.S()
    requires TargetFrom(s.cfg, s.digits, 0) == s.cfg.Bottom() <==> LastTurn(ClockOf(s))
    requires s1.rebuilds == if Full(s) then s.rebuilds + 1 else s.rebuilds
    requires s1.cache.numStored == (if Full(s) then s.cfg.stash else s.cache.numStored) + 1
    requires if Full(s) then BottomKept(s, s1) else s1.digits == s.digits
    ensures ClockOf(s1) == Tick(ClockOf(s))
  {
    hide LastTurn, TargetFrom, Pow2;
  }

  lemma AccessCrashes(s: State, m: Memory, x: nat, write: Option<nat>, o: Oracle)
    requires Inv(s) && Represents(s, m) && x < s.cfg.N() && Good(o)
    ensures s.cache.Shaped() && !Access(s, x, write, o).Refused?
  {
    Accessing.InvParts(s);
    if Full(s) { RebuildOutcome(s, m, o); }
    if MakeRoom(s, o).Ok? {
      if Full(s) { RebuildOk(s, m, o); }
      Accessing.AccessNowOk(MakeRoom(s, o).value, m, x, write);
    }
    hide Inv, Represents, Rebuild, AccessNow;
  }

  lemma RebuildOutcome(s: State, m: Memory, o: Oracle)
    requires Inv(s) && Represents(s, m) && s.cache.numStored == s.cfg.S() && Good(o)
    ensures !Rebuild(s, o).Refused?
  {
    RebuildOk(s, m, o);
    var r := TargetFrom(s.cfg, s.digits, 0);
    var rows := PreparedOk(s, m, o, r);
    if SortOverflows(s) { RebuildCrashes(s, o, r, rows); }
    hide Inv, Represents, Rebuild, Collected, Prepared;
  }

  // ------------------------------------------------------ the levels' digits

  /** The digits are the rebuild count written in base `amp`, and the bottom's. */
  function Digits(c: Clock): (digits: seq<nat>)
    requires c.cfg.numLevels > 0
    ensures |digits| == c.cfg.numLevels
  {
    seq(c.cfg.numLevels, l requires 0 <= l < c.cfg.numLevels =>
      if l < c.cfg.Bottom() then (c.rebuilds / Power(c.cfg.Amp(), l)) % c.cfg.Amp() else if c.bottomLive then 1 else 0)
  }

  lemma DigitsAre(s: State)
    requires Inv(s)
    ensures |s.digits| == s.cfg.numLevels > 0 && s.digits == Digits(ClockOf(s))
  {
    DigitBounds(s);
    var c := ClockOf(s);
    forall l: nat | l < s.cfg.numLevels ensures s.digits[l] == Digits(c)[l] {
      if l < s.cfg.Bottom() { DigitsCountRebuilds(s, l); }
    }
    hide Inv, Power;
  }

  /** The hierarchy has neither a row nor a level. */
  predicate BlankAt(c: Clock)
    requires c.cfg.numLevels > 0
  {
    c.stored == 0 && !c.bottomLive && c.rebuilds % Power(c.cfg.Amp(), c.cfg.Bottom()) == 0
  }

  lemma {:induction false} LowSumNull(digits: seq<nat>, amp: nat, l: nat)
    requires l <= |digits| && amp >= 1
    ensures LowSum(digits, amp, l) == 0 <==> forall j {:trigger digits[j]} :: 0 <= j < l ==> digits[j] == 0
  {
    if l > 0 {
      LowSumNull(digits, amp, l - 1);
      var d, p := digits[l - 1], Power(amp, l - 1);
      assert d * p == 0 <==> d == 0 by { if d > 0 { MulMono(1, d, p); } }
    }
  }

  lemma BlankIs(s: State)
    requires Inv(s)
    ensures |s.levels| == |s.digits| == s.cfg.numLevels > 0
    ensures Blank(s) <==> BlankAt(ClockOf(s))
  {
    DigitBounds(s);
    LowSumNull(s.digits, s.cfg.Amp(), s.cfg.Bottom());
    LiveDigits(s);
    hide Inv, LowSum, Power;
  }

  lemma LiveDigits(s: State)
    requires Inv(s)
    ensures |s.levels| == |s.digits| == s.cfg.numLevels
    ensures forall l {:trigger s.levels[l]} {:trigger s.digits[l]} :: 0 <= l < s.cfg.numLevels ==> (s.levels[l].Some? <==> s.digits[l] != 0)
  {
  }

  // ----------------------------------------------- how much growing collects

  /** The untouched slots of level `l`. */
  function LeftAt(c: Clock, l: nat): int
    requires l < c.cfg.numLevels
  {
    if Digits(c)[l] == 0 then 0
    else c.cfg.NumElementsAt(l, Digits(c)[l]) + c.cfg.NumDummies(l) - c.cfg.Fill() * LowSum(Digits(c), c.cfg.Amp(), l) - c.stored
  }

  function LeftBelow(c: Clock, upto: nat): int
    requires upto <= c.cfg.numLevels
  {
    if upto == 0 then 0 else LeftBelow(c, upto - 1) + LeftAt(c, upto - 1)
  }

  /** The rows that growing on demand collects. */
  function CollectedRows(c: Clock): int
    requires c.cfg.numLevels > 0
  {
    c.stored + LeftBelow(c, c.cfg.numLevels)
  }

  predicate GrowFails(c: Clock)
    requires c.cfg.numLevels > 0
  {
    !c.hadInitial && CollectedRows(c) > Pow2(31)
  }

  lemma LeftIs(s: State, l: nat)
    requires Inv(s) && l < s.cfg.numLevels && s.levels[l].Some?
    ensures |s.digits| == s.cfg.numLevels > 0 && LevelShaped(s.levels[l])
    ensures |UntouchedRows(s.levels[l].value)| == LeftAt(ClockOf(s), l)
  {
    DigitsAre(s);
    LiveDigits(s);
    assert LevelOk(s, l);
    ExtractFacts(s.levels[l].value);
    hide Inv, TableInv, UntouchedRows, Digits;
  }

  lemma {:induction false} GatheredIs(s: State, upto: nat)
    requires Inv(s) && upto <= s.cfg.numLevels && StateShaped(s)
    ensures |s.digits| == s.cfg.numLevels > 0 && |GatherAll(s.levels, upto)| == LeftBelow(ClockOf(s), upto)
  {
    hide *;
    DigitBounds(s);
    ShapeSizes(s);
    NoneLeft(ClockOf(s));
    if upto > 0 {
      GatheredIs(s, upto - 1);
      GatherAllNext(s.levels, upto - 1);
      LeftNext(ClockOf(s), upto - 1);
      if s.levels[upto - 1].Some? { LeftIs(s, upto - 1); } else { EmptyLeft(s, upto - 1); }
    }
  }

  lemma NoneLeft(c: Clock)
    ensures LeftBelow(c, 0) == 0
  {
  }

  lemma LeftNext(c: Clock, l: nat)
    requires l < c.cfg.numLevels
    ensures LeftBelow(c, l + 1) == LeftBelow(c, l) + LeftAt(c, l)
  {
  }

  lemma EmptyLeft(s: State, l: nat)
    requires Inv(s) && l < |s.levels| && s.levels[l].None?
    ensures |s.digits| == s.cfg.numLevels > l && LeftAt(ClockOf(s), l) == 0
  {
    DigitsAre(s);
    LiveDigits(s);
    hide Inv, Digits;
  }

  /** What growing on demand collects, counted by the clock. */
  lemma CollectedIs(s: State)
    requires Inv(s)
    ensures StateShaped(s) && |s.digits| == s.cfg.numLevels > 0
    ensures |EverythingIn(s)| == CollectedRows(ClockOf(s))
  {
    ShapesOk(s);
    DigitBounds(s);
    ShapeSizes(s);
    GatheredIs(s, s.cfg.numLevels);
    hide Inv, GatherAll, LeftBelow;
  }

  lemma {:induction false} NextPow2Is(n: nat, k: nat, j: nat)
    requires j <= k
    ensures NextPow2(n, Pow2(j)) > Pow2(k) <==> n > Pow2(k)
    decreases k - j
  {
    Pow2Mono(j, k);
    if n <= Pow2(k) {
      NextPow2Below(n, k, j);
    } else {
      NextPow2Above(n, Pow2(j));
    }
  }

  lemma {:induction false} NextPow2Power(n: nat, j: nat) returns (e: nat)
    ensures NextPow2(n, Pow2(j)) == Pow2(e) && e >= j
    decreases n - Pow2(j)
  {
    if Pow2(j) >= n { e := j; } else { e := NextPow2Power(n, j + 1); }
  }

  /** Rounding up to a power of two reaches 2^32 exactly beyond 2^31. */
  lemma RoundsUp(n: nat)
    ensures NextPow2(n, 1) >= TWO32 <==> n > Pow2(31)
  {
    NextPow2Is(n, 31, 0);
    var e := NextPow2Power(n, 0);
    Sizes.Pow2At32();
    NextTo(e);
    hide NextPow2, Pow2;
  }

  lemma NextTo(e: nat)
    ensures Pow2(0) == 1 && (Pow2(e) > Pow2(31) <==> Pow2(e) >= Pow2(32))
  {
    if e <= 31 { Pow2Mono(e, 31); Pow2Mono(31, 32); } else { Pow2Mono(32, e); }
    assert Pow2(32) == 2 * Pow2(31);
    hide *;
  }

  lemma GrowFailsIs(s: State)
    requires Inv(s)
    ensures StateShaped(s) && |s.digits| == s.cfg.numLevels > 0
    ensures GrowOverflows(s) <==> GrowFails(ClockOf(s))
  {
    CollectedIs(s);
    RoundsUp(|EverythingIn(s)|);
    hide Inv, EverythingIn, NextPow2, Pow2, CollectedRows;
  }
}
