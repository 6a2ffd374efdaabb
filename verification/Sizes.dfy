/** The arithmetic of the hierarchy: the odometer, table sizes and dummy budgets. */
module Sizes {
  import opened Arithmetic
  import opened Words
  import opened Tables
  import opened Caches
  import opened Doram
  import opened Invariants
  import opened Accessing

  lemma {:induction false} PowerPow2(k: nat, e: nat)
    ensures Power(Pow2(k), e) == Pow2(e * k)
  {
    if e > 0 {
      PowerPow2(k, e - 1);
      assert e * k == (e - 1) * k + k;
      Pow2Add((e - 1) * k, k);
    }
  }

  /** A level's unit: `amp^l` caches. */
  lemma LevelUnit(cfg: Config, l: nat)
    ensures Pow2(l * cfg.logAmp + cfg.logS) == Power(cfg.Amp(), l) * cfg.S()
  {
    PowerPow2(cfg.logAmp, l);
    Pow2Add(l * cfg.logAmp, cfg.logS);
  }

  /** The address space is `amp^(L-1)` caches. */
  lemma SpaceUnit(cfg: Config)
    requires cfg.Valid()
    ensures cfg.N() == Power(cfg.Amp(), cfg.Bottom()) * cfg.S()
  {
    LevelUnit(cfg, cfg.Bottom());
  }

  lemma TargetFacts(cfg: Config, digits: seq<nat>, r: nat)
    requires |digits| == cfg.numLevels > 0 && r <= cfg.Bottom()
    ensures var t := TargetFrom(cfg, digits, r);
      && (forall k {:trigger digits[k]} :: r <= k < t ==> digits[k] >= cfg.Amp() - 1)
      && (t < cfg.Bottom() ==> digits[t] < cfg.Amp() - 1)
    decreases cfg.numLevels - r
  {
    if r < cfg.Bottom() && digits[r] >= cfg.Amp() - 1 { TargetFacts(cfg, digits, r + 1); }
  }

  /** Digits that are all at their maximum sum to one less than the next power. */
  lemma {:induction false} LowSumFull(digits: seq<nat>, amp: nat, l: nat)
    requires l <= |digits| && amp >= 1 && forall k {:trigger digits[k]} :: 0 <= k < l ==> digits[k] == amp - 1
    ensures LowSum(digits, amp, l) == Power(amp, l) - 1
  {
    if l > 0 {
      LowSumFull(digits, amp, l - 1);
      var p := Power(amp, l - 1);
      assert (amp - 1) * p == amp * p - p;
    }
  }

  lemma {:induction false} LowSumZero(digits: seq<nat>, amp: nat, l: nat)
    requires l <= |digits| && forall k {:trigger digits[k]} :: 0 <= k < l ==> digits[k] == 0
    ensures LowSum(digits, amp, l) == 0
  {
    if l > 0 { LowSumZero(digits, amp, l - 1); }
  }

  lemma {:induction false} LowSumSame(a: seq<nat>, b: seq<nat>, amp: nat, l: nat)
    requires l <= |a| && l <= |b| && forall k {:trigger a[k]} :: 0 <= k < l ==> a[k] == b[k]
    ensures LowSum(a, amp, l) == LowSum(b, amp, l)
  {
    if l > 0 { LowSumSame(a, b, amp, l - 1); }
  }

  /** A rebuild into `r` carries: the digits below fall from their maximum to 0 and digit `r` rises by one. */
  ghost predicate Carried(before: seq<nat>, after: seq<nat>, amp: nat, r: nat) {
    && r < |before| == |after|
    && (forall k {:trigger before[k]} {:trigger after[k]} :: 0 <= k < r ==> before[k] == amp - 1 && after[k] == 0)
    && after[r] == before[r] + 1
    && (forall k {:trigger after[k]} :: r < k < |before| ==> after[k] == before[k])
  }

  lemma {:induction false} CarrySum(before: seq<nat>, after: seq<nat>, amp: nat, r: nat, l: nat)
    requires amp >= 1 && Carried(before, after, amp, r) && r < l <= |before|
    ensures LowSum(after, amp, l) == LowSum(before, amp, l) + 1
  {
    if l == r + 1 {
      LowSumFull(before, amp, r);
      LowSumZero(after, amp, r);
      assert (before[r] + 1) * Power(amp, r) == before[r] * Power(amp, r) + Power(amp, r);
    } else {
      CarrySum(before, after, amp, r, l - 1);
    }
  }

  /** When the cache is full, a level below which all digits are at their maximum has spent its dummies exactly. */
  lemma BudgetSpent(s: State, l: nat)
    requires Shape(s) && s.cache.numStored == s.cfg.S() && l < s.cfg.numLevels
    requires forall k {:trigger s.digits[k]} :: 0 <= k < l ==> s.digits[k] == s.cfg.Amp() - 1
    ensures Spent(s, l) == s.cfg.NumDummies(l)
  {
    LowSumFull(s.digits, s.cfg.Amp(), l);
    SpentArith(s.cfg.Fill(), Power(s.cfg.Amp(), l));
  }

  lemma SpentArith(f: nat, p: nat)
    requires p >= 1
    ensures f * (p - 1) + f == p * f
  {
  }

  // --------------------------------------------------------------- capacity

  lemma {:induction false} Log2Bound(n: nat)
    requires n >= 1
    ensures Pow2(Log2(n)) <= n < 2 * Pow2(Log2(n))
  {
    if n > 1 { Log2Bound(n / 2); }
  }

  lemma UnitCapacity(u: nat, b: nat, q: nat, fill: nat, s: nat, unit: nat)
    requires b + 1 <= 2 * q && fill <= s && unit == u * s
    ensures b * unit + u * fill <= 2 * (unit * (2 * q))
  {
    assert u * fill <= unit by { MulMono(fill, s, u); assert s * u == u * s && fill * u == u * fill; }
    assert b * unit + unit == (b + 1) * unit;
    MulMono(b + 1, 2 * q, unit);
    assert 2 * q * unit == unit * (2 * q);
  }

  /** A column is the level's unit times twice the power of two below the load factor times the digit. */
  lemma ColumnUnit(cfg: Config, l: nat, b: nat)
    requires cfg.LoadFloor(b) >= 1
    ensures var q := Pow2(Log2(cfg.LoadFloor(b)));
      && Pow2(cfg.LogCol(l, b)) == Pow2(l * cfg.logAmp + cfg.logS) * (2 * q)
      && cfg.LoadFloor(b) < 2 * q
  {
    Log2Bound(cfg.LoadFloor(b));
    Pow2Add(l * cfg.logAmp + cfg.logS, Log2(cfg.LoadFloor(b)) + 1);
  }

  lemma ElementsUnit(cfg: Config, l: nat, b: nat)
    requires cfg.Valid() && l < cfg.numLevels && b >= 1 && (l == cfg.Bottom() ==> b == 1)
    ensures cfg.NumElementsAt(l, b) == b * Pow2(l * cfg.logAmp + cfg.logS)
    ensures cfg.stash <= cfg.NumElementsAt(l, b)
  {
    hide Pow2, Power, Log2;
    var e := l * cfg.logAmp + cfg.logS;
    ElementsAre(cfg, l, b);
    Pow2Mono(cfg.logS, e);
    MulMono(1, b, Pow2(e));
  }

  lemma ElementsAre(cfg: Config, l: nat, b: nat)
    requires cfg.Valid() && l < cfg.numLevels && (l == cfg.Bottom() ==> b == 1)
    ensures cfg.NumElementsAt(l, b) == b * Pow2(l * cfg.logAmp + cfg.logS)
    ensures cfg.stash < cfg.S() == Pow2(cfg.logS)
  {
    hide Pow2, Power;
    if l == cfg.Bottom() { SameExponent(cfg, l); }
  }

  lemma SameExponent(cfg: Config, l: nat)
    requires cfg.Valid() && l == cfg.Bottom()
    ensures l * cfg.logAmp + cfg.logS == cfg.logN
  {
  }

  /** Every table the hierarchy builds fits its two columns, and each column alone has room for the
      load factor times the elements. */
  lemma Capacity(cfg: Config, l: nat, b: nat)
    requires cfg.Valid() && l < cfg.numLevels && b >= 1 && (l == cfg.Bottom() ==> b == 1)
    ensures cfg.TableParams(l, cfg.NumElementsAt(l, b), b).Valid()
    ensures cfg.LoadFloor(b) * Pow2(l * cfg.logAmp + cfg.logS) < Pow2(cfg.LogCol(l, b))
  {
    hide *;
    LoadAtLeast(cfg, b);
    var u, s, q, unit := Power(cfg.Amp(), l), cfg.S(), Pow2(Log2(cfg.LoadFloor(b))), Pow2(l * cfg.logAmp + cfg.logS);
    LevelUnit(cfg, l);
    ColumnUnit(cfg, l, b);
    ElementsUnit(cfg, l, b);
    DummiesAre(cfg, l);
    UnitCapacity(u, b, q, cfg.Fill(), s, unit);
    StrictMul(cfg.LoadFloor(b), 2 * q, unit);
    ParamsValid(cfg, l, b);
  }

  lemma LoadAtLeast(cfg: Config, b: nat)
    requires b >= 1
    ensures 1 <= b <= cfg.LoadFloor(b)
  {
  }

  lemma DummiesAre(cfg: Config, l: nat)
    ensures cfg.NumDummies(l) == Power(cfg.Amp(), l) * cfg.Fill() && cfg.Fill() <= cfg.S()
  {
    hide Pow2, Power;
  }

  lemma ParamsValid(cfg: Config, l: nat, b: nat)
    requires cfg.stash <= cfg.NumElementsAt(l, b) && cfg.NumElementsAt(l, b) + cfg.NumDummies(l) <= 2 * Pow2(cfg.LogCol(l, b))
    ensures cfg.TableParams(l, cfg.NumElementsAt(l, b), b).Valid()
  {
    hide Pow2, Power, Log2;
  }

  lemma StrictMul(a: nat, b: nat, c: nat)
    requires a < b && c >= 1
    ensures a * c < c * b
  {
    MulMono(a + 1, b, c);
    assert (a + 1) * c == a * c + c && b * c == c * b;
  }

  lemma SpaceFits(cfg: Config)
    requires cfg.Valid()
    ensures 2 * cfg.N() <= TWO32
  {
    Pow2Mono(cfg.logN + 1, 32);
    assert Pow2(32) == TWO32 by { Pow2At32(); }
  }

  lemma Pow2At32()
    ensures Pow2(32) == TWO32
  {
    Pow2Add(16, 16);
    Pow2Add(8, 8);
    assert Pow2(8) == 256;
  }
}
