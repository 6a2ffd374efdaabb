/** A single access keeps the invariants and returns and updates the represented value. */
module Accessing {
  import opened Arithmetic
  import opened Words
  import opened Tables
  import opened Caches
  import opened Doram
  import opened Invariants

  /** The live levels from `l` on are well formed and have budget for one more query. */
  ghost predicate Ready(levels: seq<Option<Table>>, l: nat) {
    forall k: nat {:trigger levels[k]} :: l <= k < |levels| && levels[k].Some? ==>
      TableInv(levels[k].value) && levels[k].value.count < levels[k].value.params.numDummies
  }

  /** No live copy of `x` from level `l` on; a real query is made only where `x` was not asked for. */
  ghost predicate AbsentFrom(levels: seq<Option<Table>>, l: nat, x: nat, alibi: set<nat>) {
    forall k: nat {:trigger levels[k]} :: l <= k < |levels| && levels[k].Some? ==>
      !Live(levels[k].value, x) && (k in alibi ==> x !in levels[k].value.asked)
  }

  /** At most one live copy of `x` from level `l` on, and no level before it was asked for `x`. */
  ghost predicate PresentFrom(levels: seq<Option<Table>>, l: nat, x: nat) {
    && (forall k: nat, j: nat {:trigger LiveAt(levels, k, x), LiveAt(levels, j, x)} :: l <= k < j && LiveAt(levels, k, x) ==> !LiveAt(levels, j, x))
    && (forall k: nat {:trigger AskedAt(levels, k, x)} :: l <= k && AskedAt(levels, k, x) ==> LiveBetween(levels, l, k, x))
  }

  ghost predicate LiveBetween(levels: seq<Option<Table>>, l: nat, k: nat, x: nat) {
    exists j :: l <= j < k && LiveAt(levels, j, x)
  }

  lemma PresentNext(levels: seq<Option<Table>>, next: seq<Option<Table>>, l: nat, x: nat)
    requires PresentFrom(levels, l, x) && !LiveAt(levels, l, x)
    requires |next| == |levels| && forall k: nat {:trigger next[k]} :: l < k < |levels| ==> next[k] == levels[k]
    ensures PresentFrom(next, l + 1, x)
  {
    forall k: nat | l + 1 <= k ensures LiveAt(next, k, x) <==> LiveAt(levels, k, x) {}
    forall k: nat | l + 1 <= k && AskedAt(next, k, x) ensures LiveBetween(next, l + 1, k, x) {
      assert AskedAt(levels, k, x);
      var j :| l <= j < k && LiveAt(levels, j, x);
      assert LiveAt(next, j, x);
    }
    forall k: nat, j: nat | l + 1 <= k < j && LiveAt(next, k, x) ensures !LiveAt(next, j, x) {
      assert LiveAt(levels, k, x) && !LiveAt(levels, j, x);
    }
  }

  lemma AbsentNext(levels: seq<Option<Table>>, next: seq<Option<Table>>, l: nat, x: nat)
    requires PresentFrom(levels, l, x) && LiveAt(levels, l, x)
    requires |next| == |levels| && forall k: nat {:trigger next[k]} :: l < k < |levels| ==> next[k] == levels[k]
    ensures AbsentFrom(next, l + 1, x, {})
  {
    forall k: nat {:trigger next[k]} | l < k < |levels| && next[k].Some? ensures !Live(next[k].value, x) {
      assert !LiveAt(levels, k, x);
    }
  }

  /** Every level from `l` on answered one query for `x`, earlier ones none. */
  ghost predicate AskedFrom(levels: seq<Option<Table>>, after: seq<Option<Table>>, l: nat, x: nat) {
    && |after| == |levels|
    && (forall k: nat {:trigger after[k]} {:trigger levels[k]} :: k < |levels| ==>
          if k < l then after[k] == levels[k]
          else (after[k].Some? <==> levels[k].Some?)
               && (levels[k].Some? ==> Asked(levels[k].value, after[k].value, x) && !Live(after[k].value, x)))
  }

  ghost predicate LiveFrom(levels: seq<Option<Table>>, l: nat, x: nat) {
    exists k :: l <= k && LiveAt(levels, k, x)
  }

  lemma LiveFromNext(levels: seq<Option<Table>>, next: seq<Option<Table>>, l: nat, x: nat)
    requires !LiveAt(levels, l, x)
    requires |next| == |levels| && forall k: nat {:trigger next[k]} :: l < k < |levels| ==> next[k] == levels[k]
    ensures LiveFrom(levels, l, x) <==> LiveFrom(next, l + 1, x)
  {
    if LiveFrom(levels, l, x) {
      var k :| l <= k && LiveAt(levels, k, x);
      assert LiveAt(next, k, x);
    }
    if LiveFrom(next, l + 1, x) {
      var k :| l + 1 <= k && LiveAt(next, k, x);
      assert LiveAt(levels, k, x);
    }
  }

  /** Once the address is found, the remaining levels add nothing. */
  lemma {:induction false} QueryAbsent(levels: seq<Option<Table>>, l: nat, keys: seq<nat>, x: nat, acc: Record)
    requires Ready(levels, l) && keys == LiveKeys(levels, l) && AbsentFrom(levels, l, x, acc.alibi)
    ensures var r := QueryLevels(levels, l, keys, x, acc, true);
      r.Ok? && AskedFrom(levels, r.value.0, l, x) && r.value.1 == acc && r.value.2
    decreases |levels| - l
  {
    if l < |levels| {
      if levels[l].None? {
        QueryAbsent(levels, l + 1, keys, x, acc);
      } else {
        AbsentHere(levels, l, keys, x, acc);
        hide TableInv, Query, Ready, AbsentFrom, Asked, Live, XorRecord, AskedFrom, LiveKeys;
        var t := Query(levels[l].value, Tag(keys[0], x), l !in acc.alibi).value.0;
        var next := levels[l := Some(t)];
        QueryAbsent(next, l + 1, keys[1..], x, acc);
        AskedOneMore(levels, QueryLevels(next, l + 1, keys[1..], x, acc, true).value.0, l, x, t);
      }
    }
    hide Ready, AbsentFrom, Asked;
  }

  lemma AskedOneMore(levels: seq<Option<Table>>, after: seq<Option<Table>>, l: nat, x: nat, t: Table)
    requires l < |levels| && levels[l].Some? && Asked(levels[l].value, t, x) && !Live(t, x)
    requires AskedFrom(levels[l := Some(t)], after, l + 1, x)
    ensures AskedFrom(levels, after, l, x)
  {
    hide Asked, Live;
    var next := levels[l := Some(t)];
    forall k: nat {:trigger after[k]} {:trigger levels[k]} | k < |levels|
      ensures if k < l then after[k] == levels[k]
              else (after[k].Some? <==> levels[k].Some?) && (levels[k].Some? ==> Asked(levels[k].value, after[k].value, x) && !Live(after[k].value, x))
    {
      assert after[k].Some? <==> next[k].Some?;
    }
  }

  /** One live level without a live copy adds nothing. */
  lemma AbsentHere(levels: seq<Option<Table>>, l: nat, keys: seq<nat>, x: nat, acc: Record)
    requires l < |levels| && levels[l].Some?
    requires Ready(levels, l) && keys == LiveKeys(levels, l) && AbsentFrom(levels, l, x, acc.alibi)
    ensures keys != []
    ensures Query(levels[l].value, Tag(keys[0], x), l !in acc.alibi).Ok?
    ensures
      var (t, y, hit) := Query(levels[l].value, Tag(keys[0], x), l !in acc.alibi).value;
      var next := levels[l := Some(t)];
      && Asked(levels[l].value, t, x) && !Live(t, x) && !hit && XorRecord(acc, y) == acc
      && Ready(next, l + 1) && keys[1..] == LiveKeys(next, l + 1) && AbsentFrom(next, l + 1, x, acc.alibi)
  {
    var useDummy := l !in acc.alibi;
    QueryOk(levels[l].value, x, useDummy);
    XorZero(acc);
    KeysAfter(levels, l, Query(levels[l].value, Tag(levels[l].value.key, x), useDummy).value.0);
  }

  lemma {:induction false} KeysAfter(levels: seq<Option<Table>>, l: nat, t: Table)
    requires l < |levels| && levels[l].Some?
    ensures LiveKeys(levels, l) == [levels[l].value.key] + LiveKeys(levels[l := Some(t)], l + 1)
  {
    SameKeys(levels, levels[l := Some(t)], l + 1);
  }

  lemma {:induction false} SameKeys(levels: seq<Option<Table>>, after: seq<Option<Table>>, l: nat)
    requires |levels| == |after|
    requires forall k: nat {:trigger levels[k]} :: l <= k < |levels| ==>
      (levels[k].Some? <==> after[k].Some?) && (levels[k].Some? ==> levels[k].value.key == after[k].value.key)
    ensures LiveKeys(levels, l) == LiveKeys(after, l)
    decreases |levels| - l
  {
    if l < |levels| { SameKeys(levels, after, l + 1); }
  }

  lemma LiveValue(t: Table, x: nat)
    requires TableInv(t) && x in t.slots
    ensures LevelValue(t, x, ValueIn(t, x))
  {
    assert Slotted(t, x);
  }

  /** While it is not found, the first level with a live copy delivers the record, and without one
      the loop ends with the zero record. */
  lemma {:induction false} QueryPresent(levels: seq<Option<Table>>, l: nat, keys: seq<nat>, x: nat)
    requires Ready(levels, l) && keys == LiveKeys(levels, l) && PresentFrom(levels, l, x)
    ensures var r := QueryLevels(levels, l, keys, x, ZERO, false);
      && r.Ok? && AskedFrom(levels, r.value.0, l, x) && (r.value.2 <==> LiveFrom(levels, l, x))
      && (forall k: nat :: l <= k && LiveAt(levels, k, x) ==> LevelValue(levels[k].value, x, r.value.1.value))
      && (!LiveFrom(levels, l, x) ==> r.value.1 == ZERO)
    decreases |levels| - l
  {
    hide TableInv, Query, Live, Asked, XorRecord, PresentFrom, AbsentFrom, LiveBetween;
    if l < |levels| {
      if levels[l].None? {
        PresentNext(levels, levels, l, x);
        QueryPresent(levels, l + 1, keys, x);
      } else {
        QueryHere(levels, l, keys, x);
        var (t, y, hit) := Query(levels[l].value, Tag(keys[0], x), false).value;
        var next := levels[l := Some(t)];
        if hit {
          QueryAbsent(next, l + 1, keys[1..], x, y);
        } else {
          QueryPresent(next, l + 1, keys[1..], x);
        }
      }
    }
  }

  /** One live level: a hit delivers the record and leaves no copy behind, a miss adds nothing. */
  lemma QueryHere(levels: seq<Option<Table>>, l: nat, keys: seq<nat>, x: nat)
    requires l < |levels| && levels[l].Some?
    requires Ready(levels, l) && keys == LiveKeys(levels, l) && PresentFrom(levels, l, x)
    ensures keys != []
    ensures Query(levels[l].value, Tag(keys[0], x), false).Ok?
    ensures
      var (t, y, hit) := Query(levels[l].value, Tag(keys[0], x), false).value;
      var next := levels[l := Some(t)];
      && Asked(levels[l].value, t, x) && !Live(t, x) && (hit <==> LiveAt(levels, l, x))
      && Ready(next, l + 1) && keys[1..] == LiveKeys(next, l + 1) && XorRecord(ZERO, y) == y
      && (hit ==> y.alibi == {} && AbsentFrom(next, l + 1, x, {}) && LevelValue(levels[l].value, x, y.value))
      && (hit ==> forall k: nat {:trigger LiveAt(levels, k, x)} :: l < k ==> !LiveAt(levels, k, x))
      && (!hit ==> y == ZERO && PresentFrom(next, l + 1, x) && (LiveFrom(levels, l, x) <==> LiveFrom(next, l + 1, x)))
  {
    assert x !in levels[l].value.asked by {
      assert AskedAt(levels, l, x) ==> LiveBetween(levels, l, l, x);
    }
    QueryOk(levels[l].value, x, false);
    var (t, y, hit) := Query(levels[l].value, Tag(levels[l].value.key, x), false).value;
    XorZero(y);
    var next := levels[l := Some(t)];
    KeysAfter(levels, l, t);
    if hit {
      assert LiveAt(levels, l, x);
      AbsentNext(levels, next, l, x);
      LiveValue(levels[l].value, x);
    } else {
      PresentNext(levels, next, l, x);
      LiveFromNext(levels, next, l, x);
    }
  }

  // ------------------------------------------------------------- one access

  lemma LowSumNext(digits: seq<nat>, amp: nat, l: nat)
    requires 0 < l <= |digits|
    ensures LowSum(digits, amp, l) == LowSum(digits, amp, l - 1) + digits[l - 1] * Power(amp, l - 1)
    ensures Power(amp, l) == amp * Power(amp, l - 1)
  {
  }

  lemma {:induction false} LowSumBound(cfg: Config, digits: seq<nat>, l: nat)
    requires l <= |digits| == cfg.numLevels && l <= cfg.Bottom()
    requires forall k {:trigger digits[k]} :: 0 <= k < cfg.Bottom() ==> digits[k] < cfg.Amp()
    ensures LowSum(digits, cfg.Amp(), l) < Power(cfg.Amp(), l)
  {
    if l > 0 {
      LowSumBound(cfg, digits, l - 1);
      LowSumNext(digits, cfg.Amp(), l);
      hide LowSum, Power;
      DigitFits(LowSum(digits, cfg.Amp(), l - 1), digits[l - 1], Power(cfg.Amp(), l - 1), cfg.Amp());
    }
  }

  /** While the cache has room every live table has dummies left for one more query. */
  lemma BudgetLeft(s: State, l: nat)
    requires Shape(s) && s.cache.numStored < s.cfg.S() && l < s.cfg.numLevels
    ensures Spent(s, l) < s.cfg.NumDummies(l)
  {
    LowSumBound(s.cfg, s.digits, l);
    BudgetArith(s.cfg.Fill(), LowSum(s.digits, s.cfg.Amp(), l), Power(s.cfg.Amp(), l), s.cache.numStored - s.cfg.stash);
  }

  lemma BudgetArith(f: nat, low: nat, p: nat, extra: nat)
    requires low < p && extra < f
    ensures f * low + extra < p * f
  {
    MulMono(low + 1, p, f);
    assert f * low == low * f && (low + 1) * f == low * f + f;
  }

  lemma AllReady(s: State)
    requires Shape(s) && LevelsOk(s) && s.cache.numStored < s.cfg.S()
    ensures Ready(s.levels, 0)
  {
    forall k: nat | k < |s.levels| && s.levels[k].Some?
      ensures TableInv(s.levels[k].value) && s.levels[k].value.count < s.levels[k].value.params.numDummies
    {
      assert LevelOk(s, k);
      BudgetLeft(s, k);
    }
  }

  /** What one access changes: the old cache row of `x` becomes a dummy, a row for `x` is appended,
      and every live level has answered one query. */
  ghost predicate Stepped(s: State, s1: State, x: nat, v: nat) {
    && s1 == s.(cache := s1.cache, levels := s1.levels, queryKey := Some(LiveKeys(s.levels, 0)))
    && AskedFrom(s.levels, s1.levels, 0, x)
    && s.cache.Shaped() && s1.cache.Shaped() && |s1.cache.addrs| == |s.cache.addrs|
    && s1.cache.numStored == s.cache.numStored + 1
    && (forall i {:trigger s1.cache.addrs[i]} {:trigger s.cache.addrs[i]} :: 0 <= i < s.cache.numStored ==>
          s1.cache.addrs[i] == (if s.cache.addrs[i] == x then s.cfg.N() else s.cache.addrs[i]))
    && (forall i {:trigger s1.cache.data[i]} :: 0 <= i < s.cache.numStored ==> s1.cache.data[i] == s.cache.data[i])
    && s1.cache.addrs[s.cache.numStored] == x && s1.cache.data[s.cache.numStored] == Record(v, {})
  }

  /** The copies of an address after an access for `x`. */
  lemma CopiesAfter(s: State, s1: State, x: nat, v: nat, a: nat)
    requires Stepped(s, s1, x, v) && a < s.cfg.N()
    ensures forall i :: CachedAt(s1.cache, i, a) <==> if a == x then i == s.cache.numStored else CachedAt(s.cache, i, a)
    ensures forall l :: LiveAt(s1.levels, l, a) <==> a != x && LiveAt(s.levels, l, a)
    ensures forall l :: a != x ==> (AskedAt(s1.levels, l, a) <==> AskedAt(s.levels, l, a))
  {
    forall l ensures LiveAt(s1.levels, l, a) <==> a != x && LiveAt(s.levels, l, a) {
      if 0 <= l < |s.levels| { assert s1.levels[l].Some? <==> s.levels[l].Some?; }
    }
    forall l ensures a != x ==> (AskedAt(s1.levels, l, a) <==> AskedAt(s.levels, l, a)) {
      if 0 <= l < |s.levels| { assert s1.levels[l].Some? <==> s.levels[l].Some?; }
    }
  }

  lemma SteppedShape(s: State, s1: State, x: nat, v: nat)
    requires Inv(s) && Stepped(s, s1, x, v) && x < s.cfg.N()
    ensures Shape(s1) && LevelsOk(s1) && CacheOk(s1) && KeysOk(s1) && Odometer(s1)
  {
    forall l: nat | l < |s1.levels| ensures LevelOk(s1, l) && (s1.levels[l].Some? <==> s1.digits[l] != 0) {
      assert LevelOk(s, l) && (s.levels[l].Some? <==> s.digits[l] != 0);
    }
    SameKeys(s.levels, s1.levels, 0);
  }

  lemma SteppedUnique(s: State, s1: State, x: nat, v: nat)
    requires Inv(s) && Stepped(s, s1, x, v) && x < s.cfg.N()
    ensures Unique(s1)
  {
    forall a: nat, i, j | a < s.cfg.N() && CachedAt(s1.cache, i, a) && CachedAt(s1.cache, j, a) ensures i == j {
      CopiesAfter(s, s1, x, v, a);
      assert a != x ==> CachedAt(s.cache, i, a) && CachedAt(s.cache, j, a);
    }
    forall a: nat, i, l | a < s.cfg.N() && CachedAt(s1.cache, i, a) ensures !LiveAt(s1.levels, l, a) {
      CopiesAfter(s, s1, x, v, a);
      assert a != x ==> CachedAt(s.cache, i, a) && !LiveAt(s.levels, l, a);
    }
    forall a: nat, l, k | a < s.cfg.N() && LiveAt(s1.levels, l, a) && LiveAt(s1.levels, k, a) ensures l == k {
      CopiesAfter(s, s1, x, v, a);
      assert LiveAt(s.levels, l, a) && LiveAt(s.levels, k, a);
    }
  }

  lemma SteppedNoRepeats(s: State, s1: State, x: nat, v: nat)
    requires Inv(s) && Stepped(s, s1, x, v) && x < s.cfg.N()
    ensures NoRepeats(s1)
  {
    forall a: nat, l | a < s.cfg.N() && AskedAt(s1.levels, l, a)
      ensures CachedWithout(s1.cache, a, l) || LiveBelow(s1.levels, a, l)
    {
      CopiesAfter(s, s1, x, v, a);
      if a == x {
        assert CachedAt(s1.cache, s.cache.numStored, x);
      } else {
        assert AskedAt(s.levels, l, a);
        if CachedWithout(s.cache, a, l) {
          var i :| CachedAt(s.cache, i, a) && l !in s.cache.data[i].alibi;
          assert CachedAt(s1.cache, i, a) && s1.cache.data[i] == s.cache.data[i];
        } else {
          var k :| k < l && LiveAt(s.levels, k, a);
          assert LiveAt(s1.levels, k, a);
        }
      }
    }
  }

  lemma LocatedAfter(s: State, s1: State, x: nat, v: nat, a: nat)
    requires Stepped(s, s1, x, v) && a < s.cfg.N()
    ensures Located(s1, a) <==> a == x || Located(s, a)
  {
    CopiesAfter(s, s1, x, v, a);
    if a == x {
      assert CachedAt(s1.cache, s.cache.numStored, x);
    } else {
      if Located(s, a) {
        if i :| CachedAt(s.cache, i, a) { assert CachedAt(s1.cache, i, a); }
        if l :| LiveAt(s.levels, l, a) { assert LiveAt(s1.levels, l, a); }
      }
      if Located(s1, a) {
        if i :| CachedAt(s1.cache, i, a) { assert CachedAt(s.cache, i, a); }
        if l :| LiveAt(s1.levels, l, a) { assert LiveAt(s.levels, l, a); }
      }
    }
  }

  lemma SteppedRepresents(s: State, s1: State, m: Memory, x: nat, v: nat)
    requires Inv(s) && Represents(s, m) && Stepped(s, s1, x, v) && x < s.cfg.N()
    ensures Represents(s1, m[x := v])
  {
    var m1 := m[x := v];
    forall a: nat, i | a < s.cfg.N() && CachedAt(s1.cache, i, a) ensures s1.cache.data[i].value == Get(m1, a) {
      CopiesAfter(s, s1, x, v, a);
      if a != x { assert CachedAt(s.cache, i, a) && s1.cache.data[i] == s.cache.data[i]; }
    }
    forall a: nat, l | a < s.cfg.N() && LiveAt(s1.levels, l, a) ensures LevelValue(s1.levels[l].value, a, Get(m1, a)) {
      CopiesAfter(s, s1, x, v, a);
      assert LiveAt(s.levels, l, a);
      assert s1.levels[l].Some? <==> s.levels[l].Some?;
    }
    forall a: nat | a < s.cfg.N() && !Located(s1, a) ensures Get(m1, a) == 0 {
      LocatedAfter(s, s1, x, v, a);
    }
  }

  lemma SteppedInv(s: State, s1: State, m: Memory, x: nat, v: nat)
    requires Inv(s) && Represents(s, m) && Stepped(s, s1, x, v) && x < s.cfg.N()
    ensures Inv(s1) && Represents(s1, m[x := v])
  {
    SteppedShape(s, s1, x, v);
    SteppedUnique(s, s1, x, v);
    SteppedNoRepeats(s, s1, x, v);
    SteppedRepresents(s, s1, m, x, v);
    forall a: nat | a < s.cfg.N() && s.hadInitial ensures Located(s1, a) {
      LocatedAfter(s, s1, x, v, a);
      assert Complete(s) && Located(s, a);
    }
  }

  // ------------------------------------------------------------- refinement

  /** The cache query finds `x` in row `i` if it is cached, and otherwise nothing. */
  lemma CacheFinds(s: State, x: nat) returns (i: int)
    requires Inv(s) && x < s.cfg.N()
    ensures var (c, acc, found) := CacheQuery(s.cache, x, s.cfg.N());
      && (found <==> exists j :: CachedAt(s.cache, j, x))
      && (found ==> CachedAt(s.cache, i, x) && acc == s.cache.data[i])
      && (!found ==> acc == ZERO)
  {
    i := -1;
    if j :| CachedAt(s.cache, j, x) {
      i := j;
      forall k | 0 <= k < s.cache.numStored && k != i ensures s.cache.addrs[k] != x {
        assert CachedAt(s.cache, k, s.cache.addrs[k]);
      }
      MatchOne(s.cache.addrs, s.cache.data, x, s.cache.numStored, i);
    } else {
      forall k | 0 <= k < s.cache.numStored ensures s.cache.addrs[k] != x {
        assert CachedAt(s.cache, k, s.cache.addrs[k]);
      }
      MatchNone(s.cache.addrs, s.cache.data, x, s.cache.numStored);
    }
  }

  lemma CachedIsAbsent(s: State, x: nat, i: int)
    requires Inv(s) && x < s.cfg.N() && CachedAt(s.cache, i, x)
    ensures AbsentFrom(s.levels, 0, x, s.cache.data[i].alibi)
  {
    forall k: nat {:trigger s.levels[k]} | k < |s.levels| && s.levels[k].Some?
      ensures !Live(s.levels[k].value, x) && (k in s.cache.data[i].alibi ==> x !in s.levels[k].value.asked)
    {
      assert !LiveAt(s.levels, k, x);
      if AskedAt(s.levels, k, x) {
        assert !LiveBelow(s.levels, x, k);
        var j :| CachedAt(s.cache, j, x) && k !in s.cache.data[j].alibi;
        assert j == i;
      }
    }
  }

  lemma UncachedIsPresent(s: State, x: nat)
    requires Inv(s) && x < s.cfg.N() && !exists j :: CachedAt(s.cache, j, x)
    ensures PresentFrom(s.levels, 0, x)
  {
    forall k: nat | AskedAt(s.levels, k, x) ensures LiveBetween(s.levels, 0, k, x) {
      var j :| j < k && LiveAt(s.levels, j, x);
    }
  }

  /** An access with room in the cache does not crash, returns the represented value and leaves the
      represented memory with the written value, or with the one it read. */
  lemma AccessNowOk(s: State, m: Memory, x: nat, write: Option<nat>)
    requires Inv(s) && Represents(s, m) && x < s.cfg.N() && s.cache.numStored < s.cfg.S()
    ensures var r := AccessNow(s, x, write);
      && r.Ok? && r.value.1 == Get(m, x)
      && Inv(r.value.0) && Represents(r.value.0, m[x := if write.Some? then write.value else Get(m, x)])
      && Stepped(s, r.value.0, x, if write.Some? then write.value else Get(m, x))
  {
    hide Inv, Represents, Stepped;
    assert s.cache.Shaped() by { InvParts(s); }
    var levels, acc := QueryDelivers(s, m, x);
    var v := if write.Some? then write.value else acc.value;
    AccessSteps(s, x, write, levels, acc);
    SteppedInv(s, AccessNow(s, x, write).value.0, m, x, v);
  }

  lemma InvParts(s: State)
    requires Inv(s)
    ensures s.cache.Shaped() && s.cfg.Valid() && |s.cache.addrs| == s.cfg.S() && KeysOk(s)
    ensures s.cfg.stash <= s.cache.numStored
  {
  }

  lemma QueryDelivers(s: State, m: Memory, x: nat) returns (levels: seq<Option<Table>>, acc: Record)
    requires Inv(s) && Represents(s, m) && x < s.cfg.N() && s.cache.numStored < s.cfg.S()
    ensures s.cache.Shaped()
    ensures var (c, acc0, found0) := CacheQuery(s.cache, x, s.cfg.N());
      var r := QueryLevels(s.levels, 0, LiveKeys(s.levels, 0), x, acc0, found0);
      r.Ok? && r.value.0 == levels && r.value.1 == acc
    ensures AskedFrom(s.levels, levels, 0, x) && acc.value == Get(m, x)
  {
    AllReady(s);
    var i := CacheFinds(s, x);
    var (c, acc0, found0) := CacheQuery(s.cache, x, s.cfg.N());
    var keys := LiveKeys(s.levels, 0);
    var r := QueryLevels(s.levels, 0, keys, x, acc0, found0);
    if found0 {
      CachedIsAbsent(s, x, i);
      QueryAbsent(s.levels, 0, keys, x, acc0);
    } else {
      UncachedIsPresent(s, x);
      QueryPresent(s.levels, 0, keys, x);
      if LiveFrom(s.levels, 0, x) {
        var l :| 0 <= l && LiveAt(s.levels, l, x);
      } else {
        assert !Located(s, x) by {
          if l :| LiveAt(s.levels, l, x) { assert LiveFrom(s.levels, 0, x); }
        }
      }
    }
    levels, acc := r.value.0, r.value.1;
  }

  lemma AccessSteps(s: State, x: nat, write: Option<nat>, levels: seq<Option<Table>>, acc: Record)
    requires Inv(s) && x < s.cfg.N() && s.cache.numStored < s.cfg.S() && s.cache.Shaped()
    requires var (c, acc0, found0) := CacheQuery(s.cache, x, s.cfg.N());
      var r := QueryLevels(s.levels, 0, LiveKeys(s.levels, 0), x, acc0, found0);
      r.Ok? && r.value.0 == levels && r.value.1 == acc
    requires AskedFrom(s.levels, levels, 0, x)
    ensures var r := AccessNow(s, x, write);
      && r.Ok? && r.value.1 == acc.value
      && Stepped(s, r.value.0, x, if write.Some? then write.value else acc.value)
  {
  }
}
