/** A rebuild keeps the invariants and the represented memory. */
module Rebuilding {
  import opened Arithmetic
  import opened Words
  import opened Tables
  import opened Caches
  import opened Doram
  import opened Invariants
  import opened Rows
  import opened Collect
  import Sizes

  /** An oracle whose choices are what a build and a shuffle can produce. */
  ghost predicate Good(o: Oracle) {
    && (forall t: nat, p: Params {:trigger o.coin(t, p)} :: p.Valid() ==> ValidCoin(p, o.coin(t, p)))
    && (forall t: nat, n: nat {:trigger o.shuffle(t, n)} :: IsPerm(o.shuffle(t, n), n))
  }

  /** The state after level `r` was rebuilt as table `t`: empty below, unchanged above, the stash in the cache. */
  ghost predicate RebuiltAs(s: State, s1: State, r: nat, t: Table) {
    && s1.cfg == s.cfg && s1.hadInitial == s.hadInitial && s1.queryKey == None && s1.batchKeys == None
    && r < |s.levels| == |s1.levels| == |s.digits| == |s1.digits| == s.cfg.numLevels
    && s1.levels[r] == Some(t)
    && (forall k {:trigger s1.levels[k]} :: 0 <= k < r ==> s1.levels[k] == None)
    && (forall k {:trigger s1.levels[k]} {:trigger s.levels[k]} :: r < k < |s.levels| ==> s1.levels[k] == s.levels[k])
    && (r < s.cfg.Bottom() ==> Sizes.Carried(s.digits, s1.digits, s.cfg.Amp(), r))
    && (r == s.cfg.Bottom() ==> s1.digits[r] == 1 && forall k {:trigger s1.digits[k]} :: 0 <= k < r ==> s1.digits[k] == 0)
    && StashCached(s1, r, t)
  }

  ghost predicate StashCached(s1: State, r: nat, t: Table) {
    && s1.cache.Shaped() && |s1.cache.addrs| == s1.cfg.S()
    && s1.cache.numStored == s1.cfg.stash == |t.stashXs| == |t.stashYs|
    && (forall k {:trigger s1.cache.addrs[k]} :: 0 <= k < s1.cfg.stash ==> s1.cache.addrs[k] == t.stashXs[k])
    && (forall k {:trigger s1.cache.data[k]} :: 0 <= k < s1.cfg.stash ==>
          s1.cache.data[k] == Record(t.stashYs[k].value, t.stashYs[k].alibi + {r}))
  }

  /** `t` was built on `ready`. */
  ghost predicate BuiltOn(s: State, r: nat, ready: seq<Row>, c: Coin, t: Table) {
    && r < s.cfg.numLevels && ValidCoin(t.params, c) && BuildTable(t.params, ready, c) == Ok(t)
    && DistinctAddrs(ready) && NoAlibi(ready)
    && t.params.logN == s.cfg.logN && t.params.stashSize == s.cfg.stash && t.params.numDummies == s.cfg.NumDummies(r)
  }

  ghost predicate Stashed(t: Table, i: int, a: nat) {
    0 <= i < |t.stashXs| == |t.stashYs| && t.stashXs[i] == a
  }

  ghost predicate InStash(t: Table, a: nat) {
    exists i :: Stashed(t, i, a)
  }

  /** Row `k` of the input behind a live or stashed address. */
  lemma StashedRow(s: State, r: nat, ready: seq<Row>, c: Coin, t: Table, i: int, a: nat)
    requires BuiltOn(s, r, ready, c, t) && Stashed(t, i, a)
    ensures |c.stash| == |t.stashXs| && c.stash[i] < |ready| && ready[c.stash[i]] == Row(a, t.stashYs[i])
  {
    BuildOkFor(s, r, ready, c, t);
    assert Row(t.stashXs[i], t.stashYs[i]) == ready[c.stash[i]];
  }

  lemma BuildOkFor(s: State, r: nat, ready: seq<Row>, c: Coin, t: Table)
    requires BuiltOn(s, r, ready, c, t)
    ensures |t.stashXs| == |t.stashYs| == |c.stash|
    ensures forall k :: 0 <= k < |c.stash| ==> c.stash[k] < |ready| && Row(t.stashXs[k], t.stashYs[k]) == ready[c.stash[k]]
  {
  }

  /** An input row is either live in the table or stashed, never both, and stashed once. */
  lemma TableCopies(s: State, r: nat, ready: seq<Row>, c: Coin, t: Table, a: nat, m: Memory)
    requires BuiltOn(s, r, ready, c, t) && Faithful(ready, s.cfg.N(), m) && a < s.cfg.N()
    ensures Holds(ready, a) <==> Live(t, a) || InStash(t, a)
    ensures forall i :: Stashed(t, i, a) ==> !Live(t, a) && t.stashYs[i] == Record(Get(m, a), {})
    ensures forall i, j :: Stashed(t, i, a) && Stashed(t, j, a) ==> i == j
    ensures Live(t, a) ==> LevelValue(t, a, Get(m, a))
  {
    LiveCopy(s, r, ready, c, t, a, m);
    if InStash(t, a) {
      var i :| Stashed(t, i, a);
      StashedCopy(s, r, ready, c, t, a, m, i);
    }
    hide BuiltOn, Faithful, LevelValue, Live, Stashed, InStash;
    forall i | Stashed(t, i, a) ensures !Live(t, a) && t.stashYs[i] == Record(Get(m, a), {}) && Holds(ready, a) {
      StashedCopy(s, r, ready, c, t, a, m, i);
    }
    forall i, j | Stashed(t, i, a) && Stashed(t, j, a) ensures i == j {
      StashedOnce(s, r, ready, c, t, a, i, j);
    }
  }

  /** A live address is a row of the input with its value, and every row is live or stashed. */
  lemma LiveCopy(s: State, r: nat, ready: seq<Row>, c: Coin, t: Table, a: nat, m: Memory)
    requires BuiltOn(s, r, ready, c, t) && Faithful(ready, s.cfg.N(), m) && a < s.cfg.N()
    ensures Live(t, a) ==> Holds(ready, a) && LevelValue(t, a, Get(m, a))
    ensures Holds(ready, a) ==> Live(t, a) || InStash(t, a)
  {
    GoodReady(s, r, ready, c, t, m);
    BuildOk(t.params, ready, c);
    hide BuildTable, TableInv, RealDistinct, DistinctAddrs, NoAlibi;
    if Live(t, a) {
      var k: nat :| Unstashed(ready, c, a, k);
      LiveValueOf(t, a);
      assert ready[k].addr == a && ValueIn(t, a) == ready[k].rec.value;
    } else if Holds(ready, a) {
      var k :| 0 <= k < |ready| && ready[k].addr == a;
      assert k in c.stash;
      var i :| 0 <= i < |c.stash| && c.stash[i] == k;
      assert Row(t.stashXs[i], t.stashYs[i]) == ready[c.stash[i]];
      assert Stashed(t, i, a);
    }
  }

  lemma StashedCopy(s: State, r: nat, ready: seq<Row>, c: Coin, t: Table, a: nat, m: Memory, i: int)
    requires BuiltOn(s, r, ready, c, t) && Faithful(ready, s.cfg.N(), m) && a < s.cfg.N() && Stashed(t, i, a)
    ensures !Live(t, a) && t.stashYs[i] == Record(Get(m, a), {}) && Holds(ready, a)
  {
    GoodReady(s, r, ready, c, t, m);
    BuildOk(t.params, ready, c);
    StashedRow(s, r, ready, c, t, i, a);
    hide BuildTable, TableInv;
    assert c.stash[i] in c.stash;
    forall k: nat ensures !Unstashed(ready, c, a, k) {}
  }

  lemma StashedOnce(s: State, r: nat, ready: seq<Row>, c: Coin, t: Table, a: nat, i: int, j: int)
    requires BuiltOn(s, r, ready, c, t) && Stashed(t, i, a) && Stashed(t, j, a)
    ensures i == j
  {
    StashedRow(s, r, ready, c, t, i, a);
    StashedRow(s, r, ready, c, t, j, a);
    hide BuildTable;
  }

  lemma GoodReady(s: State, r: nat, ready: seq<Row>, c: Coin, t: Table, m: Memory)
    requires BuiltOn(s, r, ready, c, t) && Faithful(ready, s.cfg.N(), m)
    ensures t.params.Valid() && |ready| == t.params.numElements && GoodRows(t.params, ready)
  {
  }

  lemma LiveValueOf(t: Table, a: nat)
    requires TableInv(t) && a in t.slots
    ensures LevelValue(t, a, ValueIn(t, a))
  {
    assert Slotted(t, a);
  }

  lemma LiveRebuilt(s: State, s1: State, r: nat, t: Table, a: nat)
    requires RebuiltAs(s, s1, r, t)
    ensures forall l :: LiveAt(s1.levels, l, a) <==> (l == r && Live(t, a)) || (l > r && LiveAt(s.levels, l, a))
    ensures forall l :: AskedAt(s1.levels, l, a) <==> (l == r && a in t.asked) || (l > r && AskedAt(s.levels, l, a))
  {
    forall l ensures LiveAt(s1.levels, l, a) <==> (l == r && Live(t, a)) || (l > r && LiveAt(s.levels, l, a)) {
      if 0 <= l < |s.levels| { assert l < r ==> s1.levels[l] == None; }
    }
    forall l ensures AskedAt(s1.levels, l, a) <==> (l == r && a in t.asked) || (l > r && AskedAt(s.levels, l, a)) {
      if 0 <= l < |s.levels| { assert l < r ==> s1.levels[l] == None; }
    }
  }

  lemma CachedRebuilt(s1: State, r: nat, t: Table, a: nat)
    requires StashCached(s1, r, t)
    ensures forall i :: CachedAt(s1.cache, i, a) <==> Stashed(t, i, a)
    ensures forall i :: CachedAt(s1.cache, i, a) ==> s1.cache.data[i] == Record(t.stashYs[i].value, t.stashYs[i].alibi + {r})
  {
    forall i ensures CachedAt(s1.cache, i, a) <==> Stashed(t, i, a) {
      if 0 <= i < s1.cfg.stash { assert s1.cache.addrs[i] == t.stashXs[i]; }
    }
    forall i | CachedAt(s1.cache, i, a) ensures s1.cache.data[i] == Record(t.stashYs[i].value, t.stashYs[i].alibi + {r}) {
    }
  }

  /** The copies of a real address after a rebuild: a prepared address is live in the new table or in the
      cache with the alibi of the level, the others keep the copies above the rebuilt level. */
  lemma CopiesRebuilt(s: State, s1: State, m: Memory, r: nat, ready: seq<Row>, c: Coin, t: Table, a: nat)
    requires RebuiltAs(s, s1, r, t) && BuiltOn(s, r, ready, c, t)
    requires Faithful(ready, s.cfg.N(), m) && a < s.cfg.N()
    ensures forall l :: LiveAt(s1.levels, l, a) <==> (l == r && Live(t, a)) || (l > r && LiveAt(s.levels, l, a))
    ensures forall l :: AskedAt(s1.levels, l, a) <==> (l == r && a in t.asked) || (l > r && AskedAt(s.levels, l, a))
    ensures Holds(ready, a) <==> Live(t, a) || IsCached(s1.cache, a)
    ensures forall i :: CachedAt(s1.cache, i, a) ==> !Live(t, a) && s1.cache.data[i] == Record(Get(m, a), {r})
    ensures forall i, j :: CachedAt(s1.cache, i, a) && CachedAt(s1.cache, j, a) ==> i == j
    ensures Live(t, a) ==> LevelValue(t, a, Get(m, a))
  {
    hide *;
    StashKept(s, s1, r, t);
    LiveRebuilt(s, s1, r, t, a);
    TableCopies(s, r, ready, c, t, a, m);
    CachedRebuilt(s1, r, t, a);
    CachedStash(s1, t, a);
    CachedFresh(s1, r, t, a, m);
  }

  lemma CachedFresh(s1: State, r: nat, t: Table, a: nat, m: Memory)
    requires StashCached(s1, r, t)
    requires forall i :: Stashed(t, i, a) ==> !Live(t, a) && t.stashYs[i] == Record(Get(m, a), {})
    requires forall i, j :: Stashed(t, i, a) && Stashed(t, j, a) ==> i == j
    ensures forall i :: CachedAt(s1.cache, i, a) ==> !Live(t, a) && s1.cache.data[i] == Record(Get(m, a), {r})
    ensures forall i, j :: CachedAt(s1.cache, i, a) && CachedAt(s1.cache, j, a) ==> i == j
  {
    CachedRebuilt(s1, r, t, a);
    hide StashCached, Live;
    forall i | CachedAt(s1.cache, i, a) ensures !Live(t, a) && s1.cache.data[i] == Record(Get(m, a), {r}) {
      assert Stashed(t, i, a);
    }
    forall i, j | CachedAt(s1.cache, i, a) && CachedAt(s1.cache, j, a) ensures i == j {
      assert Stashed(t, i, a) && Stashed(t, j, a);
    }
  }

  lemma StashKept(s: State, s1: State, r: nat, t: Table)
    requires RebuiltAs(s, s1, r, t)
    ensures StashCached(s1, r, t)
  {
  }

  lemma CachedStash(s1: State, t: Table, a: nat)
    requires forall i :: CachedAt(s1.cache, i, a) <==> Stashed(t, i, a)
    ensures IsCached(s1.cache, a) <==> InStash(t, a)
  {
    hide CachedAt, Stashed;
    if i :| Stashed(t, i, a) { assert CachedAt(s1.cache, i, a); }
    if i :| CachedAt(s1.cache, i, a) { assert Stashed(t, i, a); }
  }

  // ------------------------------------------------------ the state afterwards

  /** What stays above level `r` has no copy of a prepared address, is free of duplicates, has the map's
      values, and was only asked for prepared addresses or those found between `r` and it. */
  ghost predicate Residue(s: State, m: Memory, r: nat, ready: seq<Row>) {
    && (forall a: nat, l {:trigger LiveAt(s.levels, l, a)} :: a < s.cfg.N() && l > r && LiveAt(s.levels, l, a) ==>
          !Holds(ready, a) && LevelValue(s.levels[l].value, a, Get(m, a)))
    && (forall a: nat, l, k {:trigger LiveAt(s.levels, l, a), LiveAt(s.levels, k, a)} ::
          a < s.cfg.N() && l > r && k > r && LiveAt(s.levels, l, a) && LiveAt(s.levels, k, a) ==> l == k)
    && (forall a: nat, l {:trigger AskedAt(s.levels, l, a)} :: a < s.cfg.N() && l > r && AskedAt(s.levels, l, a) ==>
          Holds(ready, a) || LiveAmong(s.levels, r, l, a))
  }

  ghost predicate LiveAmong(levels: seq<Option<Table>>, r: nat, l: int, a: nat) {
    exists k :: r < k < l && LiveAt(levels, k, a)
  }

  /** After the rows of the cache and of the levels up to `r` are collected, what stays is a residue. */
  lemma CollectedResidue(s: State, m: Memory, r: nat, rows: seq<Row>, ready: seq<Row>)
    requires Inv(s) && Represents(s, m) && Collects(s, m, rows, r + 1) && SameReal(rows, ready, s.cfg.N())
    ensures Residue(s, m, r, ready)
    ensures forall a: nat {:trigger Holds(ready, a)} :: a < s.cfg.N() ==>
      (Holds(ready, a) <==> IsCached(s.cache, a) || LiveBelow(s.levels, a, r + 1))
  {
    forall a: nat | a < s.cfg.N() ensures Holds(ready, a) <==> IsCached(s.cache, a) || LiveBelow(s.levels, a, r + 1) {
      assert Holds(rows, a) <==> Holds(ready, a);
    }
    forall a: nat, l | a < s.cfg.N() && l > r && LiveAt(s.levels, l, a) ensures !Holds(ready, a) {
      forall k | k < r + 1 ensures !LiveAt(s.levels, k, a) {}
      forall i ensures !CachedAt(s.cache, i, a) {}
    }
    forall a: nat, l | a < s.cfg.N() && l > r && AskedAt(s.levels, l, a)
      ensures Holds(ready, a) || LiveAmong(s.levels, r, l, a)
    {
      if CachedWithout(s.cache, a, l) {
        var i :| CachedAt(s.cache, i, a) && l !in s.cache.data[i].alibi;
        assert IsCached(s.cache, a);
      } else {
        var k :| k < l && LiveAt(s.levels, k, a);
        if k < r + 1 { assert LiveBelow(s.levels, a, r + 1); }
      }
    }
  }

  lemma RebuiltUnique(s: State, s1: State, m: Memory, r: nat, ready: seq<Row>, c: Coin, t: Table)
    requires RebuiltAs(s, s1, r, t) && BuiltOn(s, r, ready, c, t) && Faithful(ready, s.cfg.N(), m) && Residue(s, m, r, ready)
    ensures Unique(s1)
  {
    hide RebuiltAs, BuiltOn, Faithful, LevelValue;
    assert s1.cfg == s.cfg by { SameConfig(s, s1, r, t); }
    forall a: nat, i, j | a < s.cfg.N() && CachedAt(s1.cache, i, a) && CachedAt(s1.cache, j, a) ensures i == j {
      CopiesRebuilt(s, s1, m, r, ready, c, t, a);
    }
    forall a: nat, i, l | a < s.cfg.N() && CachedAt(s1.cache, i, a) ensures !LiveAt(s1.levels, l, a) {
      CopiesRebuilt(s, s1, m, r, ready, c, t, a);
      assert IsCached(s1.cache, a) && Holds(ready, a);
    }
    forall a: nat, l, k | a < s.cfg.N() && LiveAt(s1.levels, l, a) && LiveAt(s1.levels, k, a) ensures l == k {
      CopiesRebuilt(s, s1, m, r, ready, c, t, a);
      assert l > r ==> LiveAt(s.levels, l, a) && !Holds(ready, a);
      assert k > r ==> LiveAt(s.levels, k, a) && !Holds(ready, a);
    }
  }

  lemma SameConfig(s: State, s1: State, r: nat, t: Table)
    requires RebuiltAs(s, s1, r, t)
    ensures s1.cfg == s.cfg && s1.hadInitial == s.hadInitial && |s1.levels| == |s.levels| == s.cfg.numLevels && s1.levels[r] == Some(t)
    ensures s1.queryKey == None && s1.batchKeys == None
  {
  }

  lemma RebuiltNoRepeats(s: State, s1: State, m: Memory, r: nat, ready: seq<Row>, c: Coin, t: Table)
    requires RebuiltAs(s, s1, r, t) && BuiltOn(s, r, ready, c, t) && Faithful(ready, s.cfg.N(), m) && Residue(s, m, r, ready)
    requires t.asked == {}
    ensures NoRepeats(s1)
  {
    hide RebuiltAs, BuiltOn, Faithful, LevelValue;
    assert s1.cfg == s.cfg by { SameConfig(s, s1, r, t); }
    forall a: nat, l | a < s.cfg.N() && AskedAt(s1.levels, l, a)
      ensures CachedWithout(s1.cache, a, l) || LiveBelow(s1.levels, a, l)
    {
      CopiesRebuilt(s, s1, m, r, ready, c, t, a);
      assert l > r && AskedAt(s.levels, l, a);
      if Holds(ready, a) {
        if Live(t, a) {
          assert LiveAt(s1.levels, r, a);
        } else {
          var i :| CachedAt(s1.cache, i, a);
          assert CachedWithout(s1.cache, a, l);
        }
      } else {
        var k :| r < k < l && LiveAt(s.levels, k, a);
        assert LiveAt(s1.levels, k, a);
      }
    }
  }

  lemma LocatedRebuilt(s: State, s1: State, m: Memory, r: nat, ready: seq<Row>, c: Coin, t: Table, a: nat)
    requires RebuiltAs(s, s1, r, t) && BuiltOn(s, r, ready, c, t) && Faithful(ready, s.cfg.N(), m)
    requires a < s.cfg.N()
    ensures Located(s1, a) <==> Holds(ready, a) || exists l :: l > r && LiveAt(s.levels, l, a)
  {
    CopiesRebuilt(s, s1, m, r, ready, c, t, a);
    hide RebuiltAs, BuiltOn, Faithful, LevelValue;
    if Live(t, a) { assert LiveAt(s1.levels, r, a); }
    if l :| l > r && LiveAt(s.levels, l, a) { assert LiveAt(s1.levels, l, a); }
    if Located(s1, a) {
      if i :| CachedAt(s1.cache, i, a) { assert IsCached(s1.cache, a); }
      else { var l :| LiveAt(s1.levels, l, a); assert l > r ==> LiveAt(s.levels, l, a); }
    }
  }

  lemma RebuiltRepresents(s: State, s1: State, m: Memory, r: nat, ready: seq<Row>, c: Coin, t: Table)
    requires RebuiltAs(s, s1, r, t) && BuiltOn(s, r, ready, c, t) && Faithful(ready, s.cfg.N(), m) && Residue(s, m, r, ready)
    requires forall a: nat {:trigger Holds(ready, a)} :: a < s.cfg.N() && !Holds(ready, a) && Get(m, a) != 0 ==> exists l :: l > r && LiveAt(s.levels, l, a)
    requires forall a :: a in m ==> a < s.cfg.N()
    ensures Represents(s1, m)
  {
    SameConfig(s, s1, r, t);
    forall a: nat, i | a < s.cfg.N() && CachedAt(s1.cache, i, a) ensures s1.cache.data[i].value == Get(m, a) {
      CopiesRebuilt(s, s1, m, r, ready, c, t, a);
    }
    forall a: nat, l | a < s.cfg.N() && LiveAt(s1.levels, l, a) ensures LevelValue(s1.levels[l].value, a, Get(m, a)) {
      CopiesRebuilt(s, s1, m, r, ready, c, t, a);
      assert l > r ==> LiveAt(s.levels, l, a) && s1.levels[l] == s.levels[l];
    }
    forall a: nat | a < s.cfg.N() && !Located(s1, a) ensures Get(m, a) == 0 {
      LocatedRebuilt(s, s1, m, r, ready, c, t, a);
    }
  }

  // ----------------------------------------------------------- sizes afterwards

  lemma RebuiltShape(s: State, s1: State, r: nat, t: Table)
    requires Shape(s) && RebuiltAs(s, s1, r, t) && (r < s.cfg.Bottom() ==> s1.digits[r] < s.cfg.Amp())
    requires r == s.cfg.Bottom() || (s.hadInitial ==> s.levels[s.cfg.Bottom()].Some?)
    ensures Shape(s1)
  {
    forall l {:trigger s1.levels[l]} | 0 <= l < s1.cfg.numLevels ensures s1.levels[l].Some? <==> s1.digits[l] != 0 {
      if l > r { assert s1.levels[l] == s.levels[l] && s1.digits[l] == s.digits[l]; }
      if l < r { assert s1.levels[l] == None && s1.digits[l] == 0; }
    }
    forall l {:trigger s1.digits[l]} | 0 <= l < s1.cfg.Bottom() ensures s1.digits[l] < s1.cfg.Amp() {
      if l > r { assert s1.digits[l] == s.digits[l]; }
      if l < r { assert s1.digits[l] == 0; }
    }
  }

  lemma LowSumRebuilt(s: State, s1: State, r: nat, t: Table, l: nat)
    requires Shape(s) && RebuiltAs(s, s1, r, t) && l < s.cfg.numLevels
    ensures l <= r ==> LowSum(s1.digits, s1.cfg.Amp(), l) == 0
    ensures r < l ==> LowSum(s1.digits, s1.cfg.Amp(), l) == LowSum(s.digits, s.cfg.Amp(), l) + 1
  {
    if l <= r {
      forall k {:trigger s1.digits[k]} | 0 <= k < l ensures s1.digits[k] == 0 {}
      Sizes.LowSumZero(s1.digits, s1.cfg.Amp(), l);
    } else {
      Sizes.CarrySum(s.digits, s1.digits, s.cfg.Amp(), r, l);
    }
  }

  /** A level that was not touched owes as many queries after the rebuild as before it. */
  lemma SpentKept(s: State, s1: State, r: nat, t: Table, l: nat)
    requires Shape(s) && RebuiltAs(s, s1, r, t) && l < s.cfg.numLevels
    ensures l <= r ==> Spent(s1, l) == 0
    ensures r < l && s.cache.numStored == s.cfg.S() ==> Spent(s1, l) == Spent(s, l)
  {
    LowSumRebuilt(s, s1, r, t, l);
    var f, low := s.cfg.Fill(), LowSum(s.digits, s.cfg.Amp(), l);
    SameConfig(s, s1, r, t);
    StashNow(s, s1, r, t);
    assert s.cfg.Valid() && s.cfg.S() - s.cfg.stash == f;
    hide Shape, RebuiltAs, LowSum, Pow2;
    OneMore(f, low);
  }

  lemma OneMore(f: nat, low: nat)
    ensures f * (low + 1) == f * low + f && f * 0 == 0
  {
  }

  lemma StashNow(s: State, s1: State, r: nat, t: Table)
    requires RebuiltAs(s, s1, r, t)
    ensures s1.cache.numStored == s.cfg.stash
  {
    assert StashCached(s1, r, t);
  }

  lemma RebuiltLevels(s: State, s1: State, r: nat, t: Table)
    requires Shape(s) && LevelsOk(s) && RebuiltAs(s, s1, r, t) && (r < s.cfg.Bottom() ==> s.cache.numStored == s.cfg.S())
    requires TableInv(t) && t.params.logN == s.cfg.logN && t.params.stashSize == s.cfg.stash && t.params.numDummies == s.cfg.NumDummies(r)
    requires t.params.numElements == s.cfg.NumElementsAt(r, s1.digits[r]) && t.count == 0
    ensures LevelsOk(s1)
  {
    forall l: nat | l < |s1.levels| ensures LevelOk(s1, l) {
      SpentKept(s, s1, r, t, l);
      if l > r { assert LevelOk(s, l) && s1.levels[l] == s.levels[l] && s1.digits[l] == s.digits[l]; }
      if l < r { assert s1.levels[l] == None; }
    }
  }

  lemma RebuiltCache(s: State, s1: State, m: Memory, r: nat, ready: seq<Row>, c: Coin, t: Table)
    requires RebuiltAs(s, s1, r, t) && BuiltOn(s, r, ready, c, t) && Faithful(ready, s.cfg.N(), m)
    ensures CacheOk(s1)
  {
    forall i {:trigger s1.cache.addrs[i]} | 0 <= i < s1.cache.numStored ensures s1.cache.addrs[i] < 2 * s1.cfg.N() {
      assert s1.cache.addrs[i] == t.stashXs[i];
      StashedRow(s, r, ready, c, t, i, t.stashXs[i]);
    }
  }

  /** Adding one to a counter below `p` that agrees with a count modulo `p`. */
  lemma CountOn(count: nat, low: nat, p: nat)
    requires p >= 1 && low == count % p
    ensures (count + 1) % p == if low + 1 == p then 0 else low + 1
  {
    var q := count / p;
    assert count == p * q + low;
    if low + 1 == p {
      assert count + 1 == p * (q + 1);
      QuotientIs(count + 1, p, q + 1, 0);
    } else {
      QuotientIs(count + 1, p, q, low + 1);
    }
  }

  lemma RebuiltOdometer(s: State, s1: State, r: nat, t: Table)
    requires Shape(s) && Odometer(s) && RebuiltAs(s, s1, r, t) && MaxBelow(s, r) && s1.rebuilds == s.rebuilds + 1
    requires Shape(s1)
    ensures Odometer(s1)
  {
    var b, amp := s.cfg.Bottom(), s.cfg.Amp();
    LowSumRebuilt(s, s1, r, t, b);
    Sizes.Accessing.LowSumBound(s.cfg, s.digits, b);
    Sizes.Accessing.LowSumBound(s1.cfg, s1.digits, b);
    if r == b { Sizes.LowSumFull(s.digits, amp, b); }
    CountOn(s.rebuilds, LowSum(s.digits, amp, b), Power(amp, b));
  }

  // ------------------------------------------------------- the operation itself

  lemma {:induction false} DeleteBelowFacts(s: State, r: nat)
    requires r <= |s.levels| == |s.digits|
    ensures var d := DeleteBelow(s, r);
      && (forall k {:trigger d.levels[k]} :: 0 <= k < |s.levels| ==> d.levels[k] == if k < r then None else s.levels[k])
      && (forall k {:trigger d.digits[k]} :: 0 <= k < |s.levels| ==>
            d.digits[k] == if k < r && k < s.cfg.Bottom() && s.digits[k] == s.cfg.Amp() - 1 then 0 else s.digits[k])
      && (r > 0 ==> d.queryKey == None && d.batchKeys == None)
  {
    if r > 0 { DeleteBelowFacts(s, r - 1); }
  }

  lemma StashEnters(s: State, r: nat, t: Table) returns (cache: Cache)
    requires s.cache == NewCache(s.cfg.S(), s.cfg.N()) && r < |s.levels| && s.levels[r] == Some(t)
    requires |t.stashXs| == |t.stashYs| == s.cfg.stash < s.cfg.S() && t.params.stashSize == s.cfg.stash
    ensures InsertStash(s, r) == Ok(s.(cache := cache)) && StashCached(s.(cache := cache), r, t)
  {
    cache := InsertStash(s, r).value.cache;
  }

  /** The table a rebuild makes of prepared rows. */
  lemma NewTableForm(s: State, r: nat, ready: seq<Row>, o: Oracle) returns (c: Coin, t: Table)
    requires s.cfg.Valid() && Good(o) && r < s.cfg.numLevels == |s.levels| == |s.digits|
    requires r < s.cfg.Bottom() ==> s.digits[r] + 1 < s.cfg.Amp()
    requires DistinctAddrs(ready) && NoAlibi(ready) && |ready| == s.cfg.NumElementsAt(r, if r == s.cfg.Bottom() then 1 else s.digits[r] + 1)
    ensures BuiltOn(s, r, ready, c, t) && t.params.numElements == |ready|
    ensures |t.stashXs| == |t.stashYs| == s.cfg.stash
    ensures NewTable(s, r, ready, o) ==
      Ok(s.(levels := s.levels[r := Some(t)], digits := s.digits[r := if r == s.cfg.Bottom() then 1 else s.digits[r] + 1],
            queryKey := None, batchKeys := None, built := s.built + 1))
  {
    var b := if r == s.cfg.Bottom() then 1 else s.digits[r] + 1;
    Sizes.Capacity(s.cfg, r, b);
    Sizes.ElementsUnit(s.cfg, r, b);
    var p := s.cfg.TableParams(r, |ready|, b);
    c := o.coin(s.built, p);
    t := BuildTable(p, ready, c).value;
  }

  /** The state between the deletions and the new table of level `r`. */
  ghost predicate Emptied(s: State, s2: State, r: nat) {
    && r < |s.levels| == |s.digits| == |s2.levels| == |s2.digits|
    && s2.cfg == s.cfg && s2.hadInitial == s.hadInitial && s2.built == s.built && s2.rebuilds == s.rebuilds
    && s2.cache == NewCache(s.cfg.S(), s.cfg.N())
    && (forall k {:trigger s2.levels[k]} :: 0 <= k < r ==> s2.levels[k] == None)
    && (forall k {:trigger s2.levels[k]} :: r < k < |s.levels| ==> s2.levels[k] == s.levels[k])
    && (forall k {:trigger s2.digits[k]} :: 0 <= k < r ==> s2.digits[k] == 0)
    && (forall k {:trigger s2.digits[k]} :: r < k < |s.levels| ==> s2.digits[k] == s.digits[k])
    && (r < s.cfg.Bottom() ==> s2.digits[r] == s.digits[r])
  }

  lemma DeletesEmpty(s: State, r: nat, need: bool)
    requires r < |s.levels| == |s.digits| == s.cfg.numLevels && MaxBelow(s, r)
    requires r < s.cfg.Bottom() ==> s.digits[r] + 1 < s.cfg.Amp()
    ensures Emptied(s, AfterDeletes(s, r, need), r)
  {
    var s0 := s.(cache := NewCache(s.cfg.S(), s.cfg.N()));
    var s2 := AfterDeletes(s, r, need);
    DeleteBelowFacts(s0, r);
    forall k {:trigger s2.digits[k]} | 0 <= k < r ensures s2.digits[k] == 0 {
      assert s.digits[k] == s.cfg.Amp() - 1;
    }
  }

  /** The digit of level `r` once it holds a new table. */
  function NextDigit(s: State, r: nat): nat
    requires r < |s.digits|
  {
    if r == s.cfg.Bottom() then 1 else s.digits[r] + 1
  }

  function WithTable(s2: State, r: nat, t: Table): (s3: State)
    requires r < |s2.levels| == |s2.digits|
  {
    s2.(levels := s2.levels[r := Some(t)], digits := s2.digits[r := NextDigit(s2, r)],
        queryKey := None, batchKeys := None, built := s2.built + 1)
  }

  lemma EmptiedRebuilt(s: State, s2: State, s1: State, r: nat, t: Table)
    requires Emptied(s, s2, r) && |s.levels| == s.cfg.numLevels && MaxBelow(s, r) && StashCached(s1, r, t)
    requires s1 == WithTable(s2, r, t).(cache := s1.cache, rebuilds := s.rebuilds + 1)
    ensures RebuiltAs(s, s1, r, t) && s1.rebuilds == s.rebuilds + 1 && s1.built == s.built + 1
    ensures s1.digits[r] == NextDigit(s, r)
  {
    hide StashCached;
    forall k {:trigger s1.levels[k]} {:trigger s.levels[k]} | r < k < |s.levels| ensures s1.levels[k] == s.levels[k] {
      assert s2.levels[k] == s.levels[k];
    }
    forall k {:trigger s1.levels[k]} | 0 <= k < r ensures s1.levels[k] == None {
      assert s2.levels[k] == None;
    }
    forall k {:trigger s1.digits[k]} | 0 <= k < r ensures s1.digits[k] == 0 {
      assert s2.digits[k] == 0;
    }
  }

  lemma RebuildUnfolds(s: State, o: Oracle, r: nat, rows: seq<Row>, ready: seq<Row>, t: Table, cache: Cache)
    requires StateShaped(s) && r == TargetFrom(s.cfg, s.digits, 0)
    requires Collected(s, if NeedExtract(s, r) then r + 1 else r) == Ok(rows) && Prepared(s, r, rows, o) == Ok(ready)
    requires var s2 := AfterDeletes(s, r, NeedExtract(s, r));
      && |s2.levels| == |s2.digits| == |s.levels| && cache.Shaped() && s2.cache.Shaped()
      && NewTable(s2, r, ready, o) == Ok(WithTable(s2, r, t))
      && InsertStash(WithTable(s2, r, t), r) == Ok(WithTable(s2, r, t).(cache := cache))
    ensures Rebuild(s, o) == Ok(WithTable(AfterDeletes(s, r, NeedExtract(s, r)), r, t).(cache := cache, rebuilds := s.rebuilds + 1))
  {
    hide Collected, Prepared, NewTable, InsertStash, DeleteBelow, DeleteLevel, WithTable, TargetFrom, NeedExtract, StateShaped, AfterDeletes;
  }

  /** A rebuild whose rows were collected and prepared succeeds. */
  lemma RebuildForm(s: State, o: Oracle, r: nat, rows: seq<Row>, ready: seq<Row>) returns (c: Coin, t: Table)
    requires Shape(s) && StateShaped(s) && Good(o)
    requires r == TargetFrom(s.cfg, s.digits, 0) && MaxBelow(s, r) && (r < s.cfg.Bottom() ==> s.digits[r] + 1 < s.cfg.Amp())
    requires Collected(s, if NeedExtract(s, r) then r + 1 else r) == Ok(rows) && Prepared(s, r, rows, o) == Ok(ready)
    requires DistinctAddrs(ready) && NoAlibi(ready) && |ready| == s.cfg.NumElementsAt(r, NextDigit(s, r))
    ensures Rebuild(s, o).Ok?
    ensures var s1 := Rebuild(s, o).value;
      && RebuiltAs(s, s1, r, t) && BuiltOn(s, r, ready, c, t) && t.params.numElements == |ready|
      && s1.rebuilds == s.rebuilds + 1 && s1.built == s.built + 1 && s1.digits[r] == NextDigit(s, r)
  {
    hide Good, NewTable, Collected, Prepared, TargetFrom, NeedExtract, AfterDeletes, InsertStash, Rebuild, RebuiltAs, BuiltOn;
    hide MaxBelow, DistinctAddrs, NoAlibi, StashCached, NewCache;
    var s2 := AfterDeletes(s, r, NeedExtract(s, r));
    DeletesEmpty(s, r, NeedExtract(s, r));
    c, t := NewTableForm(s2, r, ready, o);
    BuiltOnSame(s, s2, r, ready, c, t);
    var s3 := WithTable(s2, r, t);
    var cache := StashEnters(s3, r, t);
    RebuildUnfolds(s, o, r, rows, ready, t, cache);
    StashSame(s3.(cache := cache), s3.(cache := cache, rebuilds := s.rebuilds + 1), r, t);
    EmptiedRebuilt(s, s2, s3.(cache := cache, rebuilds := s.rebuilds + 1), r, t);
  }

  lemma StashSame(s: State, s2: State, r: nat, t: Table)
    requires StashCached(s, r, t) && s2.cfg == s.cfg && s2.cache == s.cache
    ensures StashCached(s2, r, t)
  {
  }

  lemma BuiltOnSame(s: State, s2: State, r: nat, ready: seq<Row>, c: Coin, t: Table)
    requires BuiltOn(s2, r, ready, c, t) && s2.cfg == s.cfg && s.cfg.Valid()
    ensures BuiltOn(s, r, ready, c, t) && t.params.stashSize == s.cfg.stash < s.cfg.S()
  {
  }
}
