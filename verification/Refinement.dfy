/** Rebuilds, and accesses with the rebuild they may need, refine the plain map. */
module Refinement {
  import opened Words
  import opened Tables
  import opened Caches
  import opened Doram
  import opened Invariants
  import opened Rows
  import opened Collect
  import opened Rebuilding
  import Accessing
  import Sizes

  /** The one rebuild the 32-bit sort positions cannot serve: 2^32 rows into an old bottom. */
  predicate SortOverflows(s: State)
    requires |s.levels| == |s.digits| == s.cfg.numLevels > 0
  {
    && TargetFrom(s.cfg, s.digits, 0) == s.cfg.Bottom() && !s.hadInitial
    && s.levels[s.cfg.Bottom()].Some? && s.cfg.logN == 31
  }

  lemma NeedIsLive(s: State, r: nat)
    requires Shape(s) && r < s.cfg.numLevels
    ensures NeedExtract(s, r) <==> s.levels[r].Some?
  {
  }

  /** Level `r` is collected exactly when it is live. */
  lemma CollectsThrough(s: State, m: Memory, rows: seq<Row>, r: nat)
    requires Shape(s) && r < s.cfg.numLevels && Collects(s, m, rows, if NeedExtract(s, r) then r + 1 else r)
    ensures Collects(s, m, rows, r + 1)
  {
    NeedIsLive(s, r);
    if s.levels[r].None? {
      forall a: nat ensures LiveBelow(s.levels, a, r + 1) <==> LiveBelow(s.levels, a, r) {
        LiveBelowNext(s.levels, a, r);
      }
    }
  }

  lemma TargetOk(s: State, r: nat)
    requires Shape(s) && r == TargetFrom(s.cfg, s.digits, 0)
    ensures MaxBelow(s, r) && (r < s.cfg.Bottom() ==> s.digits[r] + 1 < s.cfg.Amp())
  {
    Sizes.TargetFacts(s.cfg, s.digits, 0);
  }

  /** How many rows a rebuild into the bottom sorts. */
  lemma SortSize(s: State, rows: seq<Row>)
    requires Shape(s) && |rows| == if s.levels[s.cfg.Bottom()].Some? then 2 * s.cfg.N() else s.cfg.N()
    ensures NextPow2(|rows|, 1) >= TWO32 <==> s.cfg.logN == 31 && s.levels[s.cfg.Bottom()].Some?
    ensures NextPow2(|rows|, 1) == |rows|
  {
    var k := if s.levels[s.cfg.Bottom()].Some? then s.cfg.logN + 1 else s.cfg.logN;
    assert Pow2(0) == 1;
    NextPow2Exact(k, 0);
    Sizes.Pow2At32();
    if k < 32 { assert Pow2(k + 1) == 2 * Pow2(k); Pow2Mono(k + 1, 32); }
  }

  /** With every address in the hierarchy, a bottom rebuild collects all of them. */
  lemma AllCollected(s: State, m: Memory, rows: seq<Row>)
    requires Inv(s) && s.hadInitial && Collects(s, m, rows, s.cfg.numLevels)
    ensures forall a: nat {:trigger Holds(rows, a)} :: a < s.cfg.N() ==> Holds(rows, a)
  {
    forall a: nat | a < s.cfg.N() ensures Holds(rows, a) {
      assert Located(s, a);
      if i :| CachedAt(s.cache, i, a) {
        assert IsCached(s.cache, a);
      } else {
        var l :| LiveAt(s.levels, l, a);
        assert LiveBelow(s.levels, a, s.cfg.numLevels);
      }
    }
  }

  lemma PreparedBottom(s: State, m: Memory, rows: seq<Row>, o: Oracle)
    requires Inv(s) && StateShaped(s) && Good(o) && Collects(s, m, rows, s.cfg.numLevels) && rows != []
    requires |rows| == if s.levels[s.cfg.Bottom()].Some? then 2 * s.cfg.N() else s.cfg.N()
    ensures var p := Prepared(s, s.cfg.Bottom(), rows, o);
      if !s.hadInitial && s.levels[s.cfg.Bottom()].Some? && s.cfg.logN == 31 then p.Crash?
      else p.Ok? && Buildable(s, m, rows, p.value, s.cfg.N())
  {
    SortSize(s, rows);
    var perm := o.shuffle(s.built, |rows|);
    if s.hadInitial {
      AllCollected(s, m, rows);
      FinalizeFiltered(s.cfg, rows, m, perm);
    } else if NextPow2(|rows|, 1) < TWO32 {
      FinalizeSorted(s.cfg, rows, m, perm);
    }
  }

  /** The rows collected for a rebuild of a full cache, and what they are prepared to. */
  lemma PreparedOk(s: State, m: Memory, o: Oracle, r: nat) returns (rows: seq<Row>)
    requires Inv(s) && Represents(s, m) && s.cache.numStored == s.cfg.S() && Good(o) && r == TargetFrom(s.cfg, s.digits, 0)
    ensures StateShaped(s) && Collected(s, if NeedExtract(s, r) then r + 1 else r) == Ok(rows) && Collects(s, m, rows, r + 1)
    ensures var p := Prepared(s, r, rows, o);
      if SortOverflows(s) then p.Crash? else p.Ok? && Buildable(s, m, rows, p.value, s.cfg.NumElementsAt(r, NextDigit(s, r)))
  {
    hide *;
    InvShape(s);
    TargetOk(s, r);
    NeedIsLive(s, r);
    var last := if NeedExtract(s, r) then r + 1 else r;
    CollectedFacts(s, m, last);
    rows := Collected(s, last).value;
    if r == s.cfg.Bottom() { CollectedBottomSize(s); } else { CollectedSize(s, r); }
    CollectsThrough(s, m, rows, r);
    SomeRows(s, rows, last);
    OverflowIs(s, r);
    if r == s.cfg.Bottom() {
      PreparedBottom(s, m, rows, o);
    } else {
      PreparedMiddle(s, m, r, rows, r + 1, o);
    }
  }

  lemma InvShape(s: State)
    requires Inv(s)
    ensures Shape(s) && |s.levels| == |s.digits| == s.cfg.numLevels > 0 && s.cfg.Bottom() == s.cfg.numLevels - 1
    ensures LevelsOk(s) && s.cache.Shaped()
  {
  }

  lemma SomeRows(s: State, rows: seq<Row>, last: nat)
    requires last <= |s.levels| == |s.digits| && |rows| == s.cfg.S() + RowCount(s, last)
    ensures rows != []
  {
  }

  lemma OverflowIs(s: State, r: nat)
    requires |s.levels| == |s.digits| == s.cfg.numLevels > 0 && r == TargetFrom(s.cfg, s.digits, 0)
    ensures SortOverflows(s) <==> r == s.cfg.Bottom() && !s.hadInitial && s.levels[s.cfg.Bottom()].Some? && s.cfg.logN == 31
    ensures NextDigit(s, r) == if r == s.cfg.Bottom() then 1 else s.digits[r] + 1
    ensures s.cfg.NumElementsAt(s.cfg.Bottom(), 1) == s.cfg.N()
  {
    hide TargetFrom;
  }

  /** What stays after the rebuild of prepared rows represents the same memory. */
  lemma RebuiltOk(s: State, s1: State, m: Memory, r: nat, rows: seq<Row>, ready: seq<Row>, c: Coin, t: Table)
    requires Inv(s) && Represents(s, m) && s.cache.numStored == s.cfg.S() && r < s.cfg.numLevels && MaxBelow(s, r)
    requires Collects(s, m, rows, r + 1) && RebuiltAs(s, s1, r, t) && BuiltOn(s, r, ready, c, t)
    requires Buildable(s, m, rows, ready, s.cfg.NumElementsAt(r, NextDigit(s, r))) && t.params.numElements == |ready|
    requires s1.rebuilds == s.rebuilds + 1 && s1.digits[r] == NextDigit(s, r) && (r < s.cfg.Bottom() ==> s.digits[r] + 1 < s.cfg.Amp())
    ensures Inv(s1) && Represents(s1, m)
  {
    BuiltFresh(s, m, r, ready, c, t);
    CollectedResidue(s, m, r, rows, ready);
    RebuiltUnique(s, s1, m, r, ready, c, t);
    RebuiltNoRepeats(s, s1, m, r, ready, c, t);
    RebuiltShape(s, s1, r, t);
    RebuiltLevels(s, s1, r, t);
    RebuiltCache(s, s1, m, r, ready, c, t);
    RebuiltOdometer(s, s1, r, t);
    SameConfig(s, s1, r, t);
    forall a: nat | a < s.cfg.N() && !Holds(ready, a)
      ensures (Get(m, a) != 0 || s.hadInitial) ==> exists l :: l > r && LiveAt(s.levels, l, a)
    {
      StillAbove(s, m, r, ready, a);
    }
    RebuiltRepresents(s, s1, m, r, ready, c, t);
    RebuiltComplete(s, s1, m, r, ready, c, t);
    hide *;
  }

  lemma BuiltFresh(s: State, m: Memory, r: nat, ready: seq<Row>, c: Coin, t: Table)
    requires BuiltOn(s, r, ready, c, t) && Faithful(ready, s.cfg.N(), m)
    ensures TableInv(t) && t.count == 0 && t.asked == {}
    ensures t.params.logN == s.cfg.logN && t.params.stashSize == s.cfg.stash && t.params.numDummies == s.cfg.NumDummies(r)
  {
    GoodReady(s, r, ready, c, t, m);
    BuildOk(t.params, ready, c);
  }

  /** An address that was not collected but has a value, or must be somewhere, is live above `r`. */
  lemma StillAbove(s: State, m: Memory, r: nat, ready: seq<Row>, a: nat)
    requires Inv(s) && Represents(s, m) && a < s.cfg.N() && !Holds(ready, a)
    requires Holds(ready, a) <==> IsCached(s.cache, a) || LiveBelow(s.levels, a, r + 1)
    ensures (Get(m, a) != 0 || s.hadInitial) ==> exists l :: l > r && LiveAt(s.levels, l, a)
  {
    if Get(m, a) != 0 || s.hadInitial {
      assert Located(s, a);
      if i :| CachedAt(s.cache, i, a) {
        assert IsCached(s.cache, a);
      } else {
        var l :| LiveAt(s.levels, l, a);
        assert !LiveBelow(s.levels, a, r + 1) && l > r;
      }
    }
  }

  lemma RebuiltComplete(s: State, s1: State, m: Memory, r: nat, ready: seq<Row>, c: Coin, t: Table)
    requires RebuiltAs(s, s1, r, t) && BuiltOn(s, r, ready, c, t) && Faithful(ready, s.cfg.N(), m)
    requires forall a: nat {:trigger Holds(ready, a)} :: a < s.cfg.N() && !Holds(ready, a) ==>
      (s.hadInitial ==> exists l :: l > r && LiveAt(s.levels, l, a))
    ensures Complete(s1)
  {
    SameConfig(s, s1, r, t);
    if s1.hadInitial {
      forall a: nat | a < s1.cfg.N() ensures Located(s1, a) {
        LocatedRebuilt(s, s1, m, r, ready, c, t, a);
      }
    }
  }

  /** A rebuild of a full cache succeeds unless its sort is too long, and then it keeps every invariant
      and the represented memory. */
  lemma RebuildOk(s: State, m: Memory, o: Oracle)
    requires Inv(s) && Represents(s, m) && s.cache.numStored == s.cfg.S() && Good(o)
    ensures Rebuild(s, o).Ok? <==> !SortOverflows(s)
    ensures Rebuild(s, o).Ok? ==> var s1 := Rebuild(s, o).value;
      Inv(s1) && Represents(s1, m) && s1.cfg == s.cfg && s1.cache.numStored == s.cfg.stash < s.cfg.S()
      && s1.rebuilds == s.rebuilds + 1 && s1.hadInitial == s.hadInitial && BottomKept(s, s1)
  {
    var r := TargetFrom(s.cfg, s.digits, 0);
    var rows := PreparedOk(s, m, o, r);
    if SortOverflows(s) {
      RebuildCrashes(s, o, r, rows);
    } else {
      RebuildPrepared(s, m, o, r, rows, Prepared(s, r, rows, o).value);
    }
  }

  lemma RebuildCrashes(s: State, o: Oracle, r: nat, rows: seq<Row>)
    requires StateShaped(s) && r == TargetFrom(s.cfg, s.digits, 0)
    requires Collected(s, if NeedExtract(s, r) then r + 1 else r) == Ok(rows) && Prepared(s, r, rows, o).Crash?
    ensures Rebuild(s, o).Crash?
  {
    hide Collected, Prepared, Install, AfterDeletes, TargetFrom, NeedExtract, StateShaped;
  }

  lemma RebuildPrepared(s: State, m: Memory, o: Oracle, r: nat, rows: seq<Row>, ready: seq<Row>)
    requires Inv(s) && Represents(s, m) && s.cache.numStored == s.cfg.S() && Good(o) && StateShaped(s)
    requires r == TargetFrom(s.cfg, s.digits, 0)
    requires Collected(s, if NeedExtract(s, r) then r + 1 else r) == Ok(rows) && Prepared(s, r, rows, o) == Ok(ready)
    requires Collects(s, m, rows, r + 1) && Buildable(s, m, rows, ready, s.cfg.NumElementsAt(r, NextDigit(s, r)))
    ensures Rebuild(s, o).Ok?
    ensures var s1 := Rebuild(s, o).value;
      Inv(s1) && Represents(s1, m) && s1.cfg == s.cfg && s1.cache.numStored == s.cfg.stash < s.cfg.S()
      && s1.rebuilds == s.rebuilds + 1 && s1.hadInitial == s.hadInitial && BottomKept(s, s1)
  {
    TargetOk(s, r);
    hide Represents, Collected, Prepared, Collects, Rebuild, RebuiltAs, BuiltOn, StateShaped, TargetFrom, NeedExtract, MaxBelow, BottomKept;
    var c, t := RebuildForm(s, o, r, rows, ready);
    var s1 := Rebuild(s, o).value;
    RebuiltOk(s, s1, m, r, rows, ready, c, t);
    SameConfig(s, s1, r, t);
    StashCount(s, s1, r, t);
    BottomRebuilt(s, s1, r, t);
  }

  /** A rebuild makes the bottom level live exactly if it goes there. */
  ghost predicate BottomKept(s: State, s1: State) {
    && |s.digits| == |s1.digits| == s.cfg.numLevels > 0
    && (s1.digits[s.cfg.Bottom()] != 0 <==> s.digits[s.cfg.Bottom()] != 0 || TargetFrom(s.cfg, s.digits, 0) == s.cfg.Bottom())
  }

  lemma BottomRebuilt(s: State, s1: State, r: nat, t: Table)
    requires Shape(s) && RebuiltAs(s, s1, r, t) && r == TargetFrom(s.cfg, s.digits, 0)
    ensures BottomKept(s, s1)
  {
    hide StashCached, TargetFrom;
  }

  lemma StashCount(s: State, s1: State, r: nat, t: Table)
    requires RebuiltAs(s, s1, r, t)
    ensures s1.cache.numStored == s.cfg.stash
  {
    assert StashCached(s1, r, t);
  }

  // --------------------------------------------------------------- accesses

  /** An access returns the represented value and writes through to the represented memory, whatever
      rebuild it triggers; it fails only at the rebuild whose sort is too long. */
  lemma AccessOk(s: State, m: Memory, x: nat, write: Option<nat>, o: Oracle)
    requires Inv(s) && Represents(s, m) && x < s.cfg.N() && Good(o)
    ensures Access(s, x, write, o).Ok? <==> !(Full(s) && SortOverflows(s))
    ensures Access(s, x, write, o).Ok? ==>
      var (s1, value) := Access(s, x, write, o).value;
      && value == Get(m, x) && Inv(s1) && Represents(s1, m[x := if write.Some? then write.value else value])
      && s1.cfg == s.cfg && s1.hadInitial == s.hadInitial
      && s1.rebuilds == (if Full(s) then s.rebuilds + 1 else s.rebuilds)
      && s1.cache.numStored == (if Full(s) then s.cfg.stash else s.cache.numStored) + 1
      && if Full(s) then BottomKept(s, s1) else s1.digits == s.digits
  {
    hide BottomKept;
    if Full(s) { RebuildOk(s, m, o); }
    if !(Full(s) && SortOverflows(s)) {
      var s1 := MakeRoom(s, o).value;
      Accessing.AccessNowOk(s1, m, x, write);
      SteppedKeeps(s1, AccessNow(s1, x, write).value.0, x, if write.Some? then write.value else Get(m, x));
      if Full(s) { BottomSame(s, s1, AccessNow(s1, x, write).value.0); }
    }
  }

  lemma BottomSame(s: State, s1: State, s2: State)
    requires BottomKept(s, s1) && s2.digits == s1.digits
    ensures BottomKept(s, s2)
  {
  }

  lemma SteppedKeeps(s: State, s1: State, x: nat, v: nat)
    requires Accessing.Stepped(s, s1, x, v)
    ensures s1.cfg == s.cfg && s1.hadInitial == s.hadInitial && s1.rebuilds == s.rebuilds
    ensures s1.digits == s.digits && s1.cache.numStored == s.cache.numStored + 1
  {
  }
}
