/** What every reachable state of the hierarchy keeps, and how it represents a plain map. */
module Invariants {
  import opened Words
  import opened Tables
  import opened Caches
  import opened Doram

  /** The value of the digits below level `l` in base `amp`. */
  function LowSum(digits: seq<nat>, amp: nat, l: nat): nat
    requires l <= |digits|
  {
    if l == 0 then 0 else LowSum(digits, amp, l - 1) + digits[l - 1] * Power(amp, l - 1)
  }

  /** How many queries a live table of level `l` has answered: one per access since it was built. */
  function Spent(s: State, l: nat): int
    requires l <= |s.digits|
  {
    s.cfg.Fill() * LowSum(s.digits, s.cfg.Amp(), l) + s.cache.numStored - s.cfg.stash
  }

  ghost predicate Shape(s: State) {
    && s.cfg.Valid() && s.cache.Shaped() && |s.cache.addrs| == s.cfg.S()
    && s.cfg.stash <= s.cache.numStored
    && |s.levels| == |s.digits| == s.cfg.numLevels
    && (forall l {:trigger s.digits[l]} :: 0 <= l < s.cfg.Bottom() ==> s.digits[l] < s.cfg.Amp())
    && s.digits[s.cfg.Bottom()] <= 1
    && (forall l {:trigger s.levels[l]} :: 0 <= l < s.cfg.numLevels ==> (s.levels[l].Some? <==> s.digits[l] != 0))
    && (s.hadInitial ==> s.levels[s.cfg.Bottom()].Some?)
  }

  /** A live level holds a well-formed table with the size of its digit that has spent its due. */
  ghost predicate LevelOk(s: State, l: nat)
    requires |s.levels| == |s.digits| && l < |s.levels|
  {
    s.levels[l].Some? ==>
      var t := s.levels[l].value;
      && TableInv(t) && t.params.logN == s.cfg.logN && t.params.stashSize == s.cfg.stash
      && t.params.numDummies == s.cfg.NumDummies(l)
      && t.params.numElements == s.cfg.NumElementsAt(l, s.digits[l])
      && t.count == Spent(s, l)
  }

  ghost predicate LevelsOk(s: State)
    requires |s.levels| == |s.digits|
  {
    forall l: nat {:trigger s.levels[l]} :: l < |s.levels| ==> LevelOk(s, l)
  }

  /** `a` has an untouched copy in level `l`. */
  ghost predicate LiveAt(levels: seq<Option<Table>>, l: int, a: nat) {
    0 <= l < |levels| && levels[l].Some? && Live(levels[l].value, a)
  }

  ghost predicate AskedAt(levels: seq<Option<Table>>, l: int, a: nat) {
    0 <= l < |levels| && levels[l].Some? && a in levels[l].value.asked
  }

  ghost predicate CachedAt(c: Cache, i: int, a: nat) {
    c.Shaped() && 0 <= i < c.numStored && c.addrs[i] == a
  }

  ghost predicate CacheOk(s: State) {
    s.cache.Shaped() && forall i {:trigger s.cache.addrs[i]} :: 0 <= i < s.cache.numStored ==> s.cache.addrs[i] < 2 * s.cfg.N()
  }

  /** Each real address has at most one live copy, in a cache row or in one level. */
  ghost predicate Unique(s: State) {
    && (forall a: nat, i, j {:trigger CachedAt(s.cache, i, a), CachedAt(s.cache, j, a)} :: a < s.cfg.N() && CachedAt(s.cache, i, a) && CachedAt(s.cache, j, a) ==> i == j)
    && (forall a: nat, i, l {:trigger CachedAt(s.cache, i, a), LiveAt(s.levels, l, a)} :: a < s.cfg.N() && CachedAt(s.cache, i, a) ==> !LiveAt(s.levels, l, a))
    && (forall a: nat, l, k {:trigger LiveAt(s.levels, l, a), LiveAt(s.levels, k, a)} :: a < s.cfg.N() && LiveAt(s.levels, l, a) && LiveAt(s.levels, k, a) ==> l == k)
  }

  /** `a` sits in the cache without the alibi bit of level `l`. */
  ghost predicate CachedWithout(c: Cache, a: nat, l: int) {
    exists i :: CachedAt(c, i, a) && l !in c.data[i].alibi
  }

  ghost predicate LiveBelow(levels: seq<Option<Table>>, a: nat, l: int) {
    exists k :: k < l && LiveAt(levels, k, a)
  }

  /** An address whose real tag level `l` has seen is found before `l` or hidden from it by its cache row,
      so level `l` never sees that tag again. */
  ghost predicate NoRepeats(s: State) {
    forall a: nat, l {:trigger AskedAt(s.levels, l, a)} :: a < s.cfg.N() && AskedAt(s.levels, l, a) ==>
      CachedWithout(s.cache, a, l) || LiveBelow(s.levels, a, l)
  }

  ghost predicate Located(s: State, a: nat) {
    (exists i :: CachedAt(s.cache, i, a)) || (exists l :: LiveAt(s.levels, l, a))
  }

  /** A hierarchy created with a full bottom level holds every address somewhere. */
  ghost predicate Complete(s: State) {
    s.hadInitial ==> forall a: nat {:trigger Located(s, a)} :: a < s.cfg.N() ==> Located(s, a)
  }

  /** The cached key lists are those of the live levels. */
  ghost predicate KeysOk(s: State) {
    && (s.queryKey.Some? ==> s.queryKey.value == LiveKeys(s.levels, 0))
    && (s.batchKeys.Some? ==> s.batchKeys.value.1 == Repeat(LiveKeys(s.levels, 0), s.batchKeys.value.0))
  }

  /** The digits count the rebuilds in base `amp`. */
  ghost predicate Odometer(s: State)
    requires |s.digits| == s.cfg.numLevels > 0
  {
    LowSum(s.digits, s.cfg.Amp(), s.cfg.Bottom()) == s.rebuilds % Power(s.cfg.Amp(), s.cfg.Bottom())
  }

  ghost predicate Inv(s: State) {
    && Shape(s) && LevelsOk(s) && CacheOk(s) && Unique(s) && NoRepeats(s) && Complete(s) && KeysOk(s) && Odometer(s)
  }

  // ------------------------------------------------------------ the plain map

  type Memory = map<nat, nat>

  /** The default value is 0. */
  function Get(m: Memory, a: nat): nat { if a in m then m[a] else 0 }

  /** Every live copy carries the map's value, and an address without a copy has the default. */
  ghost predicate Represents(s: State, m: Memory) {
    && (forall a: nat, i {:trigger CachedAt(s.cache, i, a)} :: a < s.cfg.N() && CachedAt(s.cache, i, a) ==> s.cache.data[i].value == Get(m, a))
    && (forall a: nat, l {:trigger LiveAt(s.levels, l, a)} :: a < s.cfg.N() && LiveAt(s.levels, l, a) ==> LevelValue(s.levels[l].value, a, Get(m, a)))
    && (forall a: nat {:trigger Located(s, a)} :: a < s.cfg.N() && !Located(s, a) ==> Get(m, a) == 0)
    && (forall a :: a in m ==> a < s.cfg.N())
  }

  ghost predicate LevelValue(t: Table, a: nat, v: nat) {
    a in t.slots && t.slots[a] < |t.ys| && t.ys[t.slots[a]].value == v
  }
}
