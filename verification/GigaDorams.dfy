/** The hierarchy as an object: the steps of each operation on its fields, proved to be those of the model. */
module GigaDorams {
  import opened Arithmetic
  import opened Words
  import opened Tables
  import opened Caches
  import opened Doram
  import opened Invariants
  import opened Rows
  import opened Permutations
  import opened OhTables
  import opened SpeedCaches
  import Accessing
  import Refinement
  import Rebuilding
  import Growing
  import Runs
  import Batching
  import Sorting
  import Collect
  import Sizes

  /** The random choices of one operation: each build's, each shuffle, and a tag for every query of every level. */
  datatype Random = Random(build: (nat, Params) -> Draws, shuffle: (nat, nat) -> Perm, blank: (nat, nat, nat) -> nat)

  ghost predicate Fair(r: Random, enc: Cipher) {
    && (forall t: nat, p: Params {:trigger r.build(t, p)} :: DrawsOk(p, r.build(t, p)) && r.build(t, p).key in enc.keys)
    && (forall t: nat, n: nat {:trigger r.shuffle(t, n)} :: IsPerm(r.shuffle(t, n), n))
    && (forall t: nat, l: nat, q: nat {:trigger r.blank(t, l, q)} :: BlankTag(enc, r.blank(t, l, q)))
  }

  ghost predicate AllBlank(enc: Cipher, blank: (nat, nat) -> nat) {
    forall l: nat, q: nat {:trigger blank(l, q)} :: BlankTag(enc, blank(l, q))
  }

  /** Keys of the run. */
  ghost predicate Allowed(enc: Cipher, keys: seq<nat>) {
    forall i {:trigger keys[i]} :: 0 <= i < |keys| ==> keys[i] in enc.keys
  }

  ghost predicate Narrow(xs: seq<nat>) {
    forall i {:trigger xs[i]} :: 0 <= i < |xs| ==> xs[i] < TWO32
  }

  lemma {:induction false} LiveAllowed(enc: Cipher, levels: seq<Option<Table>>, l: nat)
    requires forall k {:trigger levels[k]} :: 0 <= k < |levels| && levels[k].Some? ==> levels[k].value.key in enc.keys
    ensures Allowed(enc, LiveKeys(levels, l))
    decreases |levels| - l
  {
    if l < |levels| { LiveAllowed(enc, levels, l + 1); }
  }

  lemma {:induction false} RepeatAllowed(enc: Cipher, keys: seq<nat>, n: nat)
    requires Allowed(enc, keys)
    ensures Allowed(enc, Repeat(keys, n))
  {
    if n > 0 { RepeatAllowed(enc, keys, n - 1); }
  }

  /** Fair choices exist for any nonempty set of fewer than 2^64 - 1 keys. */
  lemma FairExists(keys: set<nat>, key: nat)
    requires key in keys && |keys| < TWO64 - 1
    ensures exists r: Random :: Ideal(NumberedCipher(keys)) && Fair(r, NumberedCipher(keys))
  {
    IdealExists(keys);
    var r := Random((t: nat, p: Params) => Draws(key, Permutations.Identity(p.Total()), Permutations.Identity(p.Total()), Permutations.Identity(p.Total()),
                                                 Permutations.Identity(p.numElements), Permutations.Identity(p.Total())),
                    (t: nat, n: nat) => Runs.Identity(n), (t: nat, l: nat, q: nat) => TWO32 * (TWO96 - 1));
    hide Ideal, BlankTag;
    assert Fair(r, NumberedCipher(keys));
  }

  ghost function LevelOf(t: OhTable?): Option<Table>
    reads t
  {
    if t == null then None else Some(t.model)
  }

  ghost function LevelsOf(ts: seq<OhTable?>): (r: seq<Option<Table>>)
    reads set t | t in ts
    ensures |r| == |ts| && forall l {:trigger r[l]} :: 0 <= l < |r| ==> r[l] == LevelOf(ts[l])
  {
    if ts == [] then [] else LevelsOf(ts[..|ts| - 1]) + [LevelOf(ts[|ts| - 1])]
  }

  class GigaDoram {
    const enc: Cipher
    var config: Config
    var speedCache: SpeedCache
    var levels: seq<OhTable?>
    var baseBStateVec: seq<nat>
    var packedQueryKey: Option<seq<nat>>
    var packedBatchQueryKeys: Option<(nat, seq<nat>)>
    var hadInitialBottomLevel: bool
    ghost var built: nat
    ghost var rebuilds: nat
    ghost var memory: Memory
    ghost var Repr: set<object>

    /** The parts belong to this object, and no two levels share one. */
    ghost predicate Parts() reads this, Repr {
      && this in Repr && speedCache in Repr && speedCache.Valid()
      && (forall l {:trigger levels[l]} :: 0 <= l < |levels| && levels[l] != null ==>
            && levels[l] in Repr && levels[l].receiverShuffle in Repr && levels[l].enc == enc && levels[l].Valid())
      && (forall l, k {:trigger levels[l], levels[k]} :: 0 <= l < k < |levels| && levels[l] != null && levels[k] != null ==>
            levels[l] != levels[k] && levels[l].receiverShuffle != levels[k].receiverShuffle)
    }

    ghost function LevelsView(): (r: seq<Option<Table>>)
      reads this, Repr
      requires Parts()
      ensures |r| == |levels|
      ensures forall l {:trigger r[l]} :: 0 <= l < |r| ==> r[l] == LevelOf(levels[l])
    {
      LevelsOf(levels)
    }

    ghost function View(): State
      reads this, Repr
      requires Parts()
    {
      State(config, speedCache.View(), LevelsView(), baseBStateVec, packedQueryKey, packedBatchQueryKeys, hadInitialBottomLevel, built, rebuilds)
    }

    /** The object is in a reachable state and represents `memory`. */
    ghost predicate Valid() reads this, Repr {
      && Parts() && Inv(View()) && Represents(View(), memory) && Ideal(enc)
      && speedCache.length == config.S() && speedCache.sentinel == config.N()
    }

    /** A hierarchy without levels. */
    constructor Bare(config: Config, enc: Cipher, hadInitial: bool)
      requires config.Valid()
      ensures Parts() && fresh(Repr) && this.enc == enc && this.config == config && hadInitialBottomLevel == hadInitial
      ensures View() == Empty(config, hadInitial) && built == 0 && |levels| == |baseBStateVec| == config.numLevels
      ensures speedCache.length == config.S() && speedCache.sentinel == config.N()
    {
      this.config, this.enc := config, enc;
      var cache := new SpeedCache(config.S(), config.N());
      speedCache := cache;
      levels, baseBStateVec := seq(config.numLevels, _ => null), seq(config.numLevels, _ => 0);
      packedQueryKey, packedBatchQueryKeys, hadInitialBottomLevel := None, None, hadInitial;
      built, rebuilds, memory, Repr := 0, 0, map[], {this, cache};
      new;
      AllVacant(levels);
    }

    /** `new_with_initial_bottom_level`: refused unless there is a value for every address. */
    static method NewWithInitialBottomLevel(config: Config, enc: Cipher, ys: seq<nat>, random: Random) returns (result: Outcome<GigaDoram>)
      requires config.Valid() && Ideal(enc) && Fair(random, enc)
      ensures result.Refused? <==> |ys| != config.N()
      ensures result.Ok? ==> var d := result.value;
        && d.Valid() && fresh(d.Repr) && d.config == config && d.memory == Growing.MemoryOf(ys) && d.hadInitialBottomLevel
        && StartsFull(config, ys, d.View())
      ensures result.Crash? <==> |ys| == config.N() && BuildFails(enc, random, 0, config, config.numLevels - 1, Growing.InitialRows(ys), 1)
    {
      hide *;
      if |ys| != config.N() { return Refused; }
      var d := new GigaDoram.Bare(config, enc, true);
      d.Remember(Growing.MemoryOf(ys));
      Growing.InitialWhole(config, ys);
      EmptyBuilt(config, true);
      ghost var o;
      var ok;
      ok, o := d.InstallBottom(Growing.InitialRows(ys), random, 0);
      result := if ok then Ok(d) else Crash;
      if ok {
        d.ValidParts();
        StartedFull(config, ys, d.View(), o, random);
      }
    }

    /** `new`: every address has the default value. */
    constructor New(config: Config, enc: Cipher)
      requires config.Valid() && Ideal(enc)
      ensures Valid() && fresh(Repr) && this.enc == enc && this.config == config && !hadInitialBottomLevel
      ensures Doram.New(config) == Ok(View()) && memory == map[]
    {
      this.config, this.enc := config, enc;
      var cache := new SpeedCache(config.S(), config.N());
      speedCache := cache;
      levels, baseBStateVec := seq(config.numLevels, _ => null), seq(config.numLevels, _ => 0);
      packedQueryKey, packedBatchQueryKeys, hadInitialBottomLevel := None, None, false;
      built, rebuilds, memory, Repr := 0, 0, map[], {this, cache};
      new;
      speedCache.Skip(config.stash);
      assert CacheSkip(NewCache(config.S(), config.N()), config.stash) == Ok(speedCache.View());
      Growing.NewOk(config);
      assert LevelsView() == seq(config.numLevels, _ => None);
      assert View() == Doram.New(config).value;
    }

    /** The keys of the live levels, for the packed query. */
    method PackQueryKey()
      requires Parts()
      modifies this`packedQueryKey
      ensures Parts() && LevelsOf(levels) == old(LevelsOf(levels))
      ensures packedQueryKey == Some(if old(packedQueryKey).Some? then old(packedQueryKey).value else LiveKeys(old(LevelsOf(levels)), 0))
    {
      if packedQueryKey.None? {
        var keys := CollectKeys();
        packedQueryKey := Some(keys);
      }
    }

    lemma Owned(l: nat)
      requires Parts() && l < |levels| && levels[l] != null
      ensures levels[l] in Repr && levels[l].receiverShuffle in Repr && levels[l].Valid() && levels[l].enc == enc
      ensures (levels[l] as object) != this && (levels[l] as object) != speedCache
      ensures (levels[l].receiverShuffle as object) != this && (levels[l].receiverShuffle as object) != speedCache
      ensures LevelsOf(levels)[l] == Some(levels[l].model)
    {
    }

    /** One live level answers one query. */
    method QueryTable(l: nat, x: nat, key: nat, useDummy: bool, blank: nat) returns (y: Record, hit: bool)
      requires Parts() && l < |levels| && levels[l] != null && BlankTag(enc, blank) && Askable(enc, Tag(key, x))
      requires Query(levels[l].model, Tag(key, x), useDummy).Ok?
      modifies levels[l], levels[l].receiverShuffle
      ensures Parts() && LevelsOf(levels) == old(LevelsOf(levels))[l := Some(levels[l].model)]
      ensures Query(old(levels[l].model), Tag(key, x), useDummy) == Ok((levels[l].model, y, hit))
    {
      ghost var before := LevelsOf(levels);
      Owned(l);
      y, hit := levels[l].Query(enc.Block(key, x), useDummy, blank, Tag(key, x));
      forall k | 0 <= k < |levels| && k != l ensures LevelsOf(levels)[k] == before[k] {
        assert LevelOf(levels[k]) == old(LevelOf(levels[k]));
      }
      assert LevelsOf(levels)[l] == LevelOf(levels[l]);
      assert LevelsOf(levels) == before[l := Some(levels[l].model)];
    }

    /** The keys of the live levels are keys of the run. */
    lemma KeysAllowed()
      requires Parts()
      ensures Allowed(enc, LiveKeys(LevelsOf(levels), 0))
    {
      ghost var view := LevelsOf(levels);
      forall k {:trigger view[k]} | 0 <= k < |view| && view[k].Some? ensures view[k].value.key in enc.keys {
        Owned(k);
        levels[k].KeyAllowed();
      }
      LiveAllowed(enc, view, 0);
    }

    /** The level loop of an access. */
    method QueryTables(x: nat, acc0: Record, found0: bool, blank: (nat, nat) -> nat, ghost keys: seq<nat>) returns (acc: Record)
      requires Parts() && packedQueryKey == Some(keys) && Allowed(enc, keys) && x < TWO32
      requires AllBlank(enc, blank)
      requires QueryLevels(LevelsOf(levels), 0, keys, x, acc0, found0).Ok?
      modifies Repr - {this, speedCache}
      ensures Parts()
      ensures var r := QueryLevels(old(LevelsOf(levels)), 0, keys, x, acc0, found0); r.value.0 == LevelsOf(levels) && r.value.1 == acc
    {
      hide Parts, LevelsOf, BlankTag, Query;
      var found, pos := found0, 0;
      acc := acc0;
      ghost var start := QueryLevels(LevelsOf(levels), 0, keys, x, acc0, found0);
      assert keys[0..] == keys;
      for l := 0 to |levels|
        invariant Parts() && pos <= |keys|
        invariant QueryLevels(LevelsOf(levels), l, keys[pos..], x, acc, found) == start
      {
        if levels[l] != null {
          Owned(l);
          assert keys[pos..] != [];
          assert keys[pos..][0] == keys[pos] && keys[pos..][1..] == keys[pos + 1..];
          var useDummy := (l in acc.alibi) != found;
          var y, hit := QueryTable(l, x, packedQueryKey.value[pos], useDummy, blank(l, 0));
          acc, found, pos := XorRecord(acc, y), found != hit, pos + 1;
        } else {
          assert LevelsOf(levels)[l] == None;
        }
      }
    }

    lemma ValidParts()
      requires Valid()
      ensures Parts() && speedCache.Valid() && speedCache.length == config.S() && speedCache.sentinel == config.N() && View().cache.Shaped()
      ensures KeysOk(View()) && Inv(View()) && Represents(View(), memory) && Ideal(enc)
      ensures packedQueryKey.Some? ==> packedQueryKey.value == LiveKeys(LevelsOf(levels), 0)
    {
    }

    lemma ViewFields()
      requires Parts()
      ensures View() == State(config, speedCache.View(), LevelsOf(levels), baseBStateVec, packedQueryKey, packedBatchQueryKeys, hadInitialBottomLevel, built, rebuilds)
    {
    }

    lemma MakeValid()
      requires Parts() && Inv(View()) && Represents(View(), memory) && Ideal(enc)
      requires speedCache.length == config.S() && speedCache.sentinel == config.N()
      ensures Valid()
    {
    }

    /** The cache's part of an access; the levels stay as they are. */
    method QueryCache(x: nat) returns (acc: Record, found: bool)
      requires Parts()
      modifies speedCache`addrs
      ensures Parts() && LevelsOf(levels) == old(LevelsOf(levels)) && CacheQuery(old(speedCache.View()), x, speedCache.sentinel) == (speedCache.View(), acc, found)
    {
      ghost var before := LevelsOf(levels);
      acc, found := speedCache.Query(x);
      LevelsSame(before);
    }

    method WriteCache(xs: seq<nat>, ys: seq<Record>)
      requires Parts() && |xs| == |ys| && speedCache.numStored < speedCache.length && speedCache.numStored + |xs| <= speedCache.length
      modifies speedCache
      ensures Parts() && LevelsOf(levels) == old(LevelsOf(levels)) && CacheWrite(old(speedCache.View()), xs, ys) == Ok(speedCache.View())
    {
      ghost var before := LevelsOf(levels);
      ghost var was := speedCache.View();
      speedCache.Write(xs, ys);
      WriteAppends(was, xs, ys, speedCache.View());
      LevelsSame(before);
    }

    lemma PartsOwned()
      requires Parts()
      ensures this in Repr && speedCache in Repr && (speedCache as object) != this && speedCache.Valid()
      ensures speedCache.View().Shaped() && |speedCache.View().addrs| == speedCache.length && speedCache.View().numStored == speedCache.numStored
    {
    }

    lemma LevelsSame(before: seq<Option<Table>>)
      requires |before| == |levels| && forall l {:trigger before[l]} :: 0 <= l < |before| ==> before[l] == LevelOf(levels[l])
      ensures LevelsOf(levels) == before
    {
    }

    /** The steps of an access whose level loop goes through. */
    method AccessSteps(x: nat, write: Option<nat>, blank: (nat, nat) -> nat, ghost keys: seq<nat>) returns (value: nat, v: nat)
      requires Parts() && speedCache.numStored < speedCache.length && speedCache.sentinel == config.N() && Allowed(enc, keys) && x < TWO32
      requires keys == (if packedQueryKey.Some? then packedQueryKey.value else LiveKeys(LevelsOf(levels), 0))
      requires AllBlank(enc, blank)
      requires var q := CacheQuery(speedCache.View(), x, config.N()); QueryLevels(LevelsOf(levels), 0, keys, x, q.1, q.2).Ok?
      modifies Repr
      ensures Parts() && Repr == old(Repr) && config == old(config) && hadInitialBottomLevel == old(hadInitialBottomLevel) && speedCache == old(speedCache)
      ensures baseBStateVec == old(baseBStateVec) && packedBatchQueryKeys == old(packedBatchQueryKeys) && built == old(built) && rebuilds == old(rebuilds)
      ensures memory == old(memory) && packedQueryKey == Some(keys) && v == if write.Some? then write.value else value
      ensures
        var q := CacheQuery(old(speedCache.View()), x, config.N());
        var r := QueryLevels(old(LevelsOf(levels)), 0, keys, x, q.1, q.2);
        && LevelsOf(levels) == r.value.0 && value == r.value.1.value
        && CacheWrite(q.0, [x], [Record(v, {})]) == Ok(speedCache.View())
    {
      hide *;
      PartsOwned();
      PackQueryKey();
      var acc0, found0 := QueryCache(x);
      var acc := QueryTables(x, acc0, found0, blank, keys);
      value := acc.value;
      v := if write.Some? then write.value else value;
      WriteCache([x], [Record(v, {})]);
    }

    ghost method Remember(m: Memory)
      requires Parts()
      modifies this`memory
      ensures Parts() && View() == old(View()) && memory == m
    {
      memory := m;
    }

    /** `read_and_maybe_write` while the cache has room. */
    method AccessNow(x: nat, write: Option<nat>, blank: (nat, nat) -> nat) returns (value: nat)
      requires Valid() && x < config.N() && speedCache.numStored < speedCache.length
      requires AllBlank(enc, blank)
      modifies Repr
      ensures Valid() && Repr == old(Repr) && config == old(config) && hadInitialBottomLevel == old(hadInitialBottomLevel)
      ensures value == Get(old(memory), x) && memory == old(memory)[x := if write.Some? then write.value else value]
      ensures Parts() && View().cache.Shaped() && old(View().cache.Shaped()) && Doram.AccessNow(old(View()), x, write) == Ok((View(), value))
    {
      hide *;
      ValidParts();
      PartsOwned();
      ViewFields();
      ghost var s, m := View(), memory;
      Accessing.InvParts(s);
      Accessing.AccessNowOk(s, m, x, write);
      NowSteps(s, x, write);
      KeysAllowed();
      NarrowSpace(s);
      ghost var v;
      value, v := AccessSteps(x, write, blank, LiveKeys(s.levels, 0));
      Remember(memory[x := v]);
      ViewFields();
      MakeValid();
    }

    // ------------------------------------------------------------- rebuilding

    /** `rebuild_target`: the first level whose digit can grow, and whether it is live. */
    method RebuildTarget() returns (r: nat, need: bool)
      requires |levels| == |baseBStateVec| == config.numLevels > 0
      ensures r == TargetFrom(config, baseBStateVec, 0)
      ensures need == if r == config.numLevels - 1 then baseBStateVec[r] != 0 else levels[r] != null
    {
      r, need := 0, false;
      while r < config.numLevels - 1
        invariant r <= config.numLevels - 1 && TargetFrom(config, baseBStateVec, r) == TargetFrom(config, baseBStateVec, 0)
        invariant !need
        decreases config.numLevels - r
      {
        if baseBStateVec[r] < config.Amp() - 1 {
          need := levels[r] != null;
          break;
        }
        r := r + 1;
      }
      if r == config.numLevels - 1 { need := baseBStateVec[r] != 0; }
    }

    /** The rows of the spent levels below `last`, each level padded to its element count. */
    method ExtractLevels(last: nat) returns (rows: seq<Row>)
      requires Parts() && last <= |levels| == |baseBStateVec| && LevelsShaped(LevelsOf(levels))
      requires Gather(config, LevelsOf(levels), baseBStateVec, last).Ok?
      ensures Gather(config, LevelsOf(levels), baseBStateVec, last) == Ok(rows)
    {
      rows := [];
      ghost var view := LevelsOf(levels);
      hide Parts, LevelsOf, Extract, LevelShaped;
      for l := 0 to last
        invariant Gather(config, view, baseBStateVec, l) == Ok(rows)
      {
        GatherOk(config, view, baseBStateVec, l + 1, last);
        if levels[l] != null {
          Owned(l);
          var xs, ys := levels[l].Extract();
          var n := config.NumElementsAt(l, baseBStateVec[l]);
          rows := rows + (RowsOf(xs, ys) + DummyRows(n - |xs|, config.N()));
        } else {
          Vacant(l);
        }
      }
    }

    lemma LiveLevels()
      requires Parts()
      ensures forall l {:trigger levels[l]} :: 0 <= l < |levels| ==> (LevelsOf(levels)[l].Some? <==> levels[l] != null)
    {
    }

    lemma Vacant(l: nat)
      requires Parts() && l < |levels| && levels[l] == null
      ensures LevelsOf(levels)[l] == None
    {
    }

    /** `relabel_dummies`: every label fits the 32-bit address type. */
    method RelabelDummies(rows: seq<Row>) returns (relabeled: seq<Row>)
      requires Relabel(rows, config.logN, config.N()).Ok?
      ensures Relabel(rows, config.logN, config.N()) == Ok(relabeled)
    {
      relabeled := [];
      for i := 0 to |rows|
        invariant |relabeled| == i
        invariant forall j :: 0 <= j < i ==> relabeled[j] == if IsDummy(rows[j].addr, config.logN) then Row(config.N() + j, rows[j].rec) else rows[j]
      {
        var dummy := config.N() + i;
        assert dummy < TWO32;
        relabeled := relabeled + [if IsDummy(rows[i].addr, config.logN) then Row(dummy, rows[i].rec) else rows[i]];
      }
      assert relabeled == Relabel(rows, config.logN, config.N()).value;
    }

    /** `finalize_bottom_level` with its cleansing: refused if the filter does not find every address, and failing
        where the sort is too long for 32-bit positions. */
    method FinalizeBottomLevel(rows: seq<Row>, perm: Perm) returns (result: Outcome<seq<Row>>)
      requires config.Valid() && IsPerm(perm, |rows|)
      ensures Finalize(config, hadInitialBottomLevel, rows, perm) == result
    {
      if hadInitialBottomLevel { result := FilterRows(rows, perm); } else { result := SortRows(rows, perm); }
    }

    /** The shuffled rows that are not dummies. */
    method FilterRows(rows: seq<Row>, perm: Perm) returns (result: Outcome<seq<Row>>)
      requires IsPerm(perm, |rows|)
      ensures Finalize(config, true, rows, perm) == result
    {
      var shuffled := seq(|rows|, j requires 0 <= j < |rows| => rows[perm.from[j]]);
      var ready := [];
      for i := 0 to |shuffled|
        invariant ready == Select(shuffled[..i], config.logN, false)
      {
        assert shuffled[..i + 1][..i] == shuffled[..i];
        if !IsDummy(shuffled[i].addr, config.logN) { ready := ready + [shuffled[i]]; }
      }
      assert shuffled[..|shuffled|] == shuffled;
      result := if |rows| < config.N() || |ready| != config.N() then Refused else Ok(ready);
    }

    /** The rows padded, sorted by their dummy flags, cut and relabelled. */
    method SortRows(rows: seq<Row>, ghost perm: Perm) returns (result: Outcome<seq<Row>>)
      requires config.Valid()
      ensures Finalize(config, false, rows, perm) == result
    {
      var sortLen := NextPow2(|rows|, 1);
      Collect.NextPow2Above(|rows|, 1);
      if sortLen >= TWO32 { return Crash; }
      var padded := rows + DummyRows(sortLen - |rows|, config.N());
      var sorted := Sorting.Partition(DummyFlags(padded, config.logN), padded);
      SortIsPartition(padded, config.logN);
      var cut := if |sorted| <= config.N() then sorted else sorted[..config.N()];
      Relabels(config, cut);
      var ready := RelabelDummies(cut);
      result := Ok(ready);
      hide NextPow2, Relabel, StablePartition, Sorting.Partition, IsDummy;
    }

    method ClearLevel(l: nat)
      requires Parts() && l < |levels|
      modifies this`levels
      ensures Parts() && levels == old(levels)[l := null] && LevelsOf(levels) == old(LevelsOf(levels))[l := None]
    {
      hide OhTable.Valid, OhTable.ValidAt, SpeedCache.Valid;
      ghost var before := LevelsOf(levels);
      levels := levels[l := null];
      LevelsSame(before[l := None]);
    }

    /** New digits and no cached keys. */
    method SetDigits(digits: seq<nat>)
      requires Parts()
      modifies this`packedQueryKey, this`packedBatchQueryKeys, this`baseBStateVec
      ensures Parts() && baseBStateVec == digits && packedQueryKey == None && packedBatchQueryKeys == None
      ensures LevelsOf(levels) == old(LevelsOf(levels)) && speedCache.View() == old(speedCache.View())
    {
      hide OhTable.Valid, OhTable.ValidAt, SpeedCache.Valid;
      packedQueryKey, packedBatchQueryKeys, baseBStateVec := None, None, digits;
    }

    /** `delete_level`. */
    method RemoveLevel(l: nat)
      requires Parts() && l < |levels| == |baseBStateVec|
      modifies this`levels, this`packedQueryKey, this`packedBatchQueryKeys, this`baseBStateVec
      ensures Parts() && View() == DeleteLevel(old(View()), l) && |levels| == |baseBStateVec| == |old(levels)|
    {
      hide Parts, LevelsOf, View;
      ViewFields();
      ClearLevel(l);
      var full := l < config.numLevels - 1 && baseBStateVec[l] == config.Amp() - 1;
      SetDigits(if full then baseBStateVec[l := 0] else baseBStateVec);
      ViewFields();
    }

    /** The deletions of a rebuild into level `r`. */
    method RemoveLevels(r: nat, need: bool)
      requires Parts() && r < |levels| == |baseBStateVec|
      modifies this`levels, this`packedQueryKey, this`packedBatchQueryKeys, this`baseBStateVec
      ensures Parts() && |levels| == |baseBStateVec| == |old(levels)|
      ensures var s1 := DeleteBelow(old(View()), r); View() == if need then DeleteLevel(s1, r) else s1
    {
      ghost var s := View();
      hide DeleteLevel, Parts, LevelsOf;
      for l := 0 to r
        invariant Parts() && |levels| == |baseBStateVec| == |old(levels)| && View() == DeleteBelow(s, l)
      {
        RemoveLevel(l);
      }
      if need { RemoveLevel(r); }
    }

    /** The new table takes its place; nothing else changes. */
    method SetLevel(l: nat, table: OhTable)
      requires Parts() && l < |levels| && table.Valid() && table.enc == enc && table !in Repr && table.receiverShuffle !in Repr
      requires (table as object) != this && (table as object) != speedCache && (table.receiverShuffle as object) != this
      modifies this`levels, this`Repr
      ensures Parts() && |levels| == |old(levels)| && LevelsOf(levels) == old(LevelsOf(levels))[l := Some(table.model)]
      ensures Repr == old(Repr) + {table, table.receiverShuffle} && speedCache.View() == old(speedCache.View())
    {
      hide OhTable.Valid, OhTable.ValidAt, SpeedCache.Valid;
      ghost var before := LevelsOf(levels);
      levels := levels[l := table];
      Repr := Repr + {table, table.receiverShuffle};
      LevelsSame(before[l := Some(table.model)]);
    }

    ghost method CountBuild()
      requires Parts()
      modifies this`built
      ensures Parts() && built == old(built) + 1 && LevelsOf(levels) == old(LevelsOf(levels)) && speedCache.View() == old(speedCache.View())
    {
      hide OhTable.Valid, OhTable.ValidAt, SpeedCache.Valid;
      built := built + 1;
    }

    /** `new_ohtable_of_level`: fails only if the cuckoo table overflows; otherwise the model's table. */
    method NewOhtableOfLevel(l: nat, rows: seq<Row>, draws: Params -> Draws) returns (ok: bool, ghost c: Coin)
      requires Parts() && l < |levels| == |baseBStateVec| == config.numLevels && config.stash <= |rows|
      requires l != config.Bottom() ==> baseBStateVec[l] + 1 < config.Amp()
      requires var p := config.TableParams(l, |rows|, if l == config.Bottom() then 1 else baseBStateVec[l] + 1);
        DrawsOk(p, draws(p)) && Setup(enc, p, rows, draws(p))
      modifies this
      ensures var p := config.TableParams(l, |rows|, if l == config.Bottom() then 1 else old(baseBStateVec)[l] + 1);
        && config == old(config) && p == old(config.TableParams(l, |rows|, if l == config.Bottom() then 1 else baseBStateVec[l] + 1))
        && (ok <==> !Overflows(enc, p, rows, draws(p)))
        && (ok ==> (ValidCoin(p, c) && BuildTable(p, rows, c).Ok? && LevelsOf(levels) == old(LevelsOf(levels))[l := Some(BuildTable(p, rows, c).value)]))
      ensures ok ==> Parts() && fresh(Repr - old(Repr)) && old(Repr) <= Repr && speedCache == old(speedCache) && speedCache.View() == old(speedCache.View())
      ensures baseBStateVec == old(baseBStateVec)[l := if l == config.Bottom() then 1 else old(baseBStateVec)[l] + 1]
      ensures packedQueryKey == None && packedBatchQueryKeys == None && built == old(built) + 1
      ensures hadInitialBottomLevel == old(hadInitialBottomLevel) && rebuilds == old(rebuilds) && memory == old(memory)
    {
      hide *;
      PartsOwned();
      var bottom := l == config.numLevels - 1;
      BottomIs(config);
      var b := if bottom then 1 else baseBStateVec[l] + 1;
      SetDigits(baseBStateVec[l := b]);
      CountBuild();
      var p := config.TableParams(l, |rows|, b);
      var table;
      ok, table, c := MakeTable(p, enc, rows, draws(p));
      if ok { SetLevel(l, table); }
    }

    /** `insert_stash`. */
    method EnterStash(l: nat)
      requires Parts() && l < |levels| && levels[l] != null && Doram.InsertStash(View(), l).Ok?
      modifies speedCache
      ensures Parts() && Doram.InsertStash(old(View()), l) == Ok(View())
    {
      ViewFields();
      Owned(l);
      StashFits(View(), l);
      PartsOwned();
      StashSizes(levels[l]);
      hide *;
      var stashXs, stashYs := levels[l].stashXs, levels[l].stashYs;
      WriteCache(stashXs, Alibied(stashYs, l));
      ViewFields();
    }

    /** A fresh, empty cache. */
    method ResetCache()
      requires Parts()
      modifies this`speedCache, this`Repr
      ensures Parts() && fresh(speedCache) && Repr == old(Repr) + {speedCache} && LevelsOf(levels) == old(LevelsOf(levels))
      ensures speedCache.View() == NewCache(config.S(), config.N()) && speedCache.length == config.S() && speedCache.sentinel == config.N()
    {
      hide OhTable.Valid, OhTable.ValidAt;
      speedCache := new SpeedCache(config.S(), config.N());
      Repr := Repr + {speedCache};
    }

    /** Everything a rebuild into `r` starts from. */
    method CollectRows(last: nat) returns (rows: seq<Row>)
      requires Parts() && StateShaped(View()) && last <= |levels| && Collected(View(), last).Ok?
      ensures Collected(View(), last) == Ok(rows)
    {
      ViewFields();
      PartsOwned();
      hide Parts, LevelsOf, View, Gather, LevelsShaped;
      var xs, ys := speedCache.Extract();
      var below := ExtractLevels(last);
      rows := ClearAlibis(RowsOf(xs, ys) + below);
      assert RowsOf(xs, ys) == StoredRows(speedCache.View());
    }

    /** The rows the new table is built on. */
    method PrepareRows(r: nat, rows: seq<Row>, perm: Perm, ghost o: Oracle) returns (result: Outcome<seq<Row>>)
      requires Parts() && StateShaped(View()) && r < config.numLevels && rows != [] && config.Valid()
      requires r == config.numLevels - 1 || Prepared(View(), r, rows, o).Ok?
      requires perm == o.shuffle(built, |rows|) && IsPerm(perm, |rows|)
      ensures Prepared(View(), r, rows, o) == result
    {
      ViewFields();
      hide Parts, LevelsOf, View, Finalize, Relabel, StateShaped;
      if r == config.numLevels - 1 {
        result := FinalizeBottomLevel(rows, perm);
      } else {
        var ready := RelabelDummies(rows);
        result := Ok(ready);
      }
    }

    /** The rows of a rebuild, unless its sort is too long. */
    method Plan(k: nat, random: Random) returns (fits: bool, r: nat, need: bool, ready: seq<Row>, ghost rows: seq<Row>)
      requires Valid() && Fair(random, enc) && speedCache.numStored == speedCache.length
      ensures fits ==> Planned(View(), memory, FirstOracle(random, k), r, need, rows, ready)
      ensures fits ==> |View().levels| == |View().digits| == View().cfg.numLevels > 0 && !Refinement.SortOverflows(View())
      ensures !fits ==> RebuildFails(View(), enc, random, k)
    {
      hide *;
      ValidParts();
      ghost var s, m := View(), memory;
      PartsOwned();
      ViewFields();
      RebuildStarts(s);
      LiveLevels();
      r, need := RebuildTarget();
      ghost var o := FirstOracle(random, k);
      FirstGood(random, k, enc);
      FirstShuffles(random, k);
      var last := if need then r + 1 else r;
      ghost var gathered := Refinement.PreparedOk(s, m, o, r);
      var collected := CollectRows(last);
      rows := collected;
      FairShuffle(random, enc, k, |collected|);
      PlanReady(s, m, o, r, need, rows);
      var prepared := PrepareRows(r, collected, random.shuffle(k, |collected|), o);
      fits := prepared.Ok?;
      if fits {
        ready := prepared.value;
        MakePlan(s, m, o, r, need, rows, ready);
      } else {
        ready := [];
        Unready(s, enc, random, k, r, need, rows);
      }
    }

    /** `rebuild` of a full cache: unless the sort is too long or the cuckoo table overflows, the model's rebuild,
        which keeps the represented memory. */
    method Rebuild(k: nat, random: Random) returns (ok: bool)
      requires Valid() && Fair(random, enc) && speedCache.numStored == speedCache.length
      modifies Repr
      ensures config == old(config) && memory == old(memory) && hadInitialBottomLevel == old(hadInitialBottomLevel)
      ensures ok ==> Valid() && fresh(Repr - old(Repr)) && speedCache.numStored < speedCache.length
      ensures ok ==> rebuilds == old(rebuilds) + 1
      ensures ok <==> !RebuildFails(old(View()), enc, random, k)
      ensures ok ==> RebuildsTo(old(View()), View())
    {
      hide *;
      ValidParts();
      ghost var s, m := View(), memory;
      ghost var rows;
      var r, need, ready;
      ok, r, need, ready, rows := Plan(k, random);
      if !ok { return; }
      PartsOwned();
      ViewFields();
      PlanParts(s, m, enc, random, k, r, need, rows, ready);
      EmptyLevels(r, need);
      ViewFields();
      ghost var c;
      ok, c := InstallLevel(r, ready, p => random.build(k, p));
      PlanOverflows(s, m, enc, random, k, r, need, rows, ready);
      if !ok { return; }
      PlanDone(s, m, enc, random, k, r, need, rows, ready, c);
      EnterStash(r);
      CountRebuild();
      Settle();
    }

    /** A fresh cache and no spent levels. */
    method EmptyLevels(r: nat, need: bool)
      requires Parts() && r < |levels| == |baseBStateVec|
      modifies this
      ensures Parts() && View() == AfterDeletes(old(View()), r, need) && |levels| == |baseBStateVec| == |old(levels)|
      ensures fresh(Repr - old(Repr)) && fresh(speedCache) && old(Repr) <= Repr && memory == old(memory) && rebuilds == old(rebuilds)
      ensures config == old(config) && hadInitialBottomLevel == old(hadInitialBottomLevel)
      ensures speedCache.length == config.S() && speedCache.sentinel == config.N()
    {
      hide *;
      ghost var s := View();
      ViewFields();
      ResetCache();
      ViewFields();
      RemoveLevels(r, need);
      DeletesAre(s, r, need);
      ViewFields();
    }

    /** The model's new level, in place. */
    method InstallLevel(r: nat, ready: seq<Row>, draws: Params -> Draws) returns (ok: bool, ghost c: Coin)
      requires Parts() && r < |levels| == |baseBStateVec| == config.numLevels && config.stash <= |ready|
      requires r != config.Bottom() ==> baseBStateVec[r] + 1 < config.Amp()
      requires var p := config.TableParams(r, |ready|, Rebuilding.NextDigit(View(), r));
        DrawsOk(p, draws(p)) && Setup(enc, p, ready, draws(p))
      modifies this
      ensures config == old(config) && memory == old(memory) && hadInitialBottomLevel == old(hadInitialBottomLevel) && rebuilds == old(rebuilds)
      ensures ok ==> Parts() && fresh(Repr - old(Repr)) && old(Repr) <= Repr && speedCache == old(speedCache) && r < |levels| && levels[r] != null
      ensures var p := old(config.TableParams(r, |ready|, Rebuilding.NextDigit(View(), r)));
        && (ok <==> !Overflows(enc, p, ready, draws(p)))
        && (ok ==> (ValidCoin(p, c) && BuildTable(p, ready, c).Ok? && View() == Rebuilding.WithTable(old(View()), r, BuildTable(p, ready, c).value)))
    {
      ghost var s := View();
      ViewFields();
      hide *;
      NextDigitIs(s, r);
      ok, c := NewOhtableOfLevel(r, ready, draws);
      if ok {
        ViewFields();
        LiveLevels();
        WithTableIs(s, r, BuildTable(config.TableParams(r, |ready|, Rebuilding.NextDigit(s, r)), ready, c).value);
      }
    }

    /** Reachable again. */
    lemma Settle()
      requires Parts() && Inv(View()) && Represents(View(), memory) && Ideal(enc)
      requires speedCache.length == config.S() && speedCache.sentinel == config.N()
      ensures Valid() && View().cache == speedCache.View() && View().cache.numStored == speedCache.numStored && View().cfg == config
    {
    }

    ghost method CountRebuild()
      requires Parts()
      modifies this`rebuilds
      ensures Parts() && rebuilds == old(rebuilds) + 1 && View() == old(View()).(rebuilds := old(rebuilds) + 1) && LevelsOf(levels) == old(LevelsOf(levels)) && speedCache.View() == old(speedCache.View())
    {
      hide OhTable.Valid, OhTable.ValidAt, SpeedCache.Valid;
      rebuilds := rebuilds + 1;
    }

    // --------------------------------------------------------------- accesses

    /** `read_and_maybe_write`: returns what the memory has at `x` and writes through, after a rebuild if the
        cache is full.  It fails exactly if that rebuild's sort is too long or its cuckoo table overflows. */
    method ReadAndMaybeWrite(x: nat, write: Option<nat>, random: Random, k: nat) returns (ok: bool, value: nat)
      requires Valid() && Fair(random, enc) && x < config.N()
      modifies Repr
      ensures config == old(config) && hadInitialBottomLevel == old(hadInitialBottomLevel)
      ensures ok <==> !(old(Full(View())) && RebuildFails(old(View()), enc, random, k))
      ensures ok ==> Valid() && fresh(Repr - old(Repr)) && AccessesTo(old(View()), x, write, View(), value)
      ensures ok ==> value == Get(old(memory), x) && memory == old(memory)[x := if write.Some? then write.value else value]
    {
      ok, value := true, 0;
      Room();
      ghost var s := View();
      var full := !speedCache.IsWriteable();
      hide *;
      if full {
        RoomFor();
        ok := Rebuild(k, random);
        if !ok { return; }
      }
      ghost var s1 := View();
      var blank := (l: nat, q: nat) => random.blank(k, l, q);
      BlanksAreBlank(random, enc, k, blank);
      value := AccessNow(x, write, blank);
      Accessed(s, s1, x, write, View(), value, random, enc);
    }

    lemma RoomFor()
      requires Valid() && Full(View())
      ensures speedCache.numStored == speedCache.length
    {
    }

    lemma Room()
      requires Valid()
      ensures Full(View()) <==> !speedCache.IsWriteable()
      ensures speedCache.numStored <= speedCache.length
      ensures |View().levels| == |View().digits| == View().cfg.numLevels > 0
    {
    }

    /** `read`. */
    method Read(x: nat, random: Random) returns (ok: bool, value: nat)
      requires Valid() && Fair(random, enc) && x < config.N()
      modifies Repr
      ensures config == old(config) && (ok <==> !(old(Full(View())) && RebuildFails(old(View()), enc, random, 0)))
      ensures ok ==> Valid() && fresh(Repr - old(Repr)) && AccessesTo(old(View()), x, None, View(), value)
      ensures ok ==> value == Get(old(memory), x) && memory == old(memory)[x := value]
    {
      ok, value := ReadAndMaybeWrite(x, None, random, 0);
    }

    /** `write`, which also returns the value before. */
    method Write(x: nat, v: nat, random: Random) returns (ok: bool, value: nat)
      requires Valid() && Fair(random, enc) && x < config.N()
      modifies Repr
      ensures config == old(config) && (ok <==> !(old(Full(View())) && RebuildFails(old(View()), enc, random, 0)))
      ensures ok ==> Valid() && fresh(Repr - old(Repr)) && AccessesTo(old(View()), x, Some(v), View(), value)
      ensures ok ==> value == Get(old(memory), x) && memory == old(memory)[x := v]
    {
      ok, value := ReadAndMaybeWrite(x, Some(v), random, 0);
    }

    // ---------------------------------------------------------------- batches

    /** The tags of one level for all queries of a batch, from the flattened key grid. */
    method BatchTags(grid: seq<nat>, live: nat, pos: nat, xs: seq<nat>) returns (qs: seq<nat>, ghost tags: seq<Tag>)
      requires GridTags(grid, live, pos, xs).Ok? && Allowed(enc, grid) && Narrow(xs)
      ensures GridTags(grid, live, pos, xs) == Ok(tags) && RealTags(enc, qs, tags)
    {
      qs, tags := [], [];
      assert RealTags(enc, qs, tags);
      hide RealTags, Askable, GridTags;
      var base: nat := 0;
      assert grid[0..] == grid && xs[0..] == xs;
      ghost var all := GridTags(grid, live, pos, xs).value;
      assert [] + all == all;
      for q := 0 to |xs|
        invariant |qs| == |tags| == q && base <= |grid| && RealTags(enc, qs, tags)
        invariant GridTags(grid[base..], live, pos, xs[q..]).Ok?
        invariant all == tags + GridTags(grid[base..], live, pos, xs[q..]).value
      {
        GridStep(grid, base, live, pos, xs, q);
        ghost var tag := Tag(grid[base + pos], xs[q]);
        Reassociate(tags, tag, GridTags(grid[base + live..], live, pos, xs[q + 1..]).value);
        MakeAskable(enc, grid, base + pos, xs, q);
        var block := enc.Block(grid[base + pos], xs[q]);
        RealTagsSnoc(enc, qs, tags, block, tag);
        qs, tags := qs + [block], tags + [tag];
        base := base + live;
      }
      GridEnd(grid[base..], live, pos, xs[|xs|..]);
      assert tags + [] == tags;
    }

    /** One live level answers all queries of a batch. */
    method QueryTableMany(l: nat, qs: seq<nat>, useDummies: seq<bool>, randoms: seq<nat>, ghost tags: seq<Tag>) returns (more: seq<(Record, bool)>)
      requires Parts() && l < |levels| && levels[l] != null && RealTags(enc, qs, tags) && |useDummies| == |randoms| == |qs|
      requires forall i {:trigger randoms[i]} :: 0 <= i < |randoms| ==> BlankTag(enc, randoms[i])
      requires QueryMany(levels[l].model, tags, useDummies).Ok?
      modifies levels[l], levels[l].receiverShuffle
      ensures Parts() && LevelsOf(levels) == old(LevelsOf(levels))[l := Some(levels[l].model)]
      ensures QueryMany(old(levels[l].model), tags, useDummies) == Ok((levels[l].model, more))
    {
      hide QueryMany, RealTags, BlankTag;
      ghost var before := LevelsOf(levels);
      Owned(l);
      SameLength(enc, qs, tags);
      more := levels[l].QueryMany(qs, useDummies, randoms, tags);
      forall k | 0 <= k < |levels| && k != l ensures LevelsOf(levels)[k] == before[k] {
        assert LevelOf(levels[k]) == old(LevelOf(levels[k]));
      }
      assert LevelsOf(levels)[l] == LevelOf(levels[l]);
      assert LevelsOf(levels) == before[l := Some(levels[l].model)];
    }

    /** A tag for every query of a batch at one level. */
    function Blanks(blank: (nat, nat) -> nat, l: nat, n: nat): (randoms: seq<nat>)
      ensures |randoms| == n
    {
      if n == 0 then [] else Blanks(blank, l, n - 1) + [blank(l, n - 1)]
    }

    lemma {:induction false} BlanksBlank(blank: (nat, nat) -> nat, l: nat, n: nat)
      requires AllBlank(enc, blank)
      ensures forall i {:trigger Blanks(blank, l, n)[i]} :: 0 <= i < n ==> BlankTag(enc, Blanks(blank, l, n)[i])
    {
      hide BlankTag;
      if n > 0 { BlanksBlank(blank, l, n - 1); }
    }

    /** The level loop of a batch. */
    method QueryTablesMany(grid: seq<nat>, live: nat, xs: seq<nat>, hits0: seq<(Record, bool)>, blank: (nat, nat) -> nat) returns (hits: seq<(Record, bool)>)
      requires Parts() && |hits0| == |xs| && Allowed(enc, grid) && Narrow(xs)
      requires AllBlank(enc, blank)
      requires LevelsMany(LevelsOf(levels), 0, 0, live, grid, xs, hits0).Ok?
      modifies Repr - {this, speedCache}
      ensures Parts() && |hits| == |xs|
      ensures LevelsMany(old(LevelsOf(levels)), 0, 0, live, grid, xs, hits0) == Ok((LevelsOf(levels), hits))
    {
      hide Parts, LevelsOf, BlankTag, QueryMany, RealTags, GridTags, UseDummies, Combined;
      hits := hits0;
      var pos := 0;
      ghost var start := LevelsMany(LevelsOf(levels), 0, 0, live, grid, xs, hits0);
      for l := 0 to |levels|
        invariant Parts() && |hits| == |xs|
        invariant LevelsMany(LevelsOf(levels), l, pos, live, grid, xs, hits) == start
      {
        if levels[l] != null {
          Owned(l);
          var qs;
          ghost var tags;
          qs, tags := BatchTags(grid, live, pos, xs);
          SameLength(enc, qs, tags);
          BlanksBlank(blank, l, |xs|);
          var more := QueryTableMany(l, qs, UseDummies(hits, l), Blanks(blank, l, |xs|), tags);
          hits, pos := Combined(hits, more), pos + 1;
        } else {
          assert LevelsOf(levels)[l] == None;
        }
      }
    }

    /** The keys of the live levels. */
    method CollectKeys() returns (keys: seq<nat>)
      requires Parts()
      ensures keys == LiveKeys(LevelsOf(levels), 0)
    {
      keys := [];
      ghost var view := LevelsOf(levels);
      for l := 0 to |levels|
        invariant keys + LiveKeys(view, l) == LiveKeys(view, 0)
      {
        if levels[l] != null {
          assert view[l] == Some(levels[l].model);
          keys := keys + [levels[l].key];
        }
      }
      assert keys + [] == keys;
    }

    /** The key grid for a batch of `count` queries, kept for the next batch of that size. */
    method PackBatchKeys(count: nat) returns (live: nat)
      requires Parts()
      modifies this`packedBatchQueryKeys
      ensures Parts() && LevelsOf(levels) == old(LevelsOf(levels)) && speedCache.View() == old(speedCache.View())
      ensures var keys := LiveKeys(old(LevelsOf(levels)), 0); var cached := old(packedBatchQueryKeys);
        live == |keys| && packedBatchQueryKeys == Some((count, if cached.Some? && cached.value.0 == count then cached.value.1 else Repeat(keys, count)))
    {
      var keys := CollectKeys();
      live := |keys|;
      if packedBatchQueryKeys.None? || packedBatchQueryKeys.value.0 != count {
        var grid := KeyGrid(keys, count);
        hide *;
        CacheGrid(count, grid);
      }
    }

    method CacheGrid(count: nat, grid: seq<nat>)
      requires Parts()
      modifies this`packedBatchQueryKeys
      ensures Parts() && LevelsOf(levels) == old(LevelsOf(levels)) && speedCache.View() == old(speedCache.View())
      ensures packedBatchQueryKeys == Some((count, grid))
    {
      hide OhTable.Valid, OhTable.ValidAt, SpeedCache.Valid;
      packedBatchQueryKeys := Some((count, grid));
    }

    method QueryCacheMany(xs: seq<nat>) returns (hits: seq<(Record, bool)>)
      requires Parts()
      modifies speedCache`addrs
      ensures Parts() && LevelsOf(levels) == old(LevelsOf(levels))
      ensures CacheQueryMany(old(speedCache.View()), xs, speedCache.sentinel) == (speedCache.View(), hits)
    {
      ghost var before := LevelsOf(levels);
      hide CacheQueryMany;
      hits := speedCache.QueryMany(xs);
      LevelsSame(before);
    }

    /** The steps of a chunk whose level loop goes through. */
    method ChunkSteps(ops: seq<Op>, blank: (nat, nat) -> nat, ghost grid: seq<nat>) returns (outputs: seq<nat>, ghost accs: seq<(Record, bool)>)
      requires Parts() && ops != [] && speedCache.numStored + |ops| <= speedCache.length && speedCache.sentinel == config.N()
      requires Allowed(enc, grid) && Narrow(Addrs(ops))
      requires AllBlank(enc, blank)
      requires grid == if packedBatchQueryKeys.Some? && packedBatchQueryKeys.value.0 == |ops| then packedBatchQueryKeys.value.1 else Repeat(LiveKeys(LevelsOf(levels), 0), |ops|)
      requires var q := CacheQueryMany(speedCache.View(), Addrs(ops), config.N());
        LevelsMany(LevelsOf(levels), 0, 0, |LiveKeys(LevelsOf(levels), 0)|, grid, Addrs(ops), q.1).Ok?
      modifies Repr
      ensures Parts() && Repr == old(Repr) && config == old(config) && hadInitialBottomLevel == old(hadInitialBottomLevel) && speedCache == old(speedCache)
      ensures baseBStateVec == old(baseBStateVec) && packedQueryKey == old(packedQueryKey) && built == old(built) && rebuilds == old(rebuilds)
      ensures memory == old(memory) && packedBatchQueryKeys == Some((|ops|, grid)) && |accs| == |ops| && outputs == Values(accs)
      ensures
        var q := CacheQueryMany(old(speedCache.View()), Addrs(ops), config.N());
        && LevelsMany(old(LevelsOf(levels)), 0, 0, |LiveKeys(old(LevelsOf(levels)), 0)|, grid, Addrs(ops), q.1) == Ok((LevelsOf(levels), accs))
        && CacheWrite(q.0, Addrs(ops), Written(ops, outputs)) == Ok(speedCache.View())
    {
      hide *;
      PartsOwned();
      var live := PackBatchKeys(|ops|);
      var xs := Addrs(ops);
      var hits := QueryCacheMany(xs);
      var found := QueryTablesMany(packedBatchQueryKeys.value.1, live, xs, hits, blank);
      accs := found;
      outputs := Values(found);
      WriteCache(xs, Written(ops, outputs));
    }

    /** `batch_access_chunk`: what a plain map returns and holds after the operations in turn. */
    method BatchAccessChunk(ops: seq<Op>, blank: (nat, nat) -> nat) returns (outputs: seq<nat>)
      requires Valid() && ops != [] && speedCache.numStored + |ops| <= speedCache.length
      requires Batching.InRange(ops, config.N()) && Batching.Distinct(Addrs(ops))
      requires AllBlank(enc, blank)
      modifies Repr
      ensures Valid() && Repr == old(Repr) && config == old(config) && hadInitialBottomLevel == old(hadInitialBottomLevel)
      ensures outputs == Batching.Reads(old(memory), ops) && memory == Batching.After(old(memory), ops)
    {
      hide *;
      ValidParts();
      PartsOwned();
      ViewFields();
      ghost var s, m := View(), memory;
      Accessing.InvParts(s);
      Batching.ChunkKeys(s, m, ops);
      Batching.ChunkForm(s, ops);
      ghost var accs;
      ghost var grid := Repeat(LiveKeys(s.levels, 0), |ops|);
      BatchGrid(s, |ops|);
      KeysAllowed();
      RepeatAllowed(enc, LiveKeys(s.levels, 0), |ops|);
      NarrowSpace(s);
      NarrowBatch(ops, config.N());
      outputs, accs := ChunkSteps(ops, blank, grid);
      Remember(Batching.After(m, ops));
      ViewFields();
      MakeValid();
    }

    /** `batch_access`: refused if empty; otherwise the outputs and the memory of a plain map, unless some
        rebuild on the way fails. */
    method BatchAccess(ops: seq<Op>, random: Random) returns (result: Outcome<seq<nat>>)
      requires Valid() && Fair(random, enc) && Batching.InRange(ops, config.N()) && Batching.Distinct(Addrs(ops))
      modifies Repr
      ensures config == old(config) && hadInitialBottomLevel == old(hadInitialBottomLevel)
      ensures result.Refused? <==> ops == []
      ensures !result.Crash? ==> Valid() && fresh(Repr - old(Repr))
      ensures result.Refused? ==> memory == old(memory)
      ensures result.Ok? ==> result.value == Batching.Reads(old(memory), ops) && memory == Batching.After(old(memory), ops)
      ensures result.Crash? ==> exists done: nat, s: State :: StuckAt(old(View()), old(memory), ops, enc, random, done, s)
    {
      hide *;
      if ops == [] { return Refused; }
      var outputs, remaining := [], ops;
      OwnedSelf();
      ValidParts();
      ViewFields();
      ghost var s0, m0, done := View(), memory, 0;
      ReadsNone(m0);
      assert ops[..0] == [];
      assert [] + Batching.Reads(memory, ops) == Batching.Reads(memory, ops);
      while remaining != []
        invariant Valid() && fresh(Repr - old(Repr)) && this in Repr && config == old(config) && hadInitialBottomLevel == old(hadInitialBottomLevel)
        invariant Batching.InRange(remaining, config.N()) && Batching.Distinct(Addrs(remaining))
        invariant outputs + Batching.Reads(memory, remaining) == Batching.Reads(old(memory), ops)
        invariant Batching.After(memory, remaining) == Batching.After(old(memory), ops)
        invariant done <= |ops| && remaining == ops[done..] && memory == Batching.After(m0, ops[..done])
        invariant done == 0 ==> speedCache.numStored < speedCache.length || (Parts() && View() == s0)
        decreases |remaining|, if speedCache.numStored < speedCache.length then 0 else 1
      {
        Room();
        var free := speedCache.length - speedCache.numStored;
        if free == 0 {
          ValidParts();
          ghost var s := View();
          ValidParts();
          ViewFields();
          FullNow();
          var ok := Rebuild(|remaining|, random);
          if !ok {
            Stuck(s0, m0, ops, enc, random, done, s);
            return Crash;
          }
          OwnedSelf();
        } else {
          var k := if |remaining| <= free then |remaining| else free;
          Batching.DistinctSplit(remaining, k, config.N());
          ReadsSplit(memory, remaining, k);
          AfterMore(m0, ops, done, k);
          var n := |remaining|;
          var blank := (l: nat, q: nat) => random.blank(n, l, q);
          BlanksAreBlank(random, enc, n, blank);
          var chunk := BatchAccessChunk(remaining[..k], blank);
          OwnedSelf();
          assert outputs + (chunk + Batching.Reads(memory, remaining[k..])) == (outputs + chunk) + Batching.Reads(memory, remaining[k..]);
          outputs, remaining, done := outputs + chunk, remaining[k..], done + k;
        }
      }
      ReadsNone(memory);
      assert outputs + [] == outputs;
      result := Ok(outputs);
    }

    lemma FullNow()
      requires Valid() && speedCache.numStored == speedCache.length
      ensures Full(View())
    {
    }

    lemma OwnedSelf()
      requires Valid()
      ensures this in Repr
    {
    }

    // ---------------------------------------------------------------- growing

    /** `ready_to_grow_naturally`. */
    method ReadyToGrowNaturally() returns (ready: bool)
      requires Valid()
      ensures |View().digits| == View().cfg.numLevels > 0 && (ready <==> ReadyToGrow(View()))
    {
      hide *;
      ValidParts();
      ViewFields();
      RebuildStarts(View());
      Room();
      var r, need := RebuildTarget();
      ready := !speedCache.IsWriteable() && r == config.numLevels - 1;
      ReadyIs(View());
    }

    /** No levels at all under the new configuration. */
    method Vacate(newConfig: Config)
      requires Parts()
      modifies this`config, this`levels, this`rebuilds
      ensures Parts() && config == newConfig && rebuilds == 0 && levels == seq(newConfig.numLevels, _ => null)
    {
      hide OhTable.Valid, OhTable.ValidAt, SpeedCache.Valid, LevelsOf;
      config, levels, rebuilds := newConfig, seq(newConfig.numLevels, _ => null), 0;
    }

    /** An empty hierarchy under a new configuration. */
    method Renew(newConfig: Config)
      requires Parts()
      modifies this
      ensures Parts() && fresh(Repr - old(Repr)) && View() == Empty(newConfig, old(hadInitialBottomLevel)).(built := old(built))
      ensures config == newConfig && memory == old(memory) && hadInitialBottomLevel == old(hadInitialBottomLevel) && built == old(built) && rebuilds == 0
      ensures speedCache.length == config.S() && speedCache.sentinel == config.N() && |levels| == |baseBStateVec| == config.numLevels
    {
      hide *;
      Vacate(newConfig);
      SetDigits(seq(newConfig.numLevels, _ => 0));
      ResetCache();
      ViewFields();
      AllVacant(levels);
      EmptyIs(newConfig, hadInitialBottomLevel);
    }

    /** The rows of the widened bottom level. */
    method WidenRows(newConfig: Config, rows: seq<Row>) returns (wide: seq<Row>)
      requires Parts() && Widened(View(), newConfig, rows).Ok?
      ensures Widened(View(), newConfig, rows) == Ok(wide)
    {
      ViewFields();
      if hadInitialBottomLevel {
        var n := config.N();
        wide := rows;
        for a := n to newConfig.N()
          invariant |wide| == |rows| + (a - n)
          invariant forall i :: 0 <= i < |wide| ==> wide[i] == if i < |rows| then rows[i] else Row(n + (i - |rows|), ZERO)
        {
          assert a < TWO32;
          wide := wide + [Row(a, ZERO)];
        }
        assert wide == Widened(View(), newConfig, rows).value;
      } else {
        var padded := rows + DummyRows(newConfig.N() - |rows|, config.N());
        wide := [];
        for i := 0 to |padded|
          invariant |wide| == i
          invariant forall j :: 0 <= j < i ==> wide[j] == if IsDummy(padded[j].addr, config.logN) then Row(newConfig.N() + j, padded[j].rec) else padded[j]
        {
          assert newConfig.N() + i < TWO32;
          wide := wide + [if IsDummy(padded[i].addr, config.logN) then Row(newConfig.N() + i, padded[i].rec) else padded[i]];
        }
        assert wide == Relabel(padded, config.logN, newConfig.N()).value;
      }
    }

    /** The only table of an empty hierarchy, built on rows that hold the whole memory. */
    method InstallBottom(wide: seq<Row>, random: Random, k: nat) returns (ok: bool, ghost o: Oracle)
      requires Parts() && Ideal(enc) && Fair(random, enc) && config.Valid() && Growing.Whole(config, hadInitialBottomLevel, wide, memory)
      requires View() == Empty(config, hadInitialBottomLevel).(built := built)
      requires speedCache.length == config.S() && speedCache.sentinel == config.N() && |levels| == |baseBStateVec| == config.numLevels
      modifies Repr
      ensures config == old(config) && memory == old(memory) && hadInitialBottomLevel == old(hadInitialBottomLevel)
      ensures ok <==> !BuildFails(enc, random, k, config, config.numLevels - 1, wide, 1)
      ensures ok ==> Valid() && fresh(Repr - old(Repr)) && rebuilds == 0
      ensures ok ==> Drawn(o, random, k) && BottomInstalled(old(View()), wide, o, View())
    {
      hide *;
      ghost var s, m := View(), memory;
      PartsOwned();
      ViewFields();
      var bottom := config.numLevels - 1;
      BottomReady(s, m, enc, random, k, wide);
      ghost var c;
      ok, c := InstallLevel(bottom, wide, p => random.build(k, p));
      o := FirstOracle(random, k);
      BottomFails(s, enc, random, k, wide);
      if !ok { return; }
      o := BottomDone(s, m, enc, random, k, wide, c);
      EnterStash(bottom);
      ViewFields();
      Settle();
    }

    /** `finish_grow`. */
    method FinishGrow(newConfig: Config, ready: seq<Row>, random: Random) returns (ok: bool, ghost o: Oracle)
      requires Valid() && Fair(random, enc) && newConfig.Valid() && Widened(View(), newConfig, ready).Ok?
      requires Growing.Whole(newConfig, hadInitialBottomLevel, Widened(View(), newConfig, ready).value, memory)
      modifies Repr
      ensures config == newConfig && memory == old(memory) && hadInitialBottomLevel == old(hadInitialBottomLevel)
      ensures ok <==> !BuildFails(enc, random, 0, newConfig, newConfig.numLevels - 1, old(Widened(View(), newConfig, ready).value), 1)
      ensures ok ==> Valid() && fresh(Repr - old(Repr)) && rebuilds == 0
      ensures ok ==> Drawn(o, random, 0) && Doram.FinishGrow(old(View()), newConfig, ready, o) == Ok(View())
    {
      hide *;
      ValidParts();
      PartsOwned();
      ViewFields();
      ghost var s := View();
      var wide := WidenRows(newConfig, ready);
      Renew(newConfig);
      PartsOwned();
      ghost var s2 := View();
      ok, o := InstallBottom(wide, random, 0);
      if ok {
        ValidParts();
        FinishGrowIs(s, s2, newConfig, ready, wide, o, View());
      }
    }

    /** `grow_naturally`: refused except at a full collapse and by exactly one bit; otherwise every address
        keeps its value, and the hierarchy starts over under the new configuration. */
    method GrowNaturally(newConfig: Config, random: Random) returns (result: Outcome<()>)
      requires Valid() && Fair(random, enc) && newConfig.Valid()
      modifies Repr
      ensures result.Refused? <==> !(newConfig.logN == old(config).logN + 1 && old(ReadyToGrow(View())))
      ensures result.Refused? ==> Valid() && View() == old(View()) && memory == old(memory) && Repr == old(Repr)
      ensures result.Ok? ==> Valid() && fresh(Repr - old(Repr)) && config == newConfig && memory == old(memory) && rebuilds == 0
      ensures result.Ok? ==> hadInitialBottomLevel == old(hadInitialBottomLevel)
      ensures result.Ok? ==> GrowsNaturallyTo(old(View()), newConfig, View())
      ensures result.Crash? <==> newConfig.logN == old(config).logN + 1 && old(ReadyToGrow(View())) && GrowNaturallyFails(old(View()), newConfig, enc, random)
    {
      hide *;
      var canGrow := ReadyToGrowNaturally();
      if newConfig.logN != config.logN + 1 || !canGrow { return Refused; }
      ValidParts();
      PartsOwned();
      ViewFields();
      ghost var s, m := View(), memory;
      RebuildStarts(s);
      LiveLevels();
      var r, need := RebuildTarget();
      ReadyIs(s);
      ghost var gathered := Growing.CollapseRows(s, m);
      var rows := CollectRows(if need then r + 1 else r);
      NaturalCopies(s, newConfig, rows);
      FairShuffle(random, enc, 0, |rows|);
      Growing.Cleansed(s, newConfig, m, rows, random.shuffle(0, |rows|));
      var finalized := FinalizeBottomLevel(rows, random.shuffle(0, |rows|));
      var ready := finalized.value;
      ghost var o;
      var ok;
      ok, o := FinishGrow(newConfig, ready, random);
      result := if ok then Ok(()) else Crash;
      GrownNaturally(s, newConfig, rows, ready, enc, random);
      if ok {
        ValidParts();
        GrewNaturally(s, newConfig, rows, ready, random, o, View());
      }
    }

    /** Every untouched slot of every level, spent or not. */
    method ExtractAllUntouched() returns (rows: seq<Row>)
      requires Parts() && LevelsShaped(LevelsOf(levels))
      ensures rows == GatherAll(LevelsOf(levels), |levels|)
    {
      rows := [];
      ghost var view := LevelsOf(levels);
      hide Parts, LevelsOf, UntouchedRows, LevelShaped;
      for l := 0 to |levels|
        invariant rows == GatherAll(view, l)
      {
        if levels[l] != null {
          Owned(l);
          var xs, ys := levels[l].ExtractUntouched();
          rows := rows + RowsOf(xs, ys);
        } else {
          Vacant(l);
        }
      }
    }

    /** The rows in use, and every untouched slot. */
    method CollectEverything() returns (rows: seq<Row>)
      requires Parts() && StateShaped(View())
      ensures rows == EverythingIn(View())
    {
      ViewFields();
      PartsOwned();
      hide Parts, LevelsOf, View, GatherAll, LevelsShaped;
      var xs, ys := speedCache.ExtractStored();
      assert RowsOf(xs, ys) == StoredRows(speedCache.View());
      var left := ExtractAllUntouched();
      rows := ClearAlibis(RowsOf(xs, ys) + left);
    }

    /** `grow_on_demand`: refused except by exactly one bit, and where nothing was ever stored; otherwise
        every address keeps its value, from any reachable state. */
    method GrowOnDemand(newConfig: Config, random: Random) returns (result: Outcome<()>)
      requires Valid() && Fair(random, enc) && newConfig.Valid()
      modifies Repr
      ensures result.Refused? <==> (newConfig.logN != old(config).logN + 1 || old(Growing.Blank(View())))
      ensures result.Refused? ==> Valid() && View() == old(View()) && memory == old(memory) && Repr == old(Repr)
      ensures result.Ok? ==> Valid() && fresh(Repr - old(Repr)) && config == newConfig && memory == old(memory) && rebuilds == 0
      ensures result.Ok? ==> hadInitialBottomLevel == old(hadInitialBottomLevel)
      ensures result.Ok? ==> GrowsOnDemandTo(old(View()), newConfig, View())
      ensures result.Crash? <==> newConfig.logN == old(config).logN + 1 && !old(Growing.Blank(View())) && GrowOnDemandFails(old(View()), newConfig, enc, random)
    {
      hide *;
      if newConfig.logN != config.logN + 1 { return Refused; }
      ValidParts();
      PartsOwned();
      ViewFields();
      ghost var s, m := View(), memory;
      RebuildStarts(s);
      var rows := CollectEverything();
      Growing.EverythingFacts(s, m);
      if rows == [] { return Refused; }
      FairShuffle(random, enc, 0, |rows|);
      EverythingCleansed(s, newConfig, m, rows, random.shuffle(0, |rows|));
      var finalized := FinalizeBottomLevel(rows, random.shuffle(0, |rows|));
      if !finalized.Ok? {
        TooLong(s, newConfig, rows, enc, random);
        return Crash;
      }
      var ready := finalized.value;
      ghost var o;
      var ok;
      ok, o := FinishGrow(newConfig, ready, random);
      result := if ok then Ok(()) else Crash;
      GrownOnDemand(s, newConfig, rows, ready, enc, random);
      if ok {
        ValidParts();
        GrewOnDemand(s, newConfig, rows, ready, random, o, View());
      }
    }
  }

  /** The stash of a level fits the cache where the model says so. */
  lemma StashFits(s: State, l: nat)
    requires s.cache.Shaped() && l < |s.levels| && Doram.InsertStash(s, l).Ok? && s.levels[l].Some?
    ensures var t := s.levels[l].value;
      |t.stashXs| == |t.stashYs| && s.cache.numStored < |s.cache.addrs| && s.cache.numStored + |t.stashXs| <= |s.cache.addrs|
    ensures var t := s.levels[l].value;
      var w := CacheWrite(s.cache, t.stashXs, Alibied(t.stashYs, l));
      w.Ok? && Doram.InsertStash(s, l) == Ok(s.(cache := w.value))
  {
    var t := s.levels[l].value;
    assert Alibied(t.stashYs, l) == seq(|t.stashYs|, k requires 0 <= k < |t.stashYs| => Record(t.stashYs[k].value, t.stashYs[k].alibi + {l}));
    hide CacheWrite;
  }

  /** The alibi bit of level `l` set. */
  function Alibied(ys: seq<Record>, l: nat): (r: seq<Record>)
    ensures |r| == |ys|
  {
    seq(|ys|, k requires 0 <= k < |ys| => Record(ys[k].value, ys[k].alibi + {l}))
  }

  lemma StashSizes(t: OhTable)
    requires t.Valid()
    ensures t.model.stashXs == t.stashXs && t.model.stashYs == t.stashYs
  {
  }

  lemma RebuildStarts(s: State)
    requires Inv(s)
    ensures StateShaped(s) && s.cache.Shaped() && |s.levels| == |s.digits| == s.cfg.numLevels > 0 && s.cfg.Bottom() == s.cfg.numLevels - 1
    ensures |s.cache.addrs| == s.cfg.S() && s.cfg.Valid()
    ensures forall r: nat {:trigger NeedExtract(s, r)} :: r < s.cfg.numLevels ==>
      NeedExtract(s, r) == if r == s.cfg.numLevels - 1 then s.digits[r] != 0 else s.levels[r].Some?
  {
    Collect.ShapesOk(s);
  }

  lemma DeletesAre(s: State, r: nat, need: bool)
    requires r < |s.levels| == |s.digits|
    ensures var s1 := DeleteBelow(s.(cache := NewCache(s.cfg.S(), s.cfg.N())), r);
      AfterDeletes(s, r, need) == if need then DeleteLevel(s1, r) else s1
  {
  }

  /** Builder-order positions always fit the 32 bits the blocks have for them. */
  lemma IndicesFit(cfg: Config, l: nat, b: nat)
    requires cfg.Valid() && l < cfg.numLevels && 1 <= b <= cfg.Amp() && (l == cfg.Bottom() ==> b == 1)
    ensures cfg.NumElementsAt(l, b) + cfg.NumDummies(l) <= TWO32
  {
    Sizes.SpaceFits(cfg);
    UnitDummies(cfg, l);
    Sizes.ElementsUnit(cfg, l, b);
    Sizes.ElementsUnit(cfg, l, 1);
    hide Pow2, Power;
    if l != cfg.Bottom() {
      Collect.MiddleSmall(cfg, l, b);
      Collect.MiddleSmall(cfg, l, 1);
    }
  }

  lemma UnitDummies(cfg: Config, l: nat)
    ensures cfg.NumDummies(l) <= Pow2(l * cfg.logAmp + cfg.logS)
  {
    hide *;
    Sizes.LevelUnit(cfg, l);
    Sizes.DummiesAre(cfg, l);
    var p, f, s := Power(cfg.Amp(), l), cfg.Fill(), cfg.S();
    MulMono(f, s, p);
    assert f * p == p * f && s * p == p * s;
  }

  /** Prepared rows can be built on, with any draws. */
  lemma ReadyToBuild(s: State, m: Memory, enc: Cipher, o: Oracle, random: Random, k: nat, r: nat, need: bool, rows: seq<Row>, ready: seq<Row>)
    requires Inv(s) && Ideal(enc) && Fair(random, enc) && r == TargetFrom(s.cfg, s.digits, 0) && r < s.cfg.numLevels == |s.levels| == |s.digits|
    requires Collect.Buildable(s, m, rows, ready, s.cfg.NumElementsAt(r, Rebuilding.NextDigit(s, r)))
    ensures var s2 := AfterDeletes(s, r, need);
      && s2.cfg == s.cfg && Rebuilding.NextDigit(s, r) == (if r == s.cfg.Bottom() then 1 else s2.digits[r] + 1)
      && (r != s.cfg.Bottom() ==> s2.digits[r] == s.digits[r] && s.digits[r] + 1 < s.cfg.Amp())
    ensures var p := s.cfg.TableParams(r, |ready|, Rebuilding.NextDigit(s, r));
      && p.Valid() && s.cfg.stash <= |ready| && DrawsOk(p, random.build(k, p)) && Setup(enc, p, ready, random.build(k, p))
  {
    Refinement.TargetOk(s, r);
    Rebuilding.DeletesEmpty(s, r, need);
    RebuildDigit(s, r);
    hide Inv, Ideal, Fair, AfterDeletes, TargetFrom, DrawsOk, Setup;
    LevelSetup(s.cfg, r, Rebuilding.NextDigit(s, r), ready, m, enc, random, k);
  }

  lemma RebuildDigit(s: State, r: nat)
    requires Inv(s) && r == TargetFrom(s.cfg, s.digits, 0) && r < s.cfg.numLevels == |s.levels| == |s.digits|
    ensures s.cfg.Valid() && 1 <= Rebuilding.NextDigit(s, r) <= s.cfg.Amp() && (r == s.cfg.Bottom() ==> Rebuilding.NextDigit(s, r) == 1)
  {
    Refinement.TargetOk(s, r);
    hide TargetFrom;
  }

  /** Rows of the size a level wants, with the memory's values, can be built on there. */
  lemma LevelSetup(cfg: Config, l: nat, b: nat, rows: seq<Row>, m: Memory, enc: Cipher, random: Random, k: nat)
    requires cfg.Valid() && l < cfg.numLevels && 1 <= b <= cfg.Amp() && (l == cfg.Bottom() ==> b == 1)
    requires DistinctAddrs(rows) && Faithful(rows, cfg.N(), m) && |rows| == cfg.NumElementsAt(l, b)
    requires Ideal(enc) && Fair(random, enc)
    ensures var p := cfg.TableParams(l, |rows|, b);
      && p.Valid() && cfg.stash <= |rows| && DrawsOk(p, random.build(k, p)) && Setup(enc, p, rows, random.build(k, p))
  {
    hide Ideal, Fair, Faithful, DistinctAddrs, DrawsOk, Setup, Pow2, Power;
    Sizes.Capacity(cfg, l, b);
    Sizes.ElementsUnit(cfg, l, b);
    IndicesFit(cfg, l, b);
    NarrowRows(cfg, rows, m);
    DrawnSetup(enc, cfg.TableParams(l, |rows|, b), rows, random, k);
  }

  lemma NarrowRows(cfg: Config, rows: seq<Row>, m: Memory)
    requires cfg.Valid() && Faithful(rows, cfg.N(), m)
    ensures forall i {:trigger rows[i]} :: 0 <= i < |rows| ==> rows[i].addr < TWO32
  {
    Sizes.SpaceFits(cfg);
    hide Pow2;
  }

  lemma DrawnSetup(enc: Cipher, p: Params, rows: seq<Row>, random: Random, k: nat)
    requires Ideal(enc) && Fair(random, enc) && p.Valid() && |rows| == p.numElements && DistinctAddrs(rows) && p.Total() <= TWO32
    requires forall i {:trigger rows[i]} :: 0 <= i < |rows| ==> rows[i].addr < TWO32
    ensures DrawsOk(p, random.build(k, p)) && Setup(enc, p, rows, random.build(k, p))
  {
    hide Ideal, DrawsOk, BlankTag;
  }

  /** A cut list always can be relabelled. */
  lemma Relabels(cfg: Config, cut: seq<Row>)
    requires cfg.Valid() && |cut| <= cfg.N()
    ensures Relabel(cut, cfg.logN, cfg.N()).Ok?
  {
    Sizes.SpaceFits(cfg);
    hide Pow2;
  }

  lemma DrawnPrepares(s: State, random: Random, k: nat, p: Params, c: Coin, r: nat, rows: seq<Row>)
    requires StateShaped(s) && r < s.cfg.numLevels
    ensures Prepared(s, r, rows, DrawnOracle(random, k, p, c)) == Prepared(s, r, rows, FirstOracle(random, k))
  {
    hide Finalize, Relabel;
  }

  /** The steps of a rebuild that succeeds. */
  lemma RebuildSteps(s: State, o: Oracle, r: nat, need: bool, rows: seq<Row>, ready: seq<Row>)
    requires s.cache.Shaped() && StateShaped(s) && Rebuild(s, o).Ok? && r == TargetFrom(s.cfg, s.digits, 0) && need == NeedExtract(s, r)
    requires Collected(s, if need then r + 1 else r) == Ok(rows) && Prepared(s, r, rows, o) == Ok(ready)
    ensures var s2 := AfterDeletes(s, r, need);
      && NewTable(s2, r, ready, o).Ok? && Doram.InsertStash(NewTable(s2, r, ready, o).value, r).Ok?
      && Rebuild(s, o).value == Doram.InsertStash(NewTable(s2, r, ready, o).value, r).value.(rebuilds := s.rebuilds + 1)
  {
    hide NewTable, Doram.InsertStash, AfterDeletes, Collected, Prepared, TargetFrom, NeedExtract, StateShaped;
  }

  lemma NewTableIs(s2: State, r: nat, ready: seq<Row>, o: Oracle, p: Params, c: Coin)
    requires |s2.levels| == |s2.digits| && NewTable(s2, r, ready, o).Ok? && r < |s2.levels|
    requires p == s2.cfg.TableParams(r, |ready|, if r == s2.cfg.Bottom() then 1 else s2.digits[r] + 1) && o.coin(s2.built, p) == c
    ensures BuildTable(p, ready, c).Ok?
    ensures NewTable(s2, r, ready, o).value ==
      s2.(levels := s2.levels[r := Some(BuildTable(p, ready, c).value)], digits := s2.digits[r := if r == s2.cfg.Bottom() then 1 else s2.digits[r] + 1],
          queryKey := None, batchKeys := None, built := s2.built + 1)
  {
    hide BuildTable;
  }

  /** What a rebuild of a full cache has prepared before it changes anything. */
  ghost predicate Planned(s: State, m: Memory, o: Oracle, r: nat, need: bool, rows: seq<Row>, ready: seq<Row>) {
    && Inv(s) && Represents(s, m) && s.cache.numStored == s.cfg.S() && StateShaped(s)
    && r == TargetFrom(s.cfg, s.digits, 0) && need == NeedExtract(s, r)
    && Collected(s, if need then r + 1 else r) == Ok(rows) && Prepared(s, r, rows, o) == Ok(ready)
    && Collect.Buildable(s, m, rows, ready, s.cfg.NumElementsAt(r, Rebuilding.NextDigit(s, r)))
  }

  lemma MakePlan(s: State, m: Memory, o: Oracle, r: nat, need: bool, rows: seq<Row>, ready: seq<Row>)
    requires Inv(s) && Represents(s, m) && s.cache.numStored == s.cfg.S() && StateShaped(s)
    requires r == TargetFrom(s.cfg, s.digits, 0) && need == NeedExtract(s, r)
    requires Collected(s, if need then r + 1 else r) == Ok(rows) && Prepared(s, r, rows, o) == Ok(ready)
    requires Collect.Buildable(s, m, rows, ready, s.cfg.NumElementsAt(r, Rebuilding.NextDigit(s, r)))
    ensures Planned(s, m, o, r, need, rows, ready)
  {
  }

  /** What the plan guarantees to the steps that carry it out. */
  lemma PlanParts(s: State, m: Memory, enc: Cipher, random: Random, k: nat, r: nat, need: bool, rows: seq<Row>, ready: seq<Row>)
    requires Planned(s, m, FirstOracle(random, k), r, need, rows, ready) && Ideal(enc) && Fair(random, enc)
    ensures r < s.cfg.numLevels == |s.levels| == |s.digits|
    ensures var s2 := AfterDeletes(s, r, need);
      && s2.cfg == s.cfg && s2.hadInitial == s.hadInitial && |s2.levels| == |s2.digits| == s.cfg.numLevels
      && (r != s.cfg.Bottom() ==> s2.digits[r] + 1 < s.cfg.Amp())
    ensures var p := s.cfg.TableParams(r, |ready|, Rebuilding.NextDigit(AfterDeletes(s, r, need), r));
      && s.cfg.stash <= |ready| && DrawsOk(p, random.build(k, p)) && Setup(enc, p, ready, random.build(k, p))
  {
    RebuildStarts(s);
    ReadyToBuild(s, m, enc, FirstOracle(random, k), random, k, r, need, rows, ready);
    Refinement.TargetOk(s, r);
    Rebuilding.DeletesEmpty(s, r, need);
    hide AfterDeletes, Setup, Inv, Represents, Collected, Prepared;
  }

  /** The plan carried out with the table that was built is the model's rebuild. */
  lemma PlanDone(s: State, m: Memory, enc: Cipher, random: Random, k: nat, r: nat, need: bool, rows: seq<Row>, ready: seq<Row>, c: Coin)
    requires Planned(s, m, FirstOracle(random, k), r, need, rows, ready) && Ideal(enc) && Fair(random, enc)
    requires |s.levels| == |s.digits| == s.cfg.numLevels > 0 && !Refinement.SortOverflows(s)
    requires r < |s.levels|
    requires var p := s.cfg.TableParams(r, |ready|, Rebuilding.NextDigit(AfterDeletes(s, r, need), r)); ValidCoin(p, c) && BuildTable(p, ready, c).Ok?
    ensures var s2 := AfterDeletes(s, r, need);
      var t := BuildTable(s.cfg.TableParams(r, |ready|, Rebuilding.NextDigit(s2, r)), ready, c).value;
      var s3 := Rebuilding.WithTable(s2, r, t);
      && s3.cache.Shaped() && r < |s3.levels| && Doram.InsertStash(s3, r).Ok?
      && var s4 := Doram.InsertStash(s3, r).value.(rebuilds := s.rebuilds + 1);
         Inv(s4) && Represents(s4, m) && s4.cfg == s.cfg && s4.cache.numStored < s4.cfg.S() && s4.hadInitial == s.hadInitial && s2.rebuilds == s.rebuilds
         && RebuildsTo(s, s4)
  {
    var s2 := AfterDeletes(s, r, need);
    var p := s.cfg.TableParams(r, |ready|, Rebuilding.NextDigit(s2, r));
    var o1 := DrawnOracle(random, k, p, c);
    PlanParts(s, m, enc, random, k, r, need, rows, ready);
    PlannedParts(s, m, FirstOracle(random, k), r, need, rows, ready);
    hide *;
    DrawnGood(random, k, enc, p, c);
    Refinement.RebuildOk(s, m, o1);
    DrawnPrepares(s, random, k, p, c, r, rows);
    RebuildSteps(s, o1, r, need, rows, ready);
    DrawnCoin(random, k, p, c, s2.built);
    NextDigitIs(s2, r);
    NewTableIs(s2, r, ready, o1, p, c);
    WithTableIs(s2, r, BuildTable(p, ready, c).value);
    DeletesKeep(s, r, need);
    RebuiltTo(s, o1, Doram.Rebuild(s, o1).value);
  }

  lemma DeletesKeep(s: State, r: nat, need: bool)
    requires r < |s.levels| == |s.digits|
    ensures AfterDeletes(s, r, need).rebuilds == s.rebuilds
  {
  }

  lemma PlannedParts(s: State, m: Memory, o: Oracle, r: nat, need: bool, rows: seq<Row>, ready: seq<Row>)
    requires Planned(s, m, o, r, need, rows, ready)
    ensures Inv(s) && Represents(s, m) && s.cache.numStored == s.cfg.S() && StateShaped(s) && s.cache.Shaped()
    ensures |s.levels| == |s.digits| == s.cfg.numLevels > 0 && r < s.cfg.numLevels
    ensures r == TargetFrom(s.cfg, s.digits, 0) && need == NeedExtract(s, r)
    ensures Collected(s, if need then r + 1 else r) == Ok(rows) && Prepared(s, r, rows, o) == Ok(ready)
  {
  }

  lemma DrawnCoin(random: Random, k: nat, p: Params, c: Coin, t: nat)
    ensures DrawnOracle(random, k, p, c).coin(t, p) == c
  {
  }

  lemma NextDigitIs(s: State, r: nat)
    requires r < |s.digits|
    ensures Rebuilding.NextDigit(s, r) == if r == s.cfg.Bottom() then 1 else s.digits[r] + 1
  {
  }

  lemma WithTableIs(s: State, r: nat, t: Table)
    requires r < |s.levels| == |s.digits|
    ensures Rebuilding.WithTable(s, r, t) ==
      s.(levels := s.levels[r := Some(t)], digits := s.digits[r := Rebuilding.NextDigit(s, r)], queryKey := None, batchKeys := None, built := s.built + 1)
  {
  }

  lemma BlanksAreBlank(random: Random, enc: Cipher, k: nat, blank: (nat, nat) -> nat)
    requires Fair(random, enc) && forall l: nat, q: nat {:trigger blank(l, q)} :: blank(l, q) == random.blank(k, l, q)
    ensures AllBlank(enc, blank)
  {
  }

  lemma NarrowSpace(s: State)
    requires Inv(s)
    ensures s.cfg.N() <= TWO32
  {
    Sizes.SpaceFits(s.cfg);
    hide Pow2;
  }

  lemma NarrowBatch(ops: seq<Op>, n: nat)
    requires Batching.InRange(ops, n) && n <= TWO32
    ensures Narrow(Addrs(ops))
  {
  }

  /** One query's tag off the flattened grid. */
  lemma GridStep(grid: seq<nat>, base: nat, live: nat, pos: nat, xs: seq<nat>, q: nat)
    requires base <= |grid| && q < |xs| && GridTags(grid[base..], live, pos, xs[q..]).Ok?
    ensures base + live <= |grid| && base + pos < |grid|
    ensures GridTags(grid[base + live..], live, pos, xs[q + 1..]).Ok?
    ensures GridTags(grid[base..], live, pos, xs[q..]).value == [Tag(grid[base + pos], xs[q])] + GridTags(grid[base + live..], live, pos, xs[q + 1..]).value
  {
    assert xs[q..][0] == xs[q] && xs[q..][1..] == xs[q + 1..];
    assert live <= |grid[base..]| ==> grid[base..][live..] == grid[base + live..];
  }

  lemma Reassociate(tags: seq<Tag>, tag: Tag, rest: seq<Tag>)
    ensures tags + ([tag] + rest) == (tags + [tag]) + rest
  {
  }

  lemma GridEnd(grid: seq<nat>, live: nat, pos: nat, xs: seq<nat>)
    requires xs == []
    ensures GridTags(grid, live, pos, xs) == Ok([])
  {
  }

  lemma MakeAskable(enc: Cipher, grid: seq<nat>, i: nat, xs: seq<nat>, q: nat)
    requires Allowed(enc, grid) && Narrow(xs) && i < |grid| && q < |xs|
    ensures Askable(enc, Tag(grid[i], xs[q]))
  {
  }

  lemma RealTagsSnoc(enc: Cipher, qs: seq<nat>, tags: seq<Tag>, q: nat, tag: Tag)
    requires RealTags(enc, qs, tags) && Askable(enc, tag) && q == enc.Block(tag.key, tag.addr)
    ensures RealTags(enc, qs + [q], tags + [tag])
  {
    hide Askable;
    var q1, t1 := qs + [q], tags + [tag];
    assert |q1| == |t1|;
    forall i | 0 <= i < |q1| ensures Askable(enc, t1[i]) && q1[i] == enc.Block(t1[i].key, t1[i].addr) {
      if i < |qs| { assert q1[i] == qs[i] && t1[i] == tags[i]; } else { assert t1[i] == tag; }
    }
    assert RealTags(enc, q1, t1);
  }

  lemma SameLength(enc: Cipher, qs: seq<nat>, tags: seq<Tag>)
    requires RealTags(enc, qs, tags)
    ensures |qs| == |tags|
  {
  }

  lemma {:induction false} RepeatSnoc(keys: seq<nat>, n: nat)
    ensures Repeat(keys, n + 1) == Repeat(keys, n) + keys
  {
    if n > 0 {
      RepeatSnoc(keys, n - 1);
      assert keys + (Repeat(keys, n - 1) + keys) == (keys + Repeat(keys, n - 1)) + keys;
    }
  }

  /** Cached or not, the grid is that of the live levels. */
  lemma BatchGrid(s: State, count: nat)
    requires KeysOk(s)
    ensures s.batchKeys.Some? && s.batchKeys.value.0 == count ==> s.batchKeys.value.1 == Repeat(LiveKeys(s.levels, 0), count)
  {
  }

  lemma {:induction false} ReadsSplit(m: Memory, ops: seq<Op>, k: nat)
    requires k <= |ops|
    ensures Batching.Reads(m, ops) == Batching.Reads(m, ops[..k]) + Batching.Reads(Batching.After(m, ops[..k]), ops[k..])
    ensures Batching.After(m, ops) == Batching.After(Batching.After(m, ops[..k]), ops[k..])
    decreases k
  {
    if k == 0 {
      assert ops[..0] == [] && ops[0..] == ops;
    } else {
      var m1, first, rest := Batching.After1(m, ops[0]), ops[..k], ops[k..];
      assert first[0] == ops[0] && first[1..] == ops[1..][..k - 1] && ops[1..][k - 1..] == rest;
      ReadsSplit(m1, ops[1..], k - 1);
      ReadsNext(m, ops);
      ReadsNext(m, first);
      hide *;
    }
  }

  lemma ReadsNext(m: Memory, ops: seq<Op>)
    requires ops != []
    ensures Batching.Reads(m, ops) == [Get(m, ops[0].addr)] + Batching.Reads(Batching.After1(m, ops[0]), ops[1..])
    ensures Batching.After(m, ops) == Batching.After(Batching.After1(m, ops[0]), ops[1..])
  {
  }

  lemma ReadsNone(m: Memory)
    ensures Batching.Reads(m, []) == [] && Batching.After(m, []) == m
  {
  }

  lemma ReadyIs(s: State)
    requires |s.digits| == s.cfg.numLevels > 0
    ensures ReadyToGrow(s) <==> Full(s) && TargetFrom(s.cfg, s.digits, 0) == s.cfg.numLevels - 1
  {
  }

  lemma {:induction false} AllVacant(ts: seq<OhTable?>)
    requires forall l {:trigger ts[l]} :: 0 <= l < |ts| ==> ts[l] == null
    ensures LevelsOf(ts) == seq(|ts|, _ => None)
  {
    forall l | 0 <= l < |ts| ensures LevelsOf(ts)[l] == None { assert LevelsOf(ts)[l] == LevelOf(ts[l]); }
  }

  lemma EmptyIs(cfg: Config, hadInitial: bool)
    ensures Empty(cfg, hadInitial) == State(cfg, NewCache(cfg.S(), cfg.N()), seq(cfg.numLevels, _ => None), seq(cfg.numLevels, _ => 0),
                                            None, None, hadInitial, 0, 0)
  {
  }

  lemma FairShuffle(random: Random, enc: Cipher, k: nat, n: nat)
    requires Fair(random, enc)
    ensures IsPerm(random.shuffle(k, n), n)
  {
  }

  /** Whole rows can be built on as the bottom of an empty hierarchy. */
  lemma BottomReady(s: State, m: Memory, enc: Cipher, random: Random, k: nat, wide: seq<Row>)
    requires s.cfg.Valid() && Ideal(enc) && Fair(random, enc) && Growing.Whole(s.cfg, s.hadInitial, wide, m)
    requires s == Empty(s.cfg, s.hadInitial).(built := s.built)
    ensures |s.levels| == |s.digits| == s.cfg.numLevels > 0 && s.cfg.Bottom() == s.cfg.numLevels - 1 && s.rebuilds == 0
    ensures var p := s.cfg.TableParams(s.cfg.numLevels - 1, |wide|, Rebuilding.NextDigit(s, s.cfg.numLevels - 1));
      && s.cfg.stash <= |wide| && DrawsOk(p, random.build(k, p)) && Setup(enc, p, wide, random.build(k, p))
  {
    var b := s.cfg.numLevels - 1;
    EmptyParts(s);
    hide Ideal, Fair, DrawsOk, Setup, Empty, Pow2, Power, DistinctAddrs, Faithful;
    LevelSetup(s.cfg, b, 1, wide, m, enc, random, k);
  }

  lemma EmptyParts(s: State)
    requires s.cfg.Valid() && s == Empty(s.cfg, s.hadInitial).(built := s.built)
    ensures |s.levels| == |s.digits| == s.cfg.numLevels > 0 && s.cfg.Bottom() == s.cfg.numLevels - 1 && s.rebuilds == 0
  {
  }

  lemma BottomDone(s: State, m: Memory, enc: Cipher, random: Random, k: nat, wide: seq<Row>, c: Coin) returns (o: Oracle)
    requires s.cfg.Valid() && Ideal(enc) && Fair(random, enc) && Growing.Whole(s.cfg, s.hadInitial, wide, m)
    requires s == Empty(s.cfg, s.hadInitial).(built := s.built) && |s.levels| == |s.digits| == s.cfg.numLevels > 0
    requires var p := s.cfg.TableParams(s.cfg.numLevels - 1, |wide|, Rebuilding.NextDigit(s, s.cfg.numLevels - 1)); ValidCoin(p, c) && BuildTable(p, wide, c).Ok?
    ensures var b := s.cfg.numLevels - 1;
      var t := BuildTable(s.cfg.TableParams(b, |wide|, Rebuilding.NextDigit(s, b)), wide, c).value;
      var s3 := Rebuilding.WithTable(s, b, t);
      && s3.cache.Shaped() && b < |s3.levels| && Doram.InsertStash(s3, b).Ok?
      && var s4 := Doram.InsertStash(s3, b).value;
         Inv(s4) && Represents(s4, m) && s4.cfg == s.cfg && s4.hadInitial == s.hadInitial && s4.rebuilds == 0
         && BottomInstalled(s, wide, o, s4)
    ensures Drawn(o, random, k)
  {
    var b := s.cfg.numLevels - 1;
    var p := s.cfg.TableParams(b, |wide|, Rebuilding.NextDigit(s, b));
    o := DrawnOracle(random, k, p, c);
    DrawnShuffles(random, k, p, c, enc);
    BottomIs(s.cfg);
    hide *;
    DrawnGood(random, k, enc, p, c);
    Growing.BottomOk(s, m, wide, o);
    DrawnCoin(random, k, p, c, s.built);
    NextDigitIs(s, b);
    NewTableIs(s, b, wide, o, p, c);
    WithTableIs(s, b, BuildTable(p, wide, c).value);
    InstalledIs(s, wide, o);
  }

  /** A full collapse never sorts too many rows on its way to a valid configuration. */
  lemma NaturalCopies(s: State, newCfg: Config, rows: seq<Row>)
    requires Inv(s) && newCfg.Valid() && newCfg.logN == s.cfg.logN + 1
    requires |rows| == if s.levels[s.cfg.Bottom()].Some? then 2 * s.cfg.N() else s.cfg.N()
    ensures NextPow2(|rows|, 1) < TWO32 && |rows| >= s.cfg.N()
  {
    Growing.SmallSort(s, newCfg, rows);
  }

  lemma EverythingSorts(s: State, m: Memory, rows: seq<Row>)
    requires Inv(s) && Represents(s, m) && StateShaped(s) && rows == EverythingIn(s) && !Growing.GrowOverflows(s) && Growing.AllCopies(s, m, rows)
    ensures if s.hadInitial then |rows| >= s.cfg.N() else NextPow2(|rows|, 1) < TWO32
  {
    if s.hadInitial {
      forall a: nat | a < s.cfg.N() ensures Holds(rows, a) { assert Located(s, a); }
      Growing.AllNeedRoom(rows, s.cfg.N());
    }
  }

  /** Everything collected is cleansed and widened, unless its sort is too long. */
  lemma EverythingCleansed(s: State, newCfg: Config, m: Memory, rows: seq<Row>, perm: Perm)
    requires Inv(s) && Represents(s, m) && newCfg.Valid() && newCfg.logN == s.cfg.logN + 1 && IsPerm(perm, |rows|)
    requires StateShaped(s) && rows == EverythingIn(s) && Growing.AllCopies(s, m, rows)
    ensures s.cfg.Valid()
    ensures var f := Finalize(s.cfg, s.hadInitial, rows, perm);
      && (f.Ok? <==> !Growing.GrowOverflows(s))
      && (f.Ok? ==> Widened(s, newCfg, f.value).Ok? && Growing.Whole(newCfg, s.hadInitial, Widened(s, newCfg, f.value).value, m))
  {
    if Growing.GrowOverflows(s) {
      Collect.NextPow2Above(|rows|, 1);
      hide Inv, Represents, EverythingIn, Growing.AllCopies, NextPow2, IsPerm;
    } else {
      EverythingSorts(s, m, rows);
      Growing.Cleansed(s, newCfg, m, rows, perm);
      hide Inv, Represents, EverythingIn, Growing.AllCopies, NextPow2, IsPerm, Finalize, Widened, Growing.Whole;
    }
  }

  lemma TooLong(s: State, newCfg: Config, rows: seq<Row>, enc: Cipher, random: Random)
    requires StateShaped(s) && rows == EverythingIn(s) && newCfg.Valid()
    requires !Finalize(s.cfg, s.hadInitial, rows, random.shuffle(0, |rows|)).Ok?
    ensures GrowOnDemandFails(s, newCfg, enc, random)
  {
    hide EverythingIn, Finalize, StateShaped, BuildFails, Widened;
  }

  /** What a rebuild starts from can be prepared, but for the sort of the bottom level. */
  lemma PlanReady(s: State, m: Memory, o: Oracle, r: nat, need: bool, rows: seq<Row>)
    requires Inv(s) && Represents(s, m) && s.cache.numStored == s.cfg.S() && Rebuilding.Good(o) && StateShaped(s)
    requires r == TargetFrom(s.cfg, s.digits, 0) && need == NeedExtract(s, r)
    requires Collected(s, if need then r + 1 else r) == Ok(rows)
    ensures rows != [] && s.cfg.Valid() && (r == s.cfg.numLevels - 1 || Prepared(s, r, rows, o).Ok?)
  {
    var again := Refinement.PreparedOk(s, m, o, r);
    assert again == rows;
    hide Inv, Represents, Collected, Finalize, Relabel, Collect.Collects, Collect.Buildable, NeedExtract;
  }

  lemma Unready(s: State, enc: Cipher, random: Random, k: nat, r: nat, need: bool, rows: seq<Row>)
    requires StateShaped(s) && r == TargetFrom(s.cfg, s.digits, 0) && need == NeedExtract(s, r)
    requires Collected(s, if need then r + 1 else r) == Ok(rows) && !Prepared(s, r, rows, FirstOracle(random, k)).Ok?
    ensures RebuildFails(s, enc, random, k)
  {
    hide Collected, Prepared, BuildFails, Rebuilding.NextDigit;
  }

  lemma EmptyBuilt(cfg: Config, hadInitial: bool)
    ensures Empty(cfg, hadInitial) == Empty(cfg, hadInitial).(built := 0)
  {
  }

  function DummyFlags(rows: seq<Row>, logN: nat): (flags: seq<bool>)
    ensures |flags| == |rows|
  {
    seq(|rows|, i requires 0 <= i < |rows| => IsDummy(rows[i].addr, logN))
  }

  /** What the sort opens to is the model's partition. */
  lemma SortIsPartition(rows: seq<Row>, logN: nat)
    ensures Sorting.Partition(DummyFlags(rows, logN), rows) == StablePartition(rows, logN)
  {
    KeepIsSelect(rows, logN, false, |rows|);
    KeepIsSelect(rows, logN, true, |rows|);
    assert rows[..|rows|] == rows;
  }

  lemma {:induction false} KeepIsSelect(rows: seq<Row>, logN: nat, flag: bool, k: nat)
    requires k <= |rows|
    ensures Sorting.Keep(DummyFlags(rows, logN), rows, flag, k) == Select(rows[..k], logN, flag)
  {
    if k > 0 {
      KeepIsSelect(rows, logN, flag, k - 1);
      assert rows[..k][..k - 1] == rows[..k - 1];
    }
  }

  /** The keys of the live levels once for each query. */
  method KeyGrid(keys: seq<nat>, count: nat) returns (grid: seq<nat>)
    ensures grid == Repeat(keys, count)
  {
    grid := [];
    for q := 0 to count
      invariant grid == Repeat(keys, q)
    {
      RepeatSnoc(keys, q);
      grid := grid + keys;
    }
  }

  /** The oracle of an operation that builds no table. */
  ghost function FirstOracle(random: Random, k: nat): Oracle {
    Oracle((t: nat, p: Params) => Coin(t, Runs.Identity(p.Total()), seq(p.stashSize, i => i)), (t: nat, n: nat) => random.shuffle(k, n))
  }

  /** The oracle of an operation that builds one table, with what was drawn for it. */
  ghost function DrawnOracle(random: Random, k: nat, p0: Params, c: Coin): Oracle {
    Oracle((t: nat, p: Params) => if p == p0 then c else Coin(t, Runs.Identity(p.Total()), seq(p.stashSize, i => i)),
           (t: nat, n: nat) => random.shuffle(k, n))
  }

  lemma DrawnGood(random: Random, k: nat, enc: Cipher, p0: Params, c: Coin)
    requires Fair(random, enc) && (p0.Valid() ==> ValidCoin(p0, c))
    ensures Rebuilding.Good(DrawnOracle(random, k, p0, c))
  {
    Runs.GoodExists();
    var o := DrawnOracle(random, k, p0, c);
    var id := Oracle((t: nat, p: Params) => Coin(t, Runs.Identity(p.Total()), seq(p.stashSize, k => k)), (t: nat, n: nat) => Runs.Identity(n));
    forall t: nat, p: Params | p.Valid() ensures ValidCoin(p, o.coin(t, p)) {
      assert ValidCoin(p, id.coin(t, p));
    }
    forall t: nat, n: nat ensures IsPerm(o.shuffle(t, n), n) {
      assert IsPerm(random.shuffle(k, n), n);
    }
  }

  lemma FirstShuffles(random: Random, k: nat)
    ensures forall t: nat, n: nat :: FirstOracle(random, k).shuffle(t, n) == random.shuffle(k, n)
  {
  }

  lemma FirstGood(random: Random, k: nat, enc: Cipher)
    requires Fair(random, enc)
    ensures Rebuilding.Good(FirstOracle(random, k))
  {
    var p0 := Params(0, 0, 1, 0, 0);
    DrawnGood(random, k, enc, p0, Coin(0, Perm([], []), []));
  }

  lemma BottomIs(cfg: Config)
    ensures cfg.Bottom() == cfg.numLevels - 1
  {
  }

  /** Whether the cuckoo table of a new level overflows into more than the stash. */
  ghost predicate Overflows(enc: Cipher, p: Params, rows: seq<Row>, d: Draws)
    requires DrawsOk(p, d) && |rows| == p.numElements
  {
    |Compacted(BuilderTags(enc, p, rows, d))| == p.numElements && !Cht.Fits(Inputs(enc, p, rows, d), p.logCol, p.stashSize)
  }

  /** Whether the table a level is about to be built as, on these rows and draws, overflows. */
  ghost predicate BuildFails(enc: Cipher, random: Random, k: nat, cfg: Config, l: nat, rows: seq<Row>, b: nat) {
    var p := cfg.TableParams(l, |rows|, b);
    DrawsOk(p, random.build(k, p)) && Overflows(enc, p, rows, random.build(k, p))
  }

  /** Whether the sort of a rebuild of this state is too long, or the table it builds overflows. */
  ghost predicate RebuildFails(s: State, enc: Cipher, random: Random, k: nat) {
    StateShaped(s) &&
    var r := TargetFrom(s.cfg, s.digits, 0);
    var ready := Doram.Ready(s, r, if NeedExtract(s, r) then r + 1 else r, FirstOracle(random, k));
    !ready.Ok? || BuildFails(enc, random, k, s.cfg, r, ready.value, Rebuilding.NextDigit(s, r))
  }

  /** Whether the sort of all the collected rows is too long, or the table that growing builds on them overflows. */
  ghost predicate GrowFails(s: State, newCfg: Config, rows: seq<Row>, enc: Cipher, random: Random) {
    newCfg.numLevels > 0 &&
    var f := Finalize(s.cfg, s.hadInitial, rows, random.shuffle(0, |rows|));
    !f.Ok? || (Widened(s, newCfg, f.value).Ok?
      && BuildFails(enc, random, 0, newCfg, newCfg.numLevels - 1, Widened(s, newCfg, f.value).value, 1))
  }

  ghost predicate GrowNaturallyFails(s: State, newCfg: Config, enc: Cipher, random: Random) {
    StateShaped(s) &&
    var b := s.cfg.Bottom();
    var rows := Collected(s, if NeedExtract(s, b) then b + 1 else b);
    rows.Ok? && GrowFails(s, newCfg, rows.value, enc, random)
  }

  ghost predicate GrowOnDemandFails(s: State, newCfg: Config, enc: Cipher, random: Random) {
    StateShaped(s) && GrowFails(s, newCfg, EverythingIn(s), enc, random)
  }

  /** The model takes this step, under some good oracle. */
  ghost predicate RebuildsTo(s: State, s1: State) {
    s.cache.Shaped() && exists o :: Rebuilding.Good(o) && Doram.Rebuild(s, o) == Ok(s1)
  }

  ghost predicate AccessesTo(s: State, x: nat, write: Option<nat>, s1: State, value: nat) {
    s.cache.Shaped() && exists o :: Rebuilding.Good(o) && Doram.Access(s, x, write, o) == Ok((s1, value))
  }

  ghost predicate StartsFull(cfg: Config, ys: seq<nat>, s1: State) {
    exists o :: Rebuilding.Good(o) && Doram.NewWithBottom(cfg, ys, o) == Ok(s1)
  }

  ghost predicate GrowsNaturallyTo(s: State, newCfg: Config, s1: State) {
    s.cache.Shaped() && exists o :: Rebuilding.Good(o) && Doram.GrowNaturally(s, newCfg, o) == Ok(s1)
  }

  ghost predicate GrowsOnDemandTo(s: State, newCfg: Config, s1: State) {
    s.cache.Shaped() && exists o :: Rebuilding.Good(o) && Doram.GrowOnDemand(s, newCfg, o) == Ok(s1)
  }

  /** A batch that got through `done` of its operations and then needed a rebuild whose table overflows. */
  ghost predicate StuckAt(s0: State, m: Memory, ops: seq<Op>, enc: Cipher, random: Random, done: nat, s: State) {
    && done < |ops| && Inv(s) && Represents(s, Batching.After(m, ops[..done])) && Full(s)
    && s.cfg == s0.cfg && s.hadInitial == s0.hadInitial && (done == 0 ==> s == s0)
    && RebuildFails(s, enc, random, |ops| - done)
  }

  /** A good oracle whose shuffles are the drawn ones. */
  ghost predicate Drawn(o: Oracle, random: Random, k: nat) {
    Rebuilding.Good(o) && forall t: nat, n: nat {:trigger o.shuffle(t, n)} :: o.shuffle(t, n) == random.shuffle(k, n)
  }

  /** The model's only table of an empty hierarchy. */
  ghost predicate BottomInstalled(s: State, wide: seq<Row>, o: Oracle, s1: State) {
    && s.cache.Shaped() && |s.levels| == |s.digits| == s.cfg.numLevels > 0
    && NewTable(s, s.cfg.numLevels - 1, wide, o).Ok?
    && Doram.InsertStash(NewTable(s, s.cfg.numLevels - 1, wide, o).value, s.cfg.numLevels - 1) == Ok(s1)
  }

  lemma InstalledIs(s: State, wide: seq<Row>, o: Oracle)
    requires s.cache.Shaped() && |s.levels| == |s.digits| == s.cfg.numLevels > 0
    requires NewTable(s, s.cfg.numLevels - 1, wide, o).Ok?
    requires Doram.InsertStash(NewTable(s, s.cfg.numLevels - 1, wide, o).value, s.cfg.numLevels - 1).Ok?
    ensures BottomInstalled(s, wide, o, Doram.InsertStash(NewTable(s, s.cfg.numLevels - 1, wide, o).value, s.cfg.numLevels - 1).value)
  {
    hide NewTable, Doram.InsertStash;
  }

  lemma DrawnShuffles(random: Random, k: nat, p0: Params, c: Coin, enc: Cipher)
    requires Fair(random, enc) && (p0.Valid() ==> ValidCoin(p0, c))
    ensures Drawn(DrawnOracle(random, k, p0, c), random, k)
  {
    DrawnGood(random, k, enc, p0, c);
    hide Rebuilding.Good;
  }

  lemma RebuiltTo(s: State, o: Oracle, s1: State)
    requires s.cache.Shaped() && Rebuilding.Good(o) && Doram.Rebuild(s, o) == Ok(s1)
    ensures RebuildsTo(s, s1)
  {
    hide Rebuilding.Good, Doram.Rebuild;
  }

  lemma Accessed(s: State, s1: State, x: nat, write: Option<nat>, s2: State, value: nat, random: Random, enc: Cipher)
    requires s.cache.Shaped() && s1.cache.Shaped() && Fair(random, enc)
    requires if Full(s) then RebuildsTo(s, s1) else s1 == s
    requires Doram.AccessNow(s1, x, write) == Ok((s2, value))
    ensures AccessesTo(s, x, write, s2, value)
  {
    FirstGood(random, 0, enc);
    hide Rebuilding.Good, Doram.Rebuild, Doram.AccessNow, FirstOracle, Fair;
    var o := FirstOracle(random, 0);
    if Full(s) { o :| Rebuilding.Good(o) && Doram.Rebuild(s, o) == Ok(s1); }
    assert MakeRoom(s, o) == Ok(s1);
    assert Doram.Access(s, x, write, o) == Ok((s2, value));
  }

  lemma StartedFull(cfg: Config, ys: seq<nat>, s1: State, o: Oracle, random: Random)
    requires cfg.Valid() && |ys| == cfg.N() && Drawn(o, random, 0)
    requires BottomInstalled(Empty(cfg, true), Growing.InitialRows(ys), o, s1)
    ensures StartsFull(cfg, ys, s1)
  {
    assert Growing.InitialRows(ys) == seq(|ys|, i requires 0 <= i < |ys| => Row(i, Record(ys[i], {})));
    hide NewTable, Doram.InsertStash, Rebuilding.Good, Empty;
    assert Doram.NewWithBottom(cfg, ys, o) == Ok(s1);
  }

  lemma FinishGrowIs(s: State, s2: State, newCfg: Config, ready: seq<Row>, wide: seq<Row>, o: Oracle, s1: State)
    requires newCfg.Valid() && Widened(s, newCfg, ready) == Ok(wide) && s2 == Empty(newCfg, s.hadInitial).(built := s.built)
    requires BottomInstalled(s2, wide, o, s1)
    ensures Doram.FinishGrow(s, newCfg, ready, o) == Ok(s1)
  {
    EmptyConfig(newCfg, s.hadInitial);
    hide NewTable, Doram.InsertStash, Widened, Empty;
  }

  lemma EmptyConfig(cfg: Config, hadInitial: bool)
    ensures Empty(cfg, hadInitial).cfg == cfg && Empty(cfg, hadInitial).cache.Shaped()
  {
  }

  lemma Stuck(s0: State, m: Memory, ops: seq<Op>, enc: Cipher, random: Random, done: nat, s: State)
    requires done < |ops| && Inv(s) && Represents(s, Batching.After(m, ops[..done])) && Full(s)
    requires s.cfg == s0.cfg && s.hadInitial == s0.hadInitial && (done == 0 ==> s == s0)
    requires RebuildFails(s, enc, random, |ops| - done)
    ensures exists done: nat, s: State :: StuckAt(s0, m, ops, enc, random, done, s)
  {
    hide Inv, Represents, RebuildFails, Full;
    assert StuckAt(s0, m, ops, enc, random, done, s);
  }

  lemma AfterMore(m: Memory, ops: seq<Op>, done: nat, k: nat)
    requires done + k <= |ops|
    ensures ops[done..][..k] == ops[done..done + k] && ops[done..][k..] == ops[done + k..]
    ensures Batching.After(m, ops[..done + k]) == Batching.After(Batching.After(m, ops[..done]), ops[done..][..k])
  {
    ReadsSplit(m, ops[..done + k], done);
    assert ops[..done + k][..done] == ops[..done] && ops[..done + k][done..] == ops[done..][..k];
  }

  lemma BottomFails(s: State, enc: Cipher, random: Random, k: nat, wide: seq<Row>)
    requires s.cfg.numLevels > 0 && |s.digits| == s.cfg.numLevels
    requires var p := s.cfg.TableParams(s.cfg.numLevels - 1, |wide|, Rebuilding.NextDigit(s, s.cfg.numLevels - 1));
      DrawsOk(p, random.build(k, p)) && Setup(enc, p, wide, random.build(k, p))
    ensures var p := s.cfg.TableParams(s.cfg.numLevels - 1, |wide|, Rebuilding.NextDigit(s, s.cfg.numLevels - 1));
      && |wide| == p.numElements
      && (BuildFails(enc, random, k, s.cfg, s.cfg.numLevels - 1, wide, 1) <==> Overflows(enc, p, wide, random.build(k, p)))
  {
    BottomIs(s.cfg);
    NextDigitIs(s, s.cfg.numLevels - 1);
    hide Overflows, DrawsOk, Setup;
  }

  lemma PlanOverflows(s: State, m: Memory, enc: Cipher, random: Random, k: nat, r: nat, need: bool, rows: seq<Row>, ready: seq<Row>)
    requires Planned(s, m, FirstOracle(random, k), r, need, rows, ready) && Ideal(enc) && Fair(random, enc)
    ensures r < |AfterDeletes(s, r, need).digits|
    ensures var p := s.cfg.TableParams(r, |ready|, Rebuilding.NextDigit(AfterDeletes(s, r, need), r));
      && DrawsOk(p, random.build(k, p)) && |ready| == p.numElements
      && (RebuildFails(s, enc, random, k) <==> Overflows(enc, p, ready, random.build(k, p)))
  {
    PlanParts(s, m, enc, random, k, r, need, rows, ready);
    PlannedParts(s, m, FirstOracle(random, k), r, need, rows, ready);
    hide *;
    PlanFails(s, m, enc, random, k, r, need, rows, ready);
    SameDigit(s, r, need);
    BuildFailsIs(enc, random, k, s.cfg, r, ready, Rebuilding.NextDigit(s, r));
  }

  lemma BuildFailsIs(enc: Cipher, random: Random, k: nat, cfg: Config, l: nat, rows: seq<Row>, b: nat)
    requires DrawsOk(cfg.TableParams(l, |rows|, b), random.build(k, cfg.TableParams(l, |rows|, b)))
    ensures var p := cfg.TableParams(l, |rows|, b);
      |rows| == p.numElements && (BuildFails(enc, random, k, cfg, l, rows, b) <==> Overflows(enc, p, rows, random.build(k, p)))
  {
    hide Overflows, DrawsOk;
  }

  lemma SameDigit(s: State, r: nat, need: bool)
    requires r < |s.levels| == |s.digits| == s.cfg.numLevels && r == TargetFrom(s.cfg, s.digits, 0)
    requires Inv(s)
    ensures Rebuilding.NextDigit(AfterDeletes(s, r, need), r) == Rebuilding.NextDigit(s, r)
  {
    Refinement.TargetOk(s, r);
    Rebuilding.DeletesEmpty(s, r, need);
    hide AfterDeletes;
  }

  /** Growing on all the collected rows: its table overflows exactly where the model's rows say so. */
  lemma GrownNaturally(s: State, newCfg: Config, rows: seq<Row>, ready: seq<Row>, enc: Cipher, random: Random)
    requires StateShaped(s) && newCfg.Valid()
    requires Collected(s, if NeedExtract(s, s.cfg.Bottom()) then s.cfg.Bottom() + 1 else s.cfg.Bottom()) == Ok(rows)
    requires Finalize(s.cfg, s.hadInitial, rows, random.shuffle(0, |rows|)) == Ok(ready) && Widened(s, newCfg, ready).Ok?
    ensures GrowNaturallyFails(s, newCfg, enc, random) <==>
      BuildFails(enc, random, 0, newCfg, newCfg.numLevels - 1, Widened(s, newCfg, ready).value, 1)
  {
    hide BuildFails, Collected, Finalize, Widened;
  }

  lemma ShapedCache(s: State)
    requires StateShaped(s)
    ensures s.cache.Shaped()
  {
  }

  lemma GrewNaturally(s: State, newCfg: Config, rows: seq<Row>, ready: seq<Row>, random: Random, o: Oracle, s1: State)
    requires StateShaped(s) && newCfg.Valid() && newCfg.logN == s.cfg.logN + 1 && |s.digits| == s.cfg.numLevels && ReadyToGrow(s) && rows != []
    requires Collected(s, if NeedExtract(s, s.cfg.Bottom()) then s.cfg.Bottom() + 1 else s.cfg.Bottom()) == Ok(rows)
    requires Finalize(s.cfg, s.hadInitial, rows, random.shuffle(0, |rows|)) == Ok(ready) && Drawn(o, random, 0)
    requires Doram.FinishGrow(s, newCfg, ready, o) == Ok(s1)
    ensures GrowsNaturallyTo(s, newCfg, s1)
  {
    hide Collected, Finalize, Doram.FinishGrow, ReadyToGrow, Rebuilding.Good, StateShaped, NeedExtract;
    assert o.shuffle(s.built, |rows|) == random.shuffle(0, |rows|);
    ShapedCache(s);
    Growing.GrowNaturallyUnfolds(s, newCfg, rows, o);
    hide Doram.GrowNaturally;
  }

  lemma GrownOnDemand(s: State, newCfg: Config, rows: seq<Row>, ready: seq<Row>, enc: Cipher, random: Random)
    requires StateShaped(s) && newCfg.Valid() && rows == EverythingIn(s)
    requires Finalize(s.cfg, s.hadInitial, rows, random.shuffle(0, |rows|)) == Ok(ready) && Widened(s, newCfg, ready).Ok?
    ensures GrowOnDemandFails(s, newCfg, enc, random) <==>
      BuildFails(enc, random, 0, newCfg, newCfg.numLevels - 1, Widened(s, newCfg, ready).value, 1)
  {
    hide BuildFails, EverythingIn, Finalize, Widened;
  }

  lemma GrewOnDemand(s: State, newCfg: Config, rows: seq<Row>, ready: seq<Row>, random: Random, o: Oracle, s1: State)
    requires StateShaped(s) && newCfg.Valid() && newCfg.logN == s.cfg.logN + 1 && rows == EverythingIn(s) && rows != []
    requires Finalize(s.cfg, s.hadInitial, rows, random.shuffle(0, |rows|)) == Ok(ready) && Drawn(o, random, 0)
    requires Doram.FinishGrow(s, newCfg, ready, o) == Ok(s1)
    ensures GrowsOnDemandTo(s, newCfg, s1)
  {
    assert o.shuffle(s.built, |rows|) == random.shuffle(0, |rows|);
    hide EverythingIn, Finalize, Doram.FinishGrow, Rebuilding.Good;
    assert Doram.GrowOnDemand(s, newCfg, o) == Ok(s1);
  }

  /** The plan of a rebuild tells whether its table overflows. */
  lemma PlanFails(s: State, m: Memory, enc: Cipher, random: Random, k: nat, r: nat, need: bool, rows: seq<Row>, ready: seq<Row>)
    requires Planned(s, m, FirstOracle(random, k), r, need, rows, ready) && r < |s.digits|
    ensures RebuildFails(s, enc, random, k) <==> BuildFails(enc, random, k, s.cfg, r, ready, Rebuilding.NextDigit(s, r))
  {
    hide BuildFails, Inv, Represents, Collected, Prepared, Collect.Buildable, Rebuilding.NextDigit;
  }

  /** `OhTable::new`, which fails where the original asserts. */
  method MakeTable(p: Params, enc: Cipher, rows: seq<Row>, d: Draws) returns (ok: bool, table: OhTable, ghost c: Coin)
    requires Setup(enc, p, rows, d)
    ensures DrawsOk(p, d) && |rows| == p.numElements && fresh(table) && fresh(table.receiverShuffle) && table.enc == enc
    ensures ok <==> !Overflows(enc, p, rows, d)
    ensures ok ==> table.Valid() && ValidCoin(p, c) && BuildTable(p, rows, c) == Ok(table.model)
  {
    SetupSizes(enc, p, rows, d);
    table := new OhTable(p, enc, d.key, d.receiver);
    var ys := seq(|rows|, i requires 0 <= i < |rows| => rows[i].rec);
    assert RowsOf(AddrsOf(rows), ys) == rows;
    hide Setup, DrawsOk, ValidCoin, BuildTable, OhTable.Valid, Inputs, Compacted, BuilderTags, Cht.Fits;
    ok, c := table.Build(AddrsOf(rows), ys, d);
  }

  lemma {:induction false} GatherOk(cfg: Config, levels: seq<Option<Table>>, digits: seq<nat>, upto: nat, last: nat)
    requires upto <= last <= |levels| == |digits| && LevelsShaped(levels) && Gather(cfg, levels, digits, last).Ok?
    ensures Gather(cfg, levels, digits, upto).Ok?
    decreases last
  {
    if upto < last { GatherOk(cfg, levels, digits, upto, last - 1); }
  }

  /** The access of the model in terms of its steps. */
  lemma NowSteps(s: State, x: nat, write: Option<nat>)
    requires s.cache.Shaped() && KeysOk(s) && Doram.AccessNow(s, x, write).Ok?
    ensures
      var q := CacheQuery(s.cache, x, s.cfg.N());
      var r := QueryLevels(s.levels, 0, LiveKeys(s.levels, 0), x, q.1, q.2);
      && r.Ok?
      && var v := if write.Some? then write.value else r.value.1.value;
         var w := CacheWrite(q.0, [x], [Record(v, {})]);
         w.Ok? && Doram.AccessNow(s, x, write)
           == Ok((s.(cache := w.value, levels := r.value.0, queryKey := Some(LiveKeys(s.levels, 0))), r.value.1.value))
  {
    hide CacheQuery, QueryLevels, CacheWrite, LiveKeys;
  }
}
