/** The GigaDoram hierarchy on opened values, as functions on its state.  The random choices of a
    table build and of the bottom shuffle come from an `Oracle` that may choose anything. */
module Doram {
  import opened Words
  import opened Tables
  import opened Caches

  datatype Bounds = Empirical | Proven

  datatype Config = Config(logN: nat, numLevels: nat, logS: nat, logAmp: nat, stash: nat, bounds: Bounds)
  {
    function S(): (r: nat) ensures r >= 1 { Pow2(logS) }

    function Amp(): (r: nat) ensures r >= 1 { Pow2(logAmp) }

    function Fill(): nat { if stash <= S() then S() - stash else 0 }

    function N(): (r: nat) ensures r >= 1 { Pow2(logN) }

    function Bottom(): int { numLevels - 1 }

    /** `GigaDoramConfig::validate`. */
    predicate Valid() {
      && numLevels > 0 && logN < 32 && logS < 64 && logAmp < 64
      && stash < S() && numLevels <= 8
      && logN == logS + (numLevels - 1) * logAmp
    }

    function NumDummies(level: nat): nat { Power(Amp(), level) * Fill() }

    function NumElementsAt(level: nat, state: nat): nat {
      if level == Bottom() then N() else state * Pow2(level * logAmp + logS)
    }

    /** The load factor times `b`, rounded down: 6/5 or 2. */
    function LoadFloor(b: nat): nat { if bounds.Empirical? then 6 * b / 5 else 2 * b }

    function LogCol(level: nat, b: nat): nat { level * logAmp + logS + Log2(LoadFloor(b)) + 1 }

    function TableParams(level: nat, numElements: nat, b: nat): Params {
      Params(numElements, NumDummies(level), stash, LogCol(level, b), logN)
    }
  }

  function Power(b: nat, e: nat): (r: nat)
    ensures b >= 1 ==> r >= 1
  {
    if e == 0 then 1 else b * Power(b, e - 1)
  }

  /** The rounded-down binary logarithm. */
  function Log2(n: nat): nat {
    if n <= 1 then 0 else 1 + Log2(n / 2)
  }

  function NextPow2(n: nat, p: nat): nat
    requires p >= 1
    decreases n - p
  {
    if p >= n then p else NextPow2(n, 2 * p)
  }

  /** `queryKey` and `batchKeys` cache the keys of the live levels; `built` and `rebuilds` count, for the
      proofs only, the tables built so far and the rebuilds since the hierarchy was created or grown. */
  datatype State = State(cfg: Config, cache: Cache, levels: seq<Option<Table>>, digits: seq<nat>,
                         queryKey: Option<seq<nat>>, batchKeys: Option<(nat, seq<nat>)>,
                         hadInitial: bool, built: nat, rebuilds: nat)

  datatype Oracle = Oracle(coin: (nat, Params) -> Coin, shuffle: (nat, nat) -> Perm)

  // -------------------------------------------------------------- accessing

  /** The keys of the live levels from level `l` on. */
  function LiveKeys(levels: seq<Option<Table>>, l: nat): (keys: seq<nat>)
    decreases |levels| - l
  {
    if l >= |levels| then []
    else (if levels[l].Some? then [levels[l].value.key] else []) + LiveKeys(levels, l + 1)
  }

  /** The query loop from level `l` on; `keys` are the cached keys of the live levels not yet visited. */
  function QueryLevels(levels: seq<Option<Table>>, l: nat, keys: seq<nat>, x: nat, acc: Record, found: bool)
    : (r: Outcome<(seq<Option<Table>>, Record, bool)>)
    decreases |levels| - l
  {
    if l >= |levels| then Ok((levels, acc, found))
    else if levels[l].None? then QueryLevels(levels, l + 1, keys, x, acc, found)
    else if keys == [] then Crash
    else
      var useDummy := (l in acc.alibi) != found;
      var (t, y, hit) :- Query(levels[l].value, Tag(keys[0], x), useDummy);
      QueryLevels(levels[l := Some(t)], l + 1, keys[1..], x, XorRecord(acc, y), found != hit)
  }

  /** `read_and_maybe_write` once the cache is writeable: returns the value the address had. */
  ghost function AccessNow(s: State, x: nat, write: Option<nat>): (r: Outcome<(State, nat)>)
    requires s.cache.Shaped()
    ensures r.Ok? ==> r.value.0.cache.Shaped()
  {
    var keys := if s.queryKey.None? then LiveKeys(s.levels, 0) else s.queryKey.value;
    var (cache1, acc0, found0) := CacheQuery(s.cache, x, s.cfg.N());
    var (levels, acc, _) :- QueryLevels(s.levels, 0, keys, x, acc0, found0);
    var value := if write.Some? then write.value else acc.value;
    var cache2 :- CacheWrite(cache1, [x], [Record(value, {})]);
    Ok((s.(cache := cache2, levels := levels, queryKey := Some(keys)), acc.value))
  }

  ghost function Full(s: State): bool { s.cache.numStored >= |s.cache.addrs| }

  ghost function MakeRoom(s: State, o: Oracle): (r: Outcome<State>)
    requires s.cache.Shaped()
    ensures r.Ok? ==> r.value.cache.Shaped()
  {
    if Full(s) then Rebuild(s, o) else Ok(s)
  }

  /** `read_and_maybe_write`. */
  ghost function Access(s: State, x: nat, write: Option<nat>, o: Oracle): (r: Outcome<(State, nat)>)
    requires s.cache.Shaped()
    ensures r.Ok? ==> r.value.0.cache.Shaped()
  {
    var s1 :- MakeRoom(s, o);
    AccessNow(s1, x, write)
  }

  // -------------------------------------------------------------- rebuilding

  function TargetFrom(cfg: Config, digits: seq<nat>, r: nat): (t: nat)
    requires |digits| == cfg.numLevels > 0 && r <= cfg.Bottom()
    ensures r <= t <= cfg.Bottom()
    decreases cfg.numLevels - r
  {
    if r < cfg.Bottom() && digits[r] >= cfg.Amp() - 1 then TargetFrom(cfg, digits, r + 1) else r
  }

  function NeedExtract(s: State, r: nat): bool
    requires r < |s.levels| && |s.levels| == |s.digits|
  {
    if r == s.cfg.Bottom() then s.digits[r] != 0 else s.levels[r].Some?
  }

  predicate IsDummy(addr: nat, logN: nat) { (addr / Pow2(logN)) % 2 == 1 }

  function DummyRows(n: nat, sentinel: nat): (rows: seq<Row>)
    ensures |rows| == n && forall i :: 0 <= i < n ==> rows[i] == Row(sentinel, ZERO)
  {
    seq(n, _ => Row(sentinel, ZERO))
  }

  /** Extracted rows, padded with dummy rows to `n`. */
  function PadTo(rows: seq<Row>, n: nat, sentinel: nat): (r: Outcome<seq<Row>>)
    ensures r.Ok? ==> |r.value| == n
  {
    if |rows| > n then Crash else Ok(rows + DummyRows(n - |rows|, sentinel))
  }

  ghost predicate LevelShaped(t: Option<Table>) {
    t.Some? ==> |t.value.xs| == |t.value.ys| == |t.value.touched|
  }

  ghost predicate LevelsShaped(levels: seq<Option<Table>>) {
    forall l {:trigger levels[l]} :: 0 <= l < |levels| ==> LevelShaped(levels[l])
  }

  /** The spent tables below level `upto`, each padded to its element count. */
  ghost function Gather(cfg: Config, levels: seq<Option<Table>>, digits: seq<nat>, upto: nat): (r: Outcome<seq<Row>>)
    requires upto <= |levels| == |digits| && LevelsShaped(levels)
  {
    if upto == 0 then Ok([])
    else
      var rows :- Gather(cfg, levels, digits, upto - 1);
      var l := upto - 1;
      if levels[l].None? then Ok(rows)
      else
        var own :- Extract(levels[l].value);
        var padded :- PadTo(own, cfg.NumElementsAt(l, digits[l]), cfg.N());
        Ok(rows + padded)
  }

  function ClearAlibis(rows: seq<Row>): (r: seq<Row>)
    ensures |r| == |rows| && forall i :: 0 <= i < |r| ==> r[i] == Row(rows[i].addr, Record(rows[i].rec.value, {}))
  {
    seq(|rows|, i requires 0 <= i < |rows| => Row(rows[i].addr, Record(rows[i].rec.value, {})))
  }

  /** `relabel_dummies`: row `i`, if a dummy, becomes address `base + i`; labels must fit 32 bits. */
  function Relabel(rows: seq<Row>, logN: nat, base: nat): (r: Outcome<seq<Row>>)
  {
    if base + |rows| > TWO32 then Crash
    else Ok(seq(|rows|, i requires 0 <= i < |rows| =>
                  if IsDummy(rows[i].addr, logN) then Row(base + i, rows[i].rec) else rows[i]))
  }

  /** The rows whose dummy flag is `flag`, in order. */
  function Select(rows: seq<Row>, logN: nat, flag: bool): (r: seq<Row>)
    ensures |r| <= |rows|
  {
    if rows == [] then []
    else
      var n := |rows| - 1;
      Select(rows[..n], logN, flag) + (if IsDummy(rows[n].addr, logN) == flag then [rows[n]] else [])
  }

  /** What the oblivious sort opens to: real rows first, dummies last, otherwise in order. */
  function StablePartition(rows: seq<Row>, logN: nat): seq<Row> {
    Select(rows, logN, false) + Select(rows, logN, true)
  }

  ghost function Shuffled(rows: seq<Row>, perm: Perm): (r: Outcome<seq<Row>>)
  {
    if !IsPerm(perm, |rows|) then Crash
    else Ok(seq(|rows|, j requires 0 <= j < |rows| => rows[perm.from[j]]))
  }

  /** `finalize_bottom_level`.  The sort's positions are 32-bit, so it must stay below 2^32 rows. */
  ghost function Finalize(cfg: Config, hadInitial: bool, rows: seq<Row>, perm: Perm): (r: Outcome<seq<Row>>)
  {
    if hadInitial then
      var shuffled :- Shuffled(rows, perm);
      var kept := Select(shuffled, cfg.logN, false);
      if |rows| < cfg.N() || |kept| != cfg.N() then Refused else Ok(kept)
    else
      var sortLen := NextPow2(|rows|, 1);
      var padded :- PadTo(rows, sortLen, cfg.N());
      if sortLen >= TWO32 then Crash
      else
        var sorted := StablePartition(padded, cfg.logN);
        Relabel(if |sorted| <= cfg.N() then sorted else sorted[..cfg.N()], cfg.logN, cfg.N())
  }

  /** `delete_level`. */
  function DeleteLevel(s: State, l: nat): (r: State)
    requires l < |s.levels| == |s.digits|
    ensures |r.levels| == |r.digits| == |s.levels| && r.cfg == s.cfg && r.cache == s.cache && r.hadInitial == s.hadInitial
    ensures r.built == s.built && r.rebuilds == s.rebuilds && r.queryKey == None && r.batchKeys == None
  {
    s.(levels := s.levels[l := None], queryKey := None, batchKeys := None,
       digits := if l < s.cfg.Bottom() && s.digits[l] == s.cfg.Amp() - 1 then s.digits[l := 0] else s.digits)
  }

  function DeleteBelow(s: State, r: nat): (r1: State)
    requires r <= |s.levels| == |s.digits|
    ensures |r1.levels| == |r1.digits| == |s.levels| && r1.cfg == s.cfg && r1.cache == s.cache && r1.hadInitial == s.hadInitial
    ensures r1.built == s.built && r1.rebuilds == s.rebuilds
  {
    if r == 0 then s else DeleteLevel(DeleteBelow(s, r - 1), r - 1)
  }

  /** `new_ohtable_of_level`. */
  ghost function NewTable(s: State, level: nat, rows: seq<Row>, o: Oracle): (r: Outcome<State>)
    requires |s.levels| == |s.digits|
    ensures r.Ok? ==> r.value.cache == s.cache && |r.value.levels| == |r.value.digits| == |s.levels|
  {
    if level >= s.cfg.numLevels || level >= |s.levels| || |rows| < s.cfg.stash then Crash
    else
      var b := if level == s.cfg.Bottom() then 1 else s.digits[level] + 1;
      if level != s.cfg.Bottom() && b >= s.cfg.Amp() then Crash
      else
        var p := s.cfg.TableParams(level, |rows|, b);
        var t :- BuildTable(p, rows, o.coin(s.built, p));
        Ok(s.(levels := s.levels[level := Some(t)], digits := s.digits[level := b],
              queryKey := None, batchKeys := None, built := s.built + 1))
  }

  /** `insert_stash`: the stashed elements enter the cache with the alibi bit of their level. */
  ghost function InsertStash(s: State, level: nat): (r: Outcome<State>)
    requires s.cache.Shaped() && level < |s.levels|
    ensures r.Ok? ==> r.value.cache.Shaped()
  {
    if s.levels[level].None? then Crash
    else
      var t := s.levels[level].value;
      var ys := seq(|t.stashYs|, k requires 0 <= k < |t.stashYs| =>
                      Record(t.stashYs[k].value, t.stashYs[k].alibi + {level}));
      var cache :- CacheWrite(s.cache, t.stashXs, ys);
      Ok(s.(cache := cache))
  }

  ghost predicate StateShaped(s: State) {
    && s.cache.Shaped() && |s.levels| == |s.digits| == s.cfg.numLevels > 0 && LevelsShaped(s.levels)
  }

  /** The rows a rebuild into level `r` starts from: the full cache and the spent tables below it. */
  ghost function Collected(s: State, last: nat): (rows: Outcome<seq<Row>>)
    requires StateShaped(s) && last <= |s.levels|
  {
    if s.cache.numStored != |s.cache.addrs| then Crash
    else
      var below :- Gather(s.cfg, s.levels, s.digits, last);
      Ok(ClearAlibis(StoredRows(s.cache) + below))
  }

  /** The rows the new table of level `r` is built on. */
  ghost function Prepared(s: State, r: nat, rows: seq<Row>, o: Oracle): (out: Outcome<seq<Row>>)
    requires StateShaped(s) && r < s.cfg.numLevels
  {
    if rows == [] then Refused
    else if r == s.cfg.Bottom() then Finalize(s.cfg, s.hadInitial, rows, o.shuffle(s.built, |rows|))
    else if |rows| != s.cfg.NumElementsAt(r, s.digits[r] + 1) then Crash
    else Relabel(rows, s.cfg.logN, s.cfg.N())
  }

  /** The rows the new table of level `r` is built on, when the levels below `last` are collected. */
  ghost function Ready(s: State, r: nat, last: nat, o: Oracle): Outcome<seq<Row>>
    requires StateShaped(s) && r < s.cfg.numLevels && last <= |s.levels|
  {
    var rows :- Collected(s, last);
    Prepared(s, r, rows, o)
  }

  /** A fresh cache, no levels below `r`, and none at `r` if it was collected. */
  function AfterDeletes(s: State, r: nat, need: bool): (r1: State)
    requires r < |s.levels| == |s.digits|
    ensures r1.cache.Shaped() && |r1.levels| == |r1.digits| == |s.levels| && r1.cfg == s.cfg
  {
    var s1 := DeleteBelow(s.(cache := NewCache(s.cfg.S(), s.cfg.N())), r);
    if need then DeleteLevel(s1, r) else s1
  }

  /** The new table of level `r` with its stash in the cache. */
  ghost function Install(s2: State, r: nat, ready: seq<Row>, o: Oracle, rebuilds: nat): (res: Outcome<State>)
    requires s2.cache.Shaped() && r < |s2.levels| == |s2.digits|
    ensures res.Ok? ==> res.value.cache.Shaped()
  {
    var s3 :- NewTable(s2, r, ready, o);
    var s4 :- InsertStash(s3, r);
    Ok(s4.(rebuilds := rebuilds))
  }

  /** `rebuild`. */
  ghost function Rebuild(s: State, o: Oracle): (r: Outcome<State>)
    requires s.cache.Shaped()
    ensures r.Ok? ==> r.value.cache.Shaped()
  {
    if !StateShaped(s) then Crash
    else
      var r := TargetFrom(s.cfg, s.digits, 0);
      var need := NeedExtract(s, r);
      var ready :- Ready(s, r, if need then r + 1 else r, o);
      Install(AfterDeletes(s, r, need), r, ready, o, s.rebuilds + 1)
  }

  // -------------------------------------------------------------- creating

  function Empty(cfg: Config, hadInitial: bool): State {
    State(cfg, NewCache(cfg.S(), cfg.N()), seq(cfg.numLevels, _ => None), seq(cfg.numLevels, _ => 0),
          None, None, hadInitial, 0, 0)
  }

  /** `GigaDoram::new`. */
  function New(cfg: Config): (r: Outcome<State>)
    ensures r.Ok? ==> r.value.cache.Shaped()
  {
    if !cfg.Valid() then Crash
    else
      var s := Empty(cfg, false);
      var cache := CacheSkip(s.cache, cfg.stash);
      if cache.Ok? then Ok(s.(cache := cache.value)) else Crash
  }

  /** `GigaDoram::new_with_initial_bottom_level`. */
  ghost function NewWithBottom(cfg: Config, ys: seq<nat>, o: Oracle): (r: Outcome<State>)
    ensures r.Ok? ==> r.value.cache.Shaped()
  {
    if !cfg.Valid() then Crash
    else if |ys| != cfg.N() then Refused
    else
      var rows := seq(|ys|, i requires 0 <= i < |ys| => Row(i, Record(ys[i], {})));
      var s :- NewTable(Empty(cfg, true), cfg.Bottom(), rows, o);
      InsertStash(s, cfg.Bottom())
  }

  // --------------------------------------------------------------- batching

  /** One read, or write with a value. */
  datatype Op = Op(addr: nat, write: Option<nat>)

  function Addrs(ops: seq<Op>): (xs: seq<nat>)
    ensures |xs| == |ops| && forall i :: 0 <= i < |xs| ==> xs[i] == ops[i].addr
  {
    seq(|ops|, i requires 0 <= i < |ops| => ops[i].addr)
  }

  /** The key grid of a batch: the live keys once per query. */
  function Repeat(keys: seq<nat>, n: nat): (r: seq<nat>)
    ensures |r| == n * |keys|
  {
    if n == 0 then [] else keys + Repeat(keys, n - 1)
  }

  /** The tags of the level at position `pos` among the live ones, from the flattened key grid. */
  function GridTags(grid: seq<nat>, live: nat, pos: nat, xs: seq<nat>): (r: Outcome<seq<Tag>>)
    ensures r.Ok? ==> |r.value| == |xs|
    decreases |xs|
  {
    if xs == [] then Ok([])
    else if pos >= live || |grid| < live then Crash
    else
      var rest :- GridTags(grid[live..], live, pos, xs[1..]);
      Ok([Tag(grid[pos], xs[0])] + rest)
  }

  function UseDummies(hits: seq<(Record, bool)>, l: nat): (r: seq<bool>)
    ensures |r| == |hits|
  {
    seq(|hits|, q requires 0 <= q < |hits| => (l in hits[q].0.alibi) != hits[q].1)
  }

  function Combined(hits: seq<(Record, bool)>, more: seq<(Record, bool)>): (r: seq<(Record, bool)>)
    requires |hits| == |more|
    ensures |r| == |hits|
  {
    seq(|hits|, q requires 0 <= q < |hits| => (XorRecord(hits[q].0, more[q].0), hits[q].1 != more[q].1))
  }

  /** The level loop of a batch: every live level answers all queries before the next one starts. */
  function LevelsMany(levels: seq<Option<Table>>, l: nat, pos: nat, live: nat, grid: seq<nat>, xs: seq<nat>,
                      hits: seq<(Record, bool)>): (r: Outcome<(seq<Option<Table>>, seq<(Record, bool)>)>)
    requires |hits| == |xs|
    ensures r.Ok? ==> |r.value.1| == |xs|
    decreases |levels| - l
  {
    if l >= |levels| then Ok((levels, hits))
    else if levels[l].None? then LevelsMany(levels, l + 1, pos, live, grid, xs, hits)
    else
      var tags :- GridTags(grid, live, pos, xs);
      var (t, more) :- QueryMany(levels[l].value, tags, UseDummies(hits, l));
      LevelsMany(levels[l := Some(t)], l + 1, pos + 1, live, grid, xs, Combined(hits, more))
  }

  function Values(hits: seq<(Record, bool)>): (r: seq<nat>)
    ensures |r| == |hits|
  {
    seq(|hits|, q requires 0 <= q < |hits| => hits[q].0.value)
  }

  function Written(ops: seq<Op>, outputs: seq<nat>): (r: seq<Record>)
    requires |ops| == |outputs|
    ensures |r| == |ops|
  {
    seq(|ops|, q requires 0 <= q < |ops| => Record(if ops[q].write.Some? then ops[q].write.value else outputs[q], {}))
  }

  /** `batch_access_chunk`. */
  ghost function Chunk(s: State, ops: seq<Op>): (r: Outcome<(State, seq<nat>)>)
    requires s.cache.Shaped()
    ensures r.Ok? ==> r.value.0.cache.Shaped()
  {
    var count, xs, live := |ops|, Addrs(ops), LiveKeys(s.levels, 0);
    var cached := s.batchKeys.Some? && s.batchKeys.value.0 == count;
    var grid := if cached then s.batchKeys.value.1 else Repeat(live, count);
    var (cache1, hits) := CacheQueryMany(s.cache, xs, s.cfg.N());
    var (levels, accs) :- LevelsMany(s.levels, 0, 0, |live|, grid, xs, hits);
    var cache2 :- CacheWrite(cache1, xs, Written(ops, Values(accs)));
    Ok((s.(cache := cache2, levels := levels, batchKeys := Some((count, grid))), Values(accs)))
  }

  /** The loop of `batch_access`: chunks as long as the cache has room, a rebuild whenever it is full. */
  ghost function BatchFrom(s: State, ops: seq<Op>, o: Oracle): (r: Outcome<(State, seq<nat>)>)
    requires s.cache.Shaped()
    ensures r.Ok? ==> r.value.0.cache.Shaped()
    decreases |ops|
  {
    if ops == [] then Ok((s, []))
    else
      var s1 :- MakeRoom(s, o);
      var free := |s1.cache.addrs| - s1.cache.numStored;
      if free == 0 then Crash
      else
        var k := if |ops| <= free then |ops| else free;
        var (s2, outputs) :- Chunk(s1, ops[..k]);
        var (s3, more) :- BatchFrom(s2, ops[k..], o);
        Ok((s3, outputs + more))
  }

  /** `batch_access`. */
  ghost function Batch(s: State, ops: seq<Op>, o: Oracle): (r: Outcome<(State, seq<nat>)>)
    requires s.cache.Shaped()
    ensures r.Ok? ==> r.value.0.cache.Shaped()
  {
    if ops == [] then Refused else BatchFrom(s, ops, o)
  }

  /** The same operations one at a time. */
  ghost function AccessEach(s: State, ops: seq<Op>, o: Oracle): (r: Outcome<(State, seq<nat>)>)
    requires s.cache.Shaped()
    ensures r.Ok? ==> r.value.0.cache.Shaped()
    decreases |ops|
  {
    if ops == [] then Ok((s, []))
    else
      var (s1, output) :- Access(s, ops[0].addr, ops[0].write, o);
      var (s2, more) :- AccessEach(s1, ops[1..], o);
      Ok((s2, [output] + more))
  }

  // ---------------------------------------------------------------- growing

  /** `ready_to_grow_naturally`. */
  ghost predicate ReadyToGrow(s: State)
    requires |s.digits| == s.cfg.numLevels > 0
  {
    Full(s) && TargetFrom(s.cfg, s.digits, 0) == s.cfg.Bottom()
  }

  /** The rows of the widened bottom level: new real addresses, or fresh dummy labels. */
  ghost function Widened(s: State, newCfg: Config, rows: seq<Row>): (r: Outcome<seq<Row>>)
  {
    if |rows| > newCfg.N() then Refused
    else if s.hadInitial then
      if s.cfg.N() > newCfg.N() || |rows| + (newCfg.N() - s.cfg.N()) != newCfg.N() || newCfg.N() > TWO32 then Crash
      else Ok(rows + seq(newCfg.N() - s.cfg.N(), i requires 0 <= i < newCfg.N() - s.cfg.N() => Row(s.cfg.N() + i, ZERO)))
    else
      Relabel(rows + DummyRows(newCfg.N() - |rows|, s.cfg.N()), s.cfg.logN, newCfg.N())
  }

  /** `finish_grow`: an empty hierarchy of the new size with everything in its bottom level. */
  ghost function FinishGrow(s: State, newCfg: Config, rows: seq<Row>, o: Oracle): (r: Outcome<State>)
    requires newCfg.Valid()
    ensures r.Ok? ==> r.value.cache.Shaped()
  {
    var wide :- Widened(s, newCfg, rows);
    var s1 :- NewTable(Empty(newCfg, s.hadInitial).(built := s.built), newCfg.Bottom(), wide, o);
    InsertStash(s1, newCfg.Bottom())
  }

  /** `grow_naturally`. */
  ghost function GrowNaturally(s: State, newCfg: Config, o: Oracle): (r: Outcome<State>)
    requires s.cache.Shaped()
    ensures r.Ok? ==> r.value.cache.Shaped()
  {
    if !StateShaped(s) then Crash
    else if newCfg.logN != s.cfg.logN + 1 then Refused
    else if !newCfg.Valid() then Crash
    else if !ReadyToGrow(s) then Refused
    else
      var b := s.cfg.Bottom();
      var rows :- Collected(s, if NeedExtract(s, b) then b + 1 else b);
      if rows == [] then Refused
      else
        var ready :- Finalize(s.cfg, s.hadInitial, rows, o.shuffle(s.built, |rows|));
        FinishGrow(s, newCfg, ready, o)
  }

  /** The untouched rows of all levels below `upto`, spent or not. */
  ghost function GatherAll(levels: seq<Option<Table>>, upto: nat): seq<Row>
    requires upto <= |levels| && LevelsShaped(levels)
  {
    if upto == 0 then []
    else GatherAll(levels, upto - 1) + (if levels[upto - 1].Some? then UntouchedRows(levels[upto - 1].value) else [])
  }

  ghost function EverythingIn(s: State): seq<Row>
    requires StateShaped(s)
  {
    ClearAlibis(StoredRows(s.cache) + GatherAll(s.levels, |s.levels|))
  }

  /** `grow_on_demand`. */
  ghost function GrowOnDemand(s: State, newCfg: Config, o: Oracle): (r: Outcome<State>)
    requires s.cache.Shaped()
    ensures r.Ok? ==> r.value.cache.Shaped()
  {
    if !StateShaped(s) then Crash
    else if newCfg.logN != s.cfg.logN + 1 then Refused
    else if !newCfg.Valid() then Crash
    else
      var rows := EverythingIn(s);
      if rows == [] then Refused
      else
        var ready :- Finalize(s.cfg, s.hadInitial, rows, o.shuffle(s.built, |rows|));
        FinishGrow(s, newCfg, ready, o)
  }
}
