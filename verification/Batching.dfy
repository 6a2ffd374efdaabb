/** A batch does what its operations do one at a time. */
module Batching {
  import opened Words
  import opened Tables
  import opened Caches
  import opened Doram
  import opened Invariants
  import opened Refinement
  import opened Rebuilding
  import opened Accessing
  import Collect

  // ----------------------------------------------------------- the level loop

  /** A level before the loop's position takes no part in it. */
  lemma {:induction false} QueryFrame(levels: seq<Option<Table>>, k: nat, t: Option<Table>, l: nat, keys: seq<nat>, x: nat, acc: Record, found: bool)
    requires k < l && k < |levels|
    ensures var r := QueryLevels(levels, l, keys, x, acc, found);
      QueryLevels(levels[k := t], l, keys, x, acc, found) ==
        if r.Ok? && k < |r.value.0| then Ok((r.value.0[k := t], r.value.1, r.value.2)) else r
    ensures var r := QueryLevels(levels, l, keys, x, acc, found); r.Ok? ==> |r.value.0| == |levels| && r.value.0[k] == levels[k]
    decreases |levels| - l
  {
    hide Query;
    if l < |levels| {
      if levels[l].None? {
        QueryFrame(levels, k, t, l + 1, keys, x, acc, found);
      } else if keys != [] {
        var q := Query(levels[l].value, Tag(keys[0], x), (l in acc.alibi) != found);
        if q.Ok? {
          var (t1, y, hit) := q.value;
          assert levels[k := t][l := Some(t1)] == levels[l := Some(t1)][k := t];
          QueryFrame(levels[l := Some(t1)], k, t, l + 1, keys[1..], x, XorRecord(acc, y), found != hit);
        }
      }
    }
  }

  /** Queries leave the keys of a table and the set of live levels alone. */
  lemma {:induction false} QueryKeepsKeys(levels: seq<Option<Table>>, l: nat, keys: seq<nat>, x: nat, acc: Record, found: bool, j: nat)
    ensures var r := QueryLevels(levels, l, keys, x, acc, found);
      r.Ok? ==> |r.value.0| == |levels| && LiveKeys(r.value.0, j) == LiveKeys(levels, j)
    decreases |levels| - l
  {
    if l < |levels| {
      if levels[l].None? {
        QueryKeepsKeys(levels, l + 1, keys, x, acc, found, j);
      } else if keys != [] {
        var q := Query(levels[l].value, Tag(keys[0], x), (l in acc.alibi) != found);
        if q.Ok? {
          var (t1, y, hit) := q.value;
          var next := levels[l := Some(t1)];
          SameKeys(levels, next, j);
          QueryKeepsKeys(next, l + 1, keys[1..], x, XorRecord(acc, y), found != hit, j);
        }
      }
    }
  }

  /** Many queries of one table are the first one and then the others. */
  lemma QueryManySplit(t: Table, tag: Tag, useDummy: bool, tags: seq<Tag>, useDummies: seq<bool>)
    requires |tags| == |useDummies|
    ensures var first, all := Query(t, tag, useDummy), QueryMany(t, [tag] + tags, [useDummy] + useDummies);
      if first.Ok? then
        var rest := QueryMany(first.value.0, tags, useDummies);
        all == if rest.Ok? then Ok((rest.value.0, [(first.value.1, first.value.2)] + rest.value.1)) else Crash
      else all == Crash
  {
    assert ([tag] + tags)[1..] == tags && ([useDummy] + useDummies)[1..] == useDummies;
    EachCrash(t, [tag] + tags, [useDummy] + useDummies);
    var first := Query(t, tag, useDummy);
    if first.Ok? { EachCrash(first.value.0, tags, useDummies); }
  }

  lemma {:induction false} EachCrash(t: Table, tags: seq<Tag>, useDummies: seq<bool>)
    requires |tags| == |useDummies|
    ensures !QueryEach(t, tags, useDummies).Refused?
    decreases |tags|
  {
    if tags != [] {
      var first := Query(t, tags[0], useDummies[0]);
      if first.Ok? { EachCrash(first.value.0, tags[1..], useDummies[1..]); }
    }
  }

  /** What one query does to all levels and the others do afterwards. */
  function Then(first: Outcome<(seq<Option<Table>>, Record, bool)>, l: nat, pos: nat, keys: seq<nat>, xs: seq<nat>, hits: seq<(Record, bool)>)
    : Outcome<(seq<Option<Table>>, seq<(Record, bool)>)>
    requires |hits| == |xs|
  {
    if !first.Ok? then Crash
    else
      var rest := LevelsMany(first.value.0, l, pos, |keys|, Repeat(keys, |xs|), xs, hits);
      if rest.Ok? then Ok((rest.value.0, [(first.value.1, first.value.2)] + rest.value.1)) else Crash
  }

  /** The level loop of a batch can run the first query through all levels before the others start. */
  lemma {:induction false} SplitMany(levels: seq<Option<Table>>, l: nat, pos: nat, keys: seq<nat>, x: nat, hit: (Record, bool),
                                     xs: seq<nat>, hits: seq<(Record, bool)>)
    requires |hits| == |xs| && pos <= |keys|
    ensures LevelsMany(levels, l, pos, |keys|, Repeat(keys, 1 + |xs|), [x] + xs, [hit] + hits)
         == Then(QueryLevels(levels, l, keys[pos..], x, hit.0, hit.1), l, pos, keys, xs, hits)
    decreases |levels| - l, 1
  {
    if l < |levels| {
      if levels[l].None? {
        SplitMany(levels, l + 1, pos, keys, x, hit, xs, hits);
        QueryStays(levels, l, l + 1, keys[pos..], x, hit.0, hit.1);
      } else if pos == |keys| {
      } else {
        SplitLevel(levels, l, pos, keys, x, hit, xs, hits);
      }
    }
  }

  lemma QueryStays(levels: seq<Option<Table>>, k: nat, l: nat, keys: seq<nat>, x: nat, acc: Record, found: bool)
    requires k < l && k < |levels|
    ensures var r := QueryLevels(levels, l, keys, x, acc, found); r.Ok? ==> |r.value.0| == |levels| && r.value.0[k] == levels[k]
  {
    QueryFrame(levels, k, levels[k], l, keys, x, acc, found);
  }

  function TagsOf(key: nat, xs: seq<nat>): (r: seq<Tag>)
    ensures |r| == |xs|
  {
    seq(|xs|, q requires 0 <= q < |xs| => Tag(key, xs[q]))
  }

  /** Every query of a batch uses the key of the level at hand. */
  lemma {:induction false} GridOk(keys: seq<nat>, pos: nat, xs: seq<nat>)
    requires pos < |keys|
    ensures GridTags(Repeat(keys, |xs|), |keys|, pos, xs) == Ok(TagsOf(keys[pos], xs))
    decreases |xs|
  {
    if xs != [] {
      GridOk(keys, pos, xs[1..]);
      assert Repeat(keys, |xs|)[|keys|..] == Repeat(keys, |xs[1..]|);
      assert TagsOf(keys[pos], xs) == [Tag(keys[pos], xs[0])] + TagsOf(keys[pos], xs[1..]);
    }
  }

  /** One live level of a batch. */
  lemma LevelStep(levels: seq<Option<Table>>, l: nat, pos: nat, keys: seq<nat>, xs: seq<nat>, hits: seq<(Record, bool)>)
    requires |hits| == |xs| && pos < |keys| && l < |levels| && levels[l].Some?
    ensures var many := QueryMany(levels[l].value, TagsOf(keys[pos], xs), UseDummies(hits, l));
      LevelsMany(levels, l, pos, |keys|, Repeat(keys, |xs|), xs, hits) ==
        if many.Ok? then LevelsMany(levels[l := Some(many.value.0)], l + 1, pos + 1, |keys|, Repeat(keys, |xs|), xs, Combined(hits, many.value.1))
        else Crash
  {
    GridOk(keys, pos, xs);
    EachCrash(levels[l].value, TagsOf(keys[pos], xs), UseDummies(hits, l));
  }

  /** The whole batch at one live level. */
  lemma SplitHere(levels: seq<Option<Table>>, l: nat, pos: nat, keys: seq<nat>, x: nat, hit: (Record, bool),
                  xs: seq<nat>, hits: seq<(Record, bool)>)
    requires |hits| == |xs| && pos < |keys| && l < |levels| && levels[l].Some?
    ensures
      var first := Query(levels[l].value, Tag(keys[pos], x), (l in hit.0.alibi) != hit.1);
      LevelsMany(levels, l, pos, |keys|, Repeat(keys, 1 + |xs|), [x] + xs, [hit] + hits) ==
        if !first.Ok? then Crash
        else
          var rest := QueryMany(first.value.0, TagsOf(keys[pos], xs), UseDummies(hits, l));
          if !rest.Ok? then Crash
          else LevelsMany(levels[l := Some(rest.value.0)], l + 1, pos + 1, |keys|, Repeat(keys, 1 + |xs|), [x] + xs,
                          [(XorRecord(hit.0, first.value.1), hit.1 != first.value.2)] + Combined(hits, rest.value.1))
  {
    var t, useDummy := levels[l].value, (l in hit.0.alibi) != hit.1;
    var first := Query(t, Tag(keys[pos], x), useDummy);
    hide *;
    assert |[x] + xs| == 1 + |xs|;
    LevelStep(levels, l, pos, keys, [x] + xs, [hit] + hits);
    TagsSplit(keys[pos], x, xs, hit, hits, l);
    QueryManySplit(t, Tag(keys[pos], x), useDummy, TagsOf(keys[pos], xs), UseDummies(hits, l));
    if first.Ok? {
      var rest := QueryMany(first.value.0, TagsOf(keys[pos], xs), UseDummies(hits, l));
      if rest.Ok? { CombinedSplit(hit, hits, (first.value.1, first.value.2), rest.value.1); }
    }
  }

  lemma TagsSplit(key: nat, x: nat, xs: seq<nat>, hit: (Record, bool), hits: seq<(Record, bool)>, l: nat)
    ensures TagsOf(key, [x] + xs) == [Tag(key, x)] + TagsOf(key, xs)
    ensures UseDummies([hit] + hits, l) == [(l in hit.0.alibi) != hit.1] + UseDummies(hits, l)
  {
  }

  lemma FirstHere(levels: seq<Option<Table>>, l: nat, pos: nat, keys: seq<nat>, x: nat, hit: (Record, bool))
    requires pos < |keys| && l < |levels| && levels[l].Some?
    ensures
      var first := Query(levels[l].value, Tag(keys[pos], x), (l in hit.0.alibi) != hit.1);
      QueryLevels(levels, l, keys[pos..], x, hit.0, hit.1) ==
        if !first.Ok? then Crash
        else QueryLevels(levels[l := Some(first.value.0)], l + 1, keys[pos + 1..], x,
                         XorRecord(hit.0, first.value.1), hit.1 != first.value.2)
  {
    hide XorRecord;
    assert keys[pos..][0] == keys[pos] && keys[pos..][1..] == keys[pos + 1..];
  }

  /** The other queries at one live level. */
  lemma ThenHere(levels: seq<Option<Table>>, l: nat, pos: nat, keys: seq<nat>, first: Outcome<(seq<Option<Table>>, Record, bool)>,
                 xs: seq<nat>, hits: seq<(Record, bool)>)
    requires |hits| == |xs| && pos < |keys| && l < |levels| && levels[l].Some?
    requires first.Ok? ==> |first.value.0| == |levels| && first.value.0[l] == levels[l]
    ensures
      var rest := QueryMany(levels[l].value, TagsOf(keys[pos], xs), UseDummies(hits, l));
      Then(first, l, pos, keys, xs, hits) ==
        if !rest.Ok? then Crash
        else Then(if first.Ok? then Ok((first.value.0[l := Some(rest.value.0)], first.value.1, first.value.2)) else first,
                  l + 1, pos + 1, keys, xs, Combined(hits, rest.value.1))
  {
    if first.Ok? { LevelStep(first.value.0, l, pos, keys, xs, hits); }
    hide LevelsMany, QueryMany, TagsOf, UseDummies, Combined, Repeat;
  }

  lemma SplitLevel(levels: seq<Option<Table>>, l: nat, pos: nat, keys: seq<nat>, x: nat, hit: (Record, bool),
                   xs: seq<nat>, hits: seq<(Record, bool)>)
    requires |hits| == |xs| && pos < |keys| && l < |levels| && levels[l].Some?
    ensures LevelsMany(levels, l, pos, |keys|, Repeat(keys, 1 + |xs|), [x] + xs, [hit] + hits)
         == Then(QueryLevels(levels, l, keys[pos..], x, hit.0, hit.1), l, pos, keys, xs, hits)
    decreases |levels| - l, 0
  {
    hide *;
    var t, useDummy, tags := levels[l].value, (l in hit.0.alibi) != hit.1, TagsOf(keys[pos], xs);
    var first := Query(t, Tag(keys[pos], x), useDummy);
    SplitHere(levels, l, pos, keys, x, hit, xs, hits);
    FirstHere(levels, l, pos, keys, x, hit);
    if !first.Ok? {
      ThenCrash(l, pos, keys, xs, hits);
      return;
    }
    var next, acc, found := levels[l := Some(first.value.0)], XorRecord(hit.0, first.value.1), hit.1 != first.value.2;
    var through := QueryLevels(next, l + 1, keys[pos + 1..], x, acc, found);
    var rest := QueryMany(first.value.0, tags, UseDummies(hits, l));
    QueryStays(next, l, l + 1, keys[pos + 1..], x, acc, found);
    ThenHere(next, l, pos, keys, through, xs, hits);
    if rest.Ok? {
      assert levels[l := Some(rest.value.0)] == next[l := Some(rest.value.0)];
      SplitDeeper(next, l, pos, keys, x, (acc, found), xs, Combined(hits, rest.value.1), rest.value.0);
    }
  }

  lemma SplitDeeper(levels: seq<Option<Table>>, l: nat, pos: nat, keys: seq<nat>, x: nat, hit: (Record, bool),
                    xs: seq<nat>, hits: seq<(Record, bool)>, t: Table)
    requires |hits| == |xs| && pos < |keys| && l < |levels|
    ensures
      var through := QueryLevels(levels, l + 1, keys[pos + 1..], x, hit.0, hit.1);
      && (through.Ok? ==> |through.value.0| == |levels|)
      && LevelsMany(levels[l := Some(t)], l + 1, pos + 1, |keys|, Repeat(keys, 1 + |xs|), [x] + xs, [hit] + hits)
         == Then(if through.Ok? then Ok((through.value.0[l := Some(t)], through.value.1, through.value.2)) else through,
                 l + 1, pos + 1, keys, xs, hits)
    decreases |levels| - l - 1, 2
  {
    hide *;
    QueryFrame(levels, l, Some(t), l + 1, keys[pos + 1..], x, hit.0, hit.1);
    SplitMany(levels[l := Some(t)], l + 1, pos + 1, keys, x, hit, xs, hits);
  }

  lemma ThenCrash(l: nat, pos: nat, keys: seq<nat>, xs: seq<nat>, hits: seq<(Record, bool)>)
    requires |hits| == |xs|
    ensures Then(Crash, l, pos, keys, xs, hits) == Crash
  {
  }

  lemma CombinedSplit(hit: (Record, bool), hits: seq<(Record, bool)>, one: (Record, bool), more: seq<(Record, bool)>)
    requires |hits| == |more|
    ensures Combined([hit] + hits, [one] + more) == [(XorRecord(hit.0, one.0), hit.1 != one.1)] + Combined(hits, more)
  {
  }

  // --------------------------------------------------------------- the cache

  ghost predicate Distinct(xs: seq<nat>) {
    forall i, j :: 0 <= i < j < |xs| ==> xs[i] != xs[j]
  }

  lemma {:induction false} MatchSame(a: Cache, b: Cache, x: nat, n: nat)
    requires a.Shaped() && b.Shaped() && n <= |a.addrs| && n <= |b.addrs|
    requires forall i {:trigger a.addrs[i]} {:trigger b.addrs[i]} :: 0 <= i < n ==> (a.addrs[i] == x <==> b.addrs[i] == x)
    requires forall i {:trigger a.data[i]} {:trigger b.data[i]} :: 0 <= i < n ==> a.data[i] == b.data[i]
    ensures MatchRecord(a.addrs, a.data, x, n) == MatchRecord(b.addrs, b.data, x, n)
    ensures MatchBit(a.addrs, x, n) == MatchBit(b.addrs, x, n)
  {
    if n > 0 { MatchSame(a, b, x, n - 1); }
  }

  /** The cache after the first operation of a batch. */
  function AfterFirst(c: Cache, x: nat, r: Record, sentinel: nat): (d: Cache)
    requires c.Shaped() && c.numStored < |c.addrs|
    ensures d.Shaped() && d.numStored == c.numStored + 1 && |d.addrs| == |c.addrs|
    ensures CacheWrite(CacheQuery(c, x, sentinel).0, [x], [r]) == Ok(d)
  {
    CacheWrite(CacheQuery(c, x, sentinel).0, [x], [r]).value
  }

  /** Row by row: the first query's row is gone, its new row is appended. */
  lemma AfterFirstRows(c: Cache, x: nat, r: Record, sentinel: nat)
    requires c.Shaped() && c.numStored < |c.addrs|
    ensures var d := AfterFirst(c, x, r, sentinel);
      && (forall i {:trigger d.addrs[i]} :: 0 <= i < |d.addrs| ==>
            d.addrs[i] == if i == c.numStored then x else if i < c.numStored && c.addrs[i] == x then sentinel else c.addrs[i])
      && (forall i {:trigger d.data[i]} :: 0 <= i < |d.addrs| ==> d.data[i] == if i == c.numStored then r else c.data[i])
  {
  }

  /** A query for another address sees the same row before and after the first operation. */
  lemma OtherHit(c: Cache, x: nat, r: Record, sentinel: nat, y: nat)
    requires c.Shaped() && c.numStored < |c.addrs| && y != x && y != sentinel
    ensures var d := AfterFirst(c, x, r, sentinel);
      && MatchRecord(d.addrs, d.data, y, d.numStored) == MatchRecord(c.addrs, c.data, y, c.numStored)
      && MatchBit(d.addrs, y, d.numStored) == MatchBit(c.addrs, y, c.numStored)
  {
    var d := AfterFirst(c, x, r, sentinel);
    AfterFirstRows(c, x, r, sentinel);
    MatchSame(c, d, y, c.numStored);
    XorZero(MatchRecord(d.addrs, d.data, y, c.numStored));
  }

  lemma HitsSplit(c: Cache, x: nat, r: Record, xs: seq<nat>, sentinel: nat)
    requires c.Shaped() && c.numStored < |c.addrs| && x !in xs && sentinel !in xs
    ensures var (q, acc, found) := CacheQuery(c, x, sentinel);
      CacheQueryMany(c, [x] + xs, sentinel).1 == [(acc, found)] + CacheQueryMany(AfterFirst(c, x, r, sentinel), xs, sentinel).1
  {
    var d := AfterFirst(c, x, r, sentinel);
    var all, rest := CacheQueryMany(c, [x] + xs, sentinel).1, CacheQueryMany(d, xs, sentinel).1;
    forall q | 0 <= q < |xs| ensures all[q + 1] == rest[q] {
      assert ([x] + xs)[q + 1] == xs[q];
      OtherHit(c, x, r, sentinel, xs[q]);
    }
  }

  function RowAfter(c: Cache, xs: seq<nat>, sentinel: nat, i: nat): nat
    requires c.Shaped() && i < |c.addrs|
  {
    if i < c.numStored then (if c.addrs[i] in xs then sentinel else c.addrs[i])
    else if i < c.numStored + |xs| then xs[i - c.numStored]
    else c.addrs[i]
  }

  /** Row by row: what is left after all queries of a batch are removed and their new rows appended. */
  lemma ManyRows(c: Cache, xs: seq<nat>, rs: seq<Record>, sentinel: nat)
    requires c.Shaped() && Distinct(xs) && |rs| == |xs| > 0 && c.numStored + |xs| <= |c.addrs|
    ensures var w := CacheWrite(CacheQueryMany(c, xs, sentinel).0, xs, rs);
      && w.Ok? && w.value.numStored == c.numStored + |xs| && |w.value.addrs| == |c.addrs|
      && (forall i {:trigger w.value.addrs[i]} :: 0 <= i < |c.addrs| ==> w.value.addrs[i] == RowAfter(c, xs, sentinel, i))
      && w.value.data == c.data[..c.numStored] + rs + c.data[c.numStored + |xs|..]
  {
    var q := CacheQueryMany(c, xs, sentinel).0;
    forall i | 0 <= i < c.numStored ensures q.addrs[i] == if c.addrs[i] in xs then sentinel else c.addrs[i] {
      MaskedOnce(c.addrs[i], xs, sentinel);
    }
  }

  lemma DistinctTail(x: nat, xs: seq<nat>)
    requires Distinct([x] + xs)
    ensures x !in xs && Distinct(xs)
  {
    var all := [x] + xs;
    forall i | 0 <= i < |xs| ensures xs[i] != x { assert all[i + 1] != all[0]; }
    forall i, j | 0 <= i < j < |xs| ensures xs[i] != xs[j] { assert all[i + 1] != all[j + 1]; }
  }

  /** Removing all queried rows at once and appending all new ones is removing and appending in turn. */
  lemma RowsSplit(c: Cache, x: nat, r: Record, xs: seq<nat>, rs: seq<Record>, sentinel: nat)
    requires c.Shaped() && Distinct([x] + xs) && x != sentinel && sentinel !in xs
    requires xs != [] && |rs| == |xs| && c.numStored + 1 + |xs| <= |c.addrs|
    ensures CacheWrite(CacheQueryMany(c, [x] + xs, sentinel).0, [x] + xs, [r] + rs)
         == CacheWrite(CacheQueryMany(AfterFirst(c, x, r, sentinel), xs, sentinel).0, xs, rs)
  {
    var n, d := c.numStored, AfterFirst(c, x, r, sentinel);
    AfterFirstRows(c, x, r, sentinel);
    DistinctTail(x, xs);
    ManyRows(c, [x] + xs, [r] + rs, sentinel);
    ManyRows(d, xs, rs, sentinel);
    hide CacheWrite, CacheQueryMany, AfterFirst, Distinct;
    forall i | 0 <= i < |c.addrs| ensures RowAfter(c, [x] + xs, sentinel, i) == RowAfter(d, xs, sentinel, i) {
      RowSplit(c, d, x, xs, sentinel, i);
    }
    var a := CacheWrite(CacheQueryMany(c, [x] + xs, sentinel).0, [x] + xs, [r] + rs).value;
    var b := CacheWrite(CacheQueryMany(d, xs, sentinel).0, xs, rs).value;
    assert a.addrs == b.addrs;
    assert d.data[..n + 1] == c.data[..n] + [r] && d.data[n + 1 + |xs|..] == c.data[n + 1 + |xs|..];
    assert c.data[..n] + ([r] + rs) == (c.data[..n] + [r]) + rs;
  }

  lemma RowSplit(c: Cache, d: Cache, x: nat, xs: seq<nat>, sentinel: nat, i: nat)
    requires c.Shaped() && d.Shaped() && i < |c.addrs| == |d.addrs| && d.numStored == c.numStored + 1
    requires x !in xs && x != sentinel && sentinel !in xs
    requires d.addrs[i] == if i == c.numStored then x else if i < c.numStored && c.addrs[i] == x then sentinel else c.addrs[i]
    ensures RowAfter(c, [x] + xs, sentinel, i) == RowAfter(d, xs, sentinel, i)
  {
    if i < c.numStored { assert c.addrs[i] in [x] + xs <==> c.addrs[i] == x || c.addrs[i] in xs; }
  }

  // ---------------------------------------------------------------- a chunk

  /** Equal states, up to the cached keys. */
  ghost predicate SameButKeys(a: State, b: State) {
    a.(queryKey := None, batchKeys := None) == b.(queryKey := None, batchKeys := None)
  }

  /** The two ways end with the same outputs and the same state up to the cached keys. */
  ghost predicate Agree(a: Outcome<(State, seq<nat>)>, b: Outcome<(State, seq<nat>)>) {
    a.Ok? && b.Ok? && a.value.1 == b.value.1 && SameButKeys(a.value.0, b.value.0)
  }

  /** A chunk with the keys of the live levels. */
  lemma ChunkForm(s: State, ops: seq<Op>)
    requires s.cache.Shaped() && KeysOk(s)
    ensures
      var xs, keys := Addrs(ops), LiveKeys(s.levels, 0);
      var (cache1, hits) := CacheQueryMany(s.cache, xs, s.cfg.N());
      var many := LevelsMany(s.levels, 0, 0, |keys|, Repeat(keys, |ops|), xs, hits);
      Chunk(s, ops) ==
        if !many.Ok? then (if many.Refused? then Refused else Crash)
        else
          var write := CacheWrite(cache1, xs, Written(ops, Values(many.value.1)));
          if !write.Ok? then (if write.Refused? then Refused else Crash)
          else Ok((s.(cache := write.value, levels := many.value.0, batchKeys := Some((|ops|, Repeat(keys, |ops|)))), Values(many.value.1)))
  {
    hide CacheQueryMany, LevelsMany, CacheWrite, Repeat, Written, Values, LiveKeys;
  }

  function NewValue(write: Option<nat>, was: nat): nat {
    if write.Some? then write.value else was
  }

  /** An access with the keys of the live levels. */
  lemma NowForm(s: State, x: nat, write: Option<nat>)
    requires s.cache.Shaped() && KeysOk(s) && AccessNow(s, x, write).Ok?
    ensures
      var keys := LiveKeys(s.levels, 0);
      var (cache1, acc0, found0) := CacheQuery(s.cache, x, s.cfg.N());
      var through := QueryLevels(s.levels, 0, keys, x, acc0, found0);
      && through.Ok? && s.cache.numStored < |s.cache.addrs|
      && AccessNow(s, x, write) ==
           Ok((s.(cache := AfterFirst(s.cache, x, Record(NewValue(write, through.value.1.value), {}), s.cfg.N()),
                  levels := through.value.0, queryKey := Some(keys)),
               through.value.1.value))
  {
    hide CacheQuery, QueryLevels, LiveKeys;
    var keys := LiveKeys(s.levels, 0);
    var (cache1, acc0, found0) := CacheQuery(s.cache, x, s.cfg.N());
    var through := QueryLevels(s.levels, 0, keys, x, acc0, found0);
    var rec := Record(NewValue(write, through.value.1.value), {});
    assert CacheWrite(cache1, [x], [rec]).Ok?;
  }

  lemma ListSplit(op: Op, rest: seq<Op>, acc: (Record, bool), accs: seq<(Record, bool)>)
    requires |rest| == |accs|
    ensures Addrs([op] + rest) == [op.addr] + Addrs(rest)
    ensures Values([acc] + accs) == [acc.0.value] + Values(accs)
    ensures Written([op] + rest, Values([acc] + accs)) == [Record(NewValue(op.write, acc.0.value), {})] + Written(rest, Values(accs))
  {
    assert Values([acc] + accs) == [acc.0.value] + Values(accs);
  }

  ghost predicate InRange(ops: seq<Op>, n: nat) {
    forall i {:trigger ops[i]} :: 0 <= i < |ops| ==> ops[i].addr < n
  }

  lemma NotAnAddress(ops: seq<Op>, n: nat)
    requires InRange(ops, n)
    ensures n !in Addrs(ops)
  {
  }

  /** The first operation of a chunk can go ahead of the others. */
  lemma ChunkStep(s: State, op: Op, rest: seq<Op>, s1: State, v: nat)
    requires s.cache.Shaped() && KeysOk(s) && AccessNow(s, op.addr, op.write) == Ok((s1, v)) && KeysOk(s1)
    requires Distinct(Addrs([op] + rest)) && op.addr != s.cfg.N() && s.cfg.N() !in Addrs(rest)
    requires rest != [] && s.cache.numStored + 1 + |rest| <= |s.cache.addrs|
    requires Chunk(s1, rest).Ok?
    ensures Agree(Chunk(s, [op] + rest), Ok((Chunk(s1, rest).value.0, [v] + Chunk(s1, rest).value.1)))
  {
    hide *;
    var n, x, xs, keys := s.cfg.N(), op.addr, Addrs(rest), LiveKeys(s.levels, 0);
    var q := CacheQuery(s.cache, x, n);
    var through := QueryLevels(s.levels, 0, keys, x, q.1, q.2);
    NowForm(s, x, op.write);
    QueryKeepsKeys(s.levels, 0, keys, x, q.1, q.2, 0);
    var rec := Record(NewValue(op.write, v), {});
    assert s1.cache == AfterFirst(s.cache, x, rec, n) && s1.levels == through.value.0 && s1.cfg == s.cfg;
    var hits := CacheQueryMany(s1.cache, xs, n).1;
    ChunkForm(s1, rest);
    var many := LevelsMany(s1.levels, 0, 0, |keys|, Repeat(keys, |rest|), xs, hits);
    assert many.Ok?;
    SplitMany(s.levels, 0, 0, keys, x, (q.1, q.2), xs, hits);
    assert keys[0..] == keys;
    ThenOk(through, 0, 0, keys, xs, hits);
    ListSplit(op, rest, (through.value.1, through.value.2), many.value.1);
    DistinctTail(x, xs);
    HitsSplit(s.cache, x, rec, xs, n);
    RowsSplit(s.cache, x, rec, xs, Written(rest, Values(many.value.1)), n);
    ChunkForm(s, [op] + rest);
    var whole := Chunk(s, [op] + rest);
    assert whole.Ok? && whole.value.1 == [v] + Chunk(s1, rest).value.1;
    SameStates(s, s1, whole.value.0, Chunk(s1, rest).value.0);
    AgreeOk(whole, Ok((Chunk(s1, rest).value.0, [v] + Chunk(s1, rest).value.1)));
  }

  lemma ThenOk(first: Outcome<(seq<Option<Table>>, Record, bool)>, l: nat, pos: nat, keys: seq<nat>, xs: seq<nat>, hits: seq<(Record, bool)>)
    requires |hits| == |xs| && first.Ok?
    requires LevelsMany(first.value.0, l, pos, |keys|, Repeat(keys, |xs|), xs, hits).Ok?
    ensures var rest := LevelsMany(first.value.0, l, pos, |keys|, Repeat(keys, |xs|), xs, hits);
      Then(first, l, pos, keys, xs, hits) == Ok((rest.value.0, [(first.value.1, first.value.2)] + rest.value.1))
  {
  }

  lemma SameStates(s: State, s1: State, a: State, b: State)
    requires a == s.(cache := b.cache, levels := b.levels, batchKeys := a.batchKeys)
    requires s1 == s.(cache := s1.cache, levels := s1.levels, queryKey := s1.queryKey)
    requires b == s1.(cache := b.cache, levels := b.levels, batchKeys := b.batchKeys)
    ensures SameButKeys(a, b)
  {
  }

  lemma AgreeOk(a: Outcome<(State, seq<nat>)>, b: Outcome<(State, seq<nat>)>)
    requires a.Ok? && b.Ok? && a.value.1 == b.value.1 && SameButKeys(a.value.0, b.value.0)
    ensures Agree(a, b)
  {
  }

  /** The operations one after another while there is room. */
  ghost function NowEach(s: State, ops: seq<Op>): (r: Outcome<(State, seq<nat>)>)
    requires s.cache.Shaped()
    ensures r.Ok? ==> r.value.0.cache.Shaped()
    decreases |ops|
  {
    if ops == [] then Ok((s, []))
    else
      var (s1, v) :- AccessNow(s, ops[0].addr, ops[0].write);
      var (s2, more) :- NowEach(s1, ops[1..]);
      Ok((s2, [v] + more))
  }

  /** What a plain map returns for the operations, and what it holds afterwards. */
  function Reads(m: Memory, ops: seq<Op>): (r: seq<nat>)
    ensures |r| == |ops|
    decreases |ops|
  {
    if ops == [] then [] else [Get(m, ops[0].addr)] + Reads(After1(m, ops[0]), ops[1..])
  }

  function After1(m: Memory, op: Op): Memory {
    m[op.addr := NewValue(op.write, Get(m, op.addr))]
  }

  function After(m: Memory, ops: seq<Op>): Memory
    decreases |ops|
  {
    if ops == [] then m else After(After1(m, ops[0]), ops[1..])
  }

  lemma NowKeepsKeys(s: State, x: nat, write: Option<nat>)
    requires s.cache.Shaped() && KeysOk(s) && AccessNow(s, x, write).Ok?
    ensures LiveKeys(AccessNow(s, x, write).value.0.levels, 0) == LiveKeys(s.levels, 0)
  {
    NowForm(s, x, write);
    var q := CacheQuery(s.cache, x, s.cfg.N());
    QueryKeepsKeys(s.levels, 0, LiveKeys(s.levels, 0), x, q.1, q.2, 0);
  }

  /** One access with room, as far as the next one is concerned. */
  lemma NowOk(s: State, m: Memory, op: Op) returns (s1: State)
    requires Inv(s) && Represents(s, m) && op.addr < s.cfg.N() && s.cache.numStored < s.cfg.S()
    ensures AccessNow(s, op.addr, op.write) == Ok((s1, Get(m, op.addr))) && Inv(s1) && Represents(s1, After1(m, op))
    ensures s1.cfg == s.cfg && s1.cache.numStored == s.cache.numStored + 1 && LiveKeys(s1.levels, 0) == LiveKeys(s.levels, 0)
    ensures s1.hadInitial == s.hadInitial && s1.rebuilds == s.rebuilds
  {
    AccessNowOk(s, m, op.addr, op.write);
    s1 := AccessNow(s, op.addr, op.write).value.0;
    NowKeepsKeys(s, op.addr, op.write);
    SteppedKeeps(s, s1, op.addr, NewValue(op.write, Get(m, op.addr)));
    SteppedCount(s, s1, op.addr, NewValue(op.write, Get(m, op.addr)));
  }

  lemma SteppedCount(s: State, s1: State, x: nat, v: nat)
    requires Stepped(s, s1, x, v)
    ensures s1.cache.numStored == s.cache.numStored + 1
  {
  }

  lemma {:induction false} NowEachOk(s: State, m: Memory, ops: seq<Op>)
    requires Inv(s) && Represents(s, m) && InRange(ops, s.cfg.N()) && s.cache.numStored + |ops| <= s.cfg.S()
    ensures var r := NowEach(s, ops);
      && r.Ok? && r.value.1 == Reads(m, ops) && Inv(r.value.0) && Represents(r.value.0, After(m, ops))
      && r.value.0.cfg == s.cfg && r.value.0.cache.numStored == s.cache.numStored + |ops|
      && LiveKeys(r.value.0.levels, 0) == LiveKeys(s.levels, 0)
      && r.value.0.hadInitial == s.hadInitial && r.value.0.rebuilds == s.rebuilds
    decreases |ops|
  {
    hide Inv, Represents, AccessNow, LiveKeys;
    assert s.cache.Shaped() by { InvParts(s); }
    if ops != [] {
      assert ops[0].addr < s.cfg.N();
      var s1 := NowOk(s, m, ops[0]);
      NowEachOk(s1, After1(m, ops[0]), ops[1..]);
    }
  }

  lemma {:induction false} EmptyMany(levels: seq<Option<Table>>, l: nat, pos: nat, live: nat)
    requires forall k: nat {:trigger levels[k]} :: l <= k < |levels| && levels[k].Some? ==> levels[k].value.count <= levels[k].value.params.numDummies
    ensures LevelsMany(levels, l, pos, live, [], [], []) == Ok((levels, []))
    decreases |levels| - l
  {
    if l < |levels| {
      if levels[l].None? {
        EmptyMany(levels, l + 1, pos, live);
      } else {
        assert levels[l := Some(levels[l].value)] == levels;
        EmptyMany(levels, l + 1, pos + 1, live);
      }
    }
  }

  lemma CountsFit(s: State)
    requires Inv(s)
    ensures forall k: nat {:trigger s.levels[k]} :: k < |s.levels| && s.levels[k].Some? ==> s.levels[k].value.count <= s.levels[k].value.params.numDummies
  {
    forall k: nat | k < |s.levels| && s.levels[k].Some? ensures s.levels[k].value.count <= s.levels[k].value.params.numDummies {
      assert LevelOk(s, k);
    }
  }

  /** A chunk of one operation is an access. */
  lemma ChunkOne(s: State, op: Op, s1: State, v: nat)
    requires s.cache.Shaped() && KeysOk(s) && AccessNow(s, op.addr, op.write) == Ok((s1, v)) && Inv(s1)
    ensures Agree(Chunk(s, [op]), Ok((s1, [v])))
  {
    CountsFit(s1);
    hide *;
    var n, x, keys := s.cfg.N(), op.addr, LiveKeys(s.levels, 0);
    var q := CacheQuery(s.cache, x, n);
    var through := QueryLevels(s.levels, 0, keys, x, q.1, q.2);
    NowForm(s, x, op.write);
    var rec := Record(NewValue(op.write, v), {});
    EmptyMany(s1.levels, 0, 0, |keys|);
    RepeatNone(keys);
    SplitMany(s.levels, 0, 0, keys, x, (q.1, q.2), [], []);
    assert keys[0..] == keys;
    ThenOk(through, 0, 0, keys, [], []);
    ListSplit(op, [], (through.value.1, through.value.2), []);
    OneRow(s.cache, x, rec, n);
    EmptyLists();
    ChunkForm(s, [op]);
    var whole := Chunk(s, [op]);
    assert [op] + [] == [op] && [x] + [] == [x] && [rec] + [] == [rec] && [(q.1, q.2)] + [] == [(q.1, q.2)];
    assert [(through.value.1, through.value.2)] + [] == [(through.value.1, through.value.2)];
    assert whole.Ok? && whole.value.1 == [v];
    assert SameButKeys(whole.value.0, s1) by { OneSame(s, s1, whole.value.0); }
    AgreeOk(whole, Ok((s1, [v])));
  }

  lemma OneSame(s: State, s1: State, a: State)
    requires a == s.(cache := s1.cache, levels := s1.levels, batchKeys := a.batchKeys)
    requires s1 == s.(cache := s1.cache, levels := s1.levels, queryKey := s1.queryKey)
    ensures SameButKeys(a, s1)
  {
  }

  lemma RepeatNone(keys: seq<nat>)
    ensures Repeat(keys, 0) == []
  {
  }

  lemma EmptyLists()
    ensures Addrs([]) == [] && Values([]) == [] && Written([], []) == []
  {
  }

  lemma OneRow(c: Cache, x: nat, r: Record, sentinel: nat)
    requires c.Shaped() && c.numStored < |c.addrs|
    ensures var (a, hits) := CacheQueryMany(c, [x], sentinel); var q := CacheQuery(c, x, sentinel);
      hits == [(q.1, q.2)] && CacheWrite(a, [x], [r]) == Ok(AfterFirst(c, x, r, sentinel))
  {
    var a := CacheQueryMany(c, [x], sentinel).0;
    forall i | 0 <= i < |c.addrs| ensures a.addrs[i] == CacheQuery(c, x, sentinel).0.addrs[i] {
      if i < c.numStored { MaskedOnce(c.addrs[i], [x], sentinel); }
    }
    assert a.addrs == CacheQuery(c, x, sentinel).0.addrs;
  }

  /** A chunk that fits the cache does what its operations do one at a time. */
  lemma {:induction false} ChunkOk(s: State, m: Memory, ops: seq<Op>)
    requires Inv(s) && Represents(s, m) && InRange(ops, s.cfg.N()) && Distinct(Addrs(ops))
    requires 1 <= |ops| && s.cache.numStored + |ops| <= s.cfg.S()
    ensures Agree(Chunk(s, ops), NowEach(s, ops))
    decreases |ops|
  {
    hide *;
    InvParts(s);
    var op, rest := ops[0], ops[1..];
    InRangeSplit(ops, s.cfg.N());
    var s1 := NowOk(s, m, op);
    InvParts(s1);
    NowEachSplit(s, ops);
    assert ops == [op] + rest;
    if rest == [] {
      NowEachNone(s1);
      assert ops == [op] && [Get(m, op.addr)] + [] == [Get(m, op.addr)];
      ChunkOne(s, op, s1, Get(m, op.addr));
    } else {
      ListSplit(op, rest, (ZERO, false), seq(|rest|, _ => (ZERO, false)));
      DistinctTail(op.addr, Addrs(rest));
      ChunkOk(s1, After1(m, op), rest);
      AgreeParts(Chunk(s1, rest), NowEach(s1, rest));
      ChunkStep(s, op, rest, s1, Get(m, op.addr));
      AgreeTrans(Chunk(s, ops), Chunk(s1, rest), NowEach(s1, rest), NowEach(s, ops), Get(m, op.addr));
    }
  }

  lemma InRangeSplit(ops: seq<Op>, n: nat)
    requires InRange(ops, n) && ops != []
    ensures ops[0].addr < n && InRange(ops[1..], n) && n !in Addrs(ops[1..])
  {
    NotAnAddress(ops[1..], n);
  }

  lemma NowEachSplit(s: State, ops: seq<Op>)
    requires s.cache.Shaped() && ops != [] && AccessNow(s, ops[0].addr, ops[0].write).Ok?
    ensures var (s1, v) := AccessNow(s, ops[0].addr, ops[0].write).value;
      var rest := NowEach(s1, ops[1..]);
      NowEach(s, ops) == if rest.Ok? then Ok((rest.value.0, [v] + rest.value.1)) else if rest.Refused? then Refused else Crash
  {
    hide AccessNow;
  }

  lemma NowEachNone(s: State)
    requires s.cache.Shaped()
    ensures NowEach(s, []) == Ok((s, []))
  {
  }

  lemma AgreeParts(a: Outcome<(State, seq<nat>)>, b: Outcome<(State, seq<nat>)>)
    requires Agree(a, b)
    ensures a.Ok? && b.Ok? && a.value.1 == b.value.1 && SameButKeys(a.value.0, b.value.0)
  {
  }

  lemma AgreeTrans(a: Outcome<(State, seq<nat>)>, b: Outcome<(State, seq<nat>)>, c: Outcome<(State, seq<nat>)>, d: Outcome<(State, seq<nat>)>, v: nat)
    requires b.Ok? && Agree(a, Ok((b.value.0, [v] + b.value.1))) && Agree(b, c) && d == Ok((c.value.0, [v] + c.value.1))
    ensures Agree(a, d)
  {
  }

  // ------------------------------------------------------- the cached keys

  lemma InvSame(a: State, b: State, m: Memory)
    requires Inv(a) && Represents(a, m) && SameButKeys(a, b) && KeysOk(b)
    ensures Inv(b) && Represents(b, m)
  {
    SameParts(a, b);
    forall l: nat | l < |b.levels| ensures LevelOk(b, l) { assert LevelOk(a, l); }
    assert NoRepeats(b);
    if b.hadInitial {
      forall x: nat | x < b.cfg.N() ensures Located(b, x) { assert Complete(a) && Located(a, x); }
    }
    forall x: nat | x < b.cfg.N() && !Located(b, x) ensures Get(m, x) == 0 { assert !Located(a, x); }
  }

  lemma SameParts(a: State, b: State)
    requires SameButKeys(a, b)
    ensures a.cfg == b.cfg && a.cache == b.cache && a.levels == b.levels && a.digits == b.digits && a.hadInitial == b.hadInitial
    ensures a.built == b.built && a.rebuilds == b.rebuilds
  {
    assert a.(queryKey := None, batchKeys := None) == b.(queryKey := None, batchKeys := None);
  }

  lemma ChunkKeys(s: State, m: Memory, ops: seq<Op>)
    requires Inv(s) && Represents(s, m) && InRange(ops, s.cfg.N()) && Distinct(Addrs(ops))
    requires 1 <= |ops| && s.cache.numStored + |ops| <= s.cfg.S()
    ensures Chunk(s, ops).Ok? && Inv(Chunk(s, ops).value.0) && Represents(Chunk(s, ops).value.0, After(m, ops))
    ensures NowEach(s, ops).Ok? && Chunk(s, ops).value.1 == Reads(m, ops)
  {
    hide *;
    InvParts(s);
    ChunkOk(s, m, ops);
    NowEachOk(s, m, ops);
    AgreeParts(Chunk(s, ops), NowEach(s, ops));
    ChunkForm(s, ops);
    var a, b := NowEach(s, ops).value.0, Chunk(s, ops).value.0;
    SameParts(b, a);
    FreshKeys(s, b, |ops|);
    SameSym(b, a);
    InvSame(a, b, After(m, ops));
  }

  lemma FreshKeys(s: State, b: State, count: nat)
    requires KeysOk(s) && LiveKeys(b.levels, 0) == LiveKeys(s.levels, 0)
    requires b.queryKey == s.queryKey && b.batchKeys == Some((count, Repeat(LiveKeys(s.levels, 0), count)))
    ensures KeysOk(b)
  {
  }

  lemma SameSym(a: State, b: State)
    requires SameButKeys(a, b)
    ensures SameButKeys(b, a)
  {
  }

  lemma InputsSame(a: State, b: State, o: Oracle, r: nat, last: nat)
    requires SameButKeys(a, b) && StateShaped(a) && r < a.cfg.numLevels && last <= |a.levels|
    ensures StateShaped(b) && NeedExtract(a, r) == NeedExtract(b, r)
    ensures Doram.Ready(a, r, last, o) == Doram.Ready(b, r, last, o)
  {
    SameParts(a, b);
    hide Gather, Finalize, Relabel;
  }

  lemma InstallSame(a: State, b: State, r: nat, ready: seq<Row>, o: Oracle, n: nat)
    requires SameButKeys(a, b) && a.cache.Shaped() && r < |a.levels| == |a.digits| == |b.levels| == |b.digits|
    ensures b.cache.Shaped() && Install(a, r, ready, o, n) == Install(b, r, ready, o, n)
  {
    SameParts(a, b);
    NewTableSame(a, b, r, ready, o);
    hide NewTable, InsertStash;
  }

  /** A rebuild does not look at the cached keys, and clears them. */
  lemma RebuildSame(a: State, b: State, o: Oracle)
    requires SameButKeys(a, b) && StateShaped(a)
    ensures StateShaped(b) && Rebuild(a, o) == Rebuild(b, o)
  {
    hide *;
    SameParts(a, b);
    ShapedSizes(a);
    ShapedSame(a, b);
    var r := TargetFrom(a.cfg, a.digits, 0);
    var need := NeedExtract(a, r);
    var last := if need then r + 1 else r;
    InputsSame(a, b, o, r, last);
    DeletesSame(a, b, r, need);
    var a2, b2 := AfterDeletes(a, r, need), AfterDeletes(b, r, need);
    SameParts(a2, b2);
    var ready := Doram.Ready(a, r, last, o);
    RebuildIs(a, o, r, need, ready, a2);
    RebuildIs(b, o, r, need, ready, b2);
    if ready.Ok? { InstallSame(a2, b2, r, ready.value, o, a.rebuilds + 1); }
  }

  lemma RebuildIs(s: State, o: Oracle, r: nat, need: bool, ready: Outcome<seq<Row>>, s2: State)
    requires StateShaped(s) && r == TargetFrom(s.cfg, s.digits, 0) && need == NeedExtract(s, r)
    requires ready == Doram.Ready(s, r, if need then r + 1 else r, o) && s2 == AfterDeletes(s, r, need)
    ensures ready.Ok? ==> Rebuild(s, o) == Install(s2, r, ready.value, o, s.rebuilds + 1)
    ensures !ready.Ok? ==> Rebuild(s, o) == if ready.Refused? then Refused else Crash
  {
    hide Doram.Ready, TargetFrom, NeedExtract, StateShaped, AfterDeletes, Install;
  }

  lemma ShapedSame(a: State, b: State)
    requires SameButKeys(a, b) && StateShaped(a)
    ensures StateShaped(b)
  {
    SameParts(a, b);
  }

  lemma ShapedSizes(s: State)
    requires StateShaped(s)
    ensures s.cache.Shaped() && |s.levels| == |s.digits| == s.cfg.numLevels > 0 && s.cfg.Bottom() == s.cfg.numLevels - 1
  {
  }

  lemma {:induction false} DeleteBelowSame(a: State, b: State, r: nat)
    requires SameButKeys(a, b) && r <= |a.levels| == |a.digits| && |b.levels| == |b.digits| == |a.levels|
    ensures SameButKeys(DeleteBelow(a, r), DeleteBelow(b, r))
  {
    if r > 0 { DeleteBelowSame(a, b, r - 1); }
  }

  lemma DeletesSame(a: State, b: State, r: nat, need: bool)
    requires SameButKeys(a, b) && r < |a.levels| == |a.digits| && |b.levels| == |b.digits| == |a.levels|
    ensures SameButKeys(AfterDeletes(a, r, need), AfterDeletes(b, r, need))
  {
    var a0, b0 := a.(cache := NewCache(a.cfg.S(), a.cfg.N())), b.(cache := NewCache(b.cfg.S(), b.cfg.N()));
    SameParts(a, b);
    DeleteBelowSame(a0, b0, r);
  }

  lemma NewTableSame(a: State, b: State, r: nat, rows: seq<Row>, o: Oracle)
    requires SameButKeys(a, b) && |a.levels| == |a.digits| && |b.levels| == |b.digits|
    ensures NewTable(a, r, rows, o) == NewTable(b, r, rows, o)
  {
    SameParts(a, b);
    hide BuildTable;
  }

  // ------------------------------------------------------------ whole batches

  /** Both ways fail, or both succeed and agree. */
  ghost predicate AgreeMaybe(a: Outcome<(State, seq<nat>)>, b: Outcome<(State, seq<nat>)>) {
    (a.Ok? <==> b.Ok?) && (a.Ok? ==> Agree(a, b))
  }

  ghost function Prefixed(vs: seq<nat>, e: Outcome<(State, seq<nat>)>): Outcome<(State, seq<nat>)> {
    if e.Ok? then Ok((e.value.0, vs + e.value.1)) else e
  }

  lemma RoomMade(s: State, m: Memory, o: Oracle)
    requires Inv(s) && Represents(s, m) && Good(o)
    ensures s.cache.Shaped()
    ensures MakeRoom(s, o).Ok? <==> !(Full(s) && SortOverflows(s))
    ensures MakeRoom(s, o).Ok? ==> var s1 := MakeRoom(s, o).value;
      && Inv(s1) && Represents(s1, m) && s1.cfg == s.cfg && s1.cache.numStored < s.cfg.S() && !Full(s1)
      && |s1.cache.addrs| == s.cfg.S() && MakeRoom(s1, o) == Ok(s1) && s1.hadInitial == s.hadInitial
  {
    if Full(s) { RebuildOk(s, m, o); }
  }

  lemma EachUnfold(s: State, ops: seq<Op>, o: Oracle)
    requires s.cache.Shaped() && ops != []
    ensures var room := MakeRoom(s, o);
      if !room.Ok? then !AccessEach(s, ops, o).Ok?
      else
        var now := AccessNow(room.value, ops[0].addr, ops[0].write);
        if now.Ok? then AccessEach(s, ops, o) == Prefixed([now.value.1], AccessEach(now.value.0, ops[1..], o))
        else !AccessEach(s, ops, o).Ok?
  {
    hide MakeRoom, AccessNow;
  }

  /** While there is room, the first operations need no rebuild. */
  lemma {:induction false} EachAhead(s: State, m: Memory, ops: seq<Op>, rest: seq<Op>, o: Oracle)
    requires Inv(s) && Represents(s, m) && InRange(ops, s.cfg.N()) && s.cache.numStored + |ops| <= s.cfg.S()
    ensures s.cache.Shaped() && NowEach(s, ops).Ok?
    ensures AccessEach(s, ops + rest, o) == Prefixed(NowEach(s, ops).value.1, AccessEach(NowEach(s, ops).value.0, rest, o))
    decreases |ops|
  {
    hide *;
    InvParts(s);
    NowEachOk(s, m, ops);
    if ops == [] {
      NowEachNone(s);
      assert ops + rest == rest;
      PrefixedNone(AccessEach(s, rest, o));
    } else {
      InRangeSplit(ops, s.cfg.N());
      var s1 := NowOk(s, m, ops[0]);
      InvParts(s1);
      NoRoomNeeded(s, o);
      EachUnfold(s, ops + rest, o);
      assert (ops + rest)[0] == ops[0] && (ops + rest)[1..] == ops[1..] + rest;
      EachAhead(s1, After1(m, ops[0]), ops[1..], rest, o);
      NowEachSplit(s, ops);
      PrefixedTwice([Get(m, ops[0].addr)], NowEach(s1, ops[1..]).value.1, AccessEach(NowEach(s1, ops[1..]).value.0, rest, o));
    }
  }

  lemma PrefixedNone(e: Outcome<(State, seq<nat>)>)
    ensures Prefixed([], e) == e
  {
    if e.Ok? { assert [] + e.value.1 == e.value.1; }
  }

  lemma PrefixedTwice(a: seq<nat>, b: seq<nat>, e: Outcome<(State, seq<nat>)>)
    ensures Prefixed(a, Prefixed(b, e)) == Prefixed(a + b, e)
  {
    if e.Ok? { assert a + (b + e.value.1) == (a + b) + e.value.1; }
  }

  lemma NoRoomNeeded(s: State, o: Oracle)
    requires s.cache.Shaped() && s.cache.numStored < |s.cache.addrs|
    ensures !Full(s) && MakeRoom(s, o) == Ok(s)
  {
  }

  /** The cached keys make no difference to an access. */
  lemma NowSame(a: State, b: State, m: Memory, op: Op) returns (a1: State, b1: State)
    requires Inv(a) && Inv(b) && Represents(a, m) && SameButKeys(a, b) && op.addr < a.cfg.N() && a.cache.numStored < a.cfg.S()
    ensures a.cache.Shaped() && b.cache.Shaped()
    ensures AccessNow(a, op.addr, op.write) == Ok((a1, Get(m, op.addr))) && AccessNow(b, op.addr, op.write) == Ok((b1, Get(m, op.addr)))
    ensures SameButKeys(a1, b1) && Inv(a1) && Inv(b1) && Represents(a1, After1(m, op)) && Represents(b1, After1(m, op)) && a1.cfg == a.cfg
  {
    hide *;
    SameParts(a, b);
    SameKeysKept(a, b, m);
    a1 := NowOk(a, m, op);
    b1 := NowOk(b, m, op);
    InvParts(a);
    InvParts(b);
    NowForm(a, op.addr, op.write);
    NowForm(b, op.addr, op.write);
    SameNext(a, b, a1, b1);
  }

  lemma SameNext(a: State, b: State, a1: State, b1: State)
    requires SameButKeys(a, b)
    requires a1 == a.(cache := a1.cache, levels := a1.levels, queryKey := a1.queryKey)
    requires b1 == b.(cache := a1.cache, levels := a1.levels, queryKey := b1.queryKey)
    ensures SameButKeys(a1, b1)
  {
  }

  lemma SameKeysKept(a: State, b: State, m: Memory)
    requires Inv(a) && Represents(a, m) && Inv(b) && SameButKeys(a, b)
    ensures Represents(b, m)
  {
    InvSame(a, b, m);
  }

  lemma RoomSame(a: State, b: State, m: Memory, o: Oracle)
    requires Inv(a) && Inv(b) && Represents(a, m) && SameButKeys(a, b) && Good(o)
    ensures a.cache.Shaped() && b.cache.Shaped()
    ensures MakeRoom(a, o).Ok? <==> MakeRoom(b, o).Ok?
    ensures MakeRoom(a, o).Ok? ==> SameButKeys(MakeRoom(a, o).value, MakeRoom(b, o).value)
  {
    hide Inv, Represents, Good, Rebuild, SameButKeys;
    InvParts(a);
    InvParts(b);
    SameParts(a, b);
    if Full(a) {
      InvShaped(a);
      RebuildSame(a, b, o);
      if Rebuild(a, o).Ok? { SameRefl(Rebuild(a, o).value); }
    }
  }

  lemma InvShaped(s: State)
    requires Inv(s)
    ensures StateShaped(s)
  {
    Collect.ShapesOk(s);
  }

  lemma SameRefl(s: State)
    ensures SameButKeys(s, s)
  {
  }

  lemma {:induction false} EachSame(a: State, b: State, m: Memory, ops: seq<Op>, o: Oracle)
    requires Inv(a) && Inv(b) && Represents(a, m) && SameButKeys(a, b) && InRange(ops, a.cfg.N()) && Good(o)
    ensures a.cache.Shaped() && b.cache.Shaped()
    ensures AgreeMaybe(AccessEach(a, ops, o), AccessEach(b, ops, o))
    decreases |ops|
  {
    hide *;
    InvParts(a);
    InvParts(b);
    if ops == [] {
      EachNone(a, b, o);
    } else {
      SameKeysKept(a, b, m);
      RoomMade(a, m, o);
      RoomMade(b, m, o);
      RoomSame(a, b, m, o);
      EachUnfold(a, ops, o);
      EachUnfold(b, ops, o);
      InRangeSplit(ops, a.cfg.N());
      if MakeRoom(a, o).Ok? {
        var a1, b1 := NowSame(MakeRoom(a, o).value, MakeRoom(b, o).value, m, ops[0]);
        EachSame(a1, b1, After1(m, ops[0]), ops[1..], o);
        AgreePrefixed([Get(m, ops[0].addr)], AccessEach(a1, ops[1..], o), AccessEach(b1, ops[1..], o));
      } else {
        AgreeFails(AccessEach(a, ops, o), AccessEach(b, ops, o));
      }
    }
  }

  lemma EachNone(a: State, b: State, o: Oracle)
    requires SameButKeys(a, b) && a.cache.Shaped() && b.cache.Shaped()
    ensures AgreeMaybe(AccessEach(a, [], o), AccessEach(b, [], o))
  {
  }

  lemma AgreeFails(a: Outcome<(State, seq<nat>)>, b: Outcome<(State, seq<nat>)>)
    requires !a.Ok? && !b.Ok?
    ensures AgreeMaybe(a, b)
  {
  }

  lemma AgreePrefixed(vs: seq<nat>, a: Outcome<(State, seq<nat>)>, b: Outcome<(State, seq<nat>)>)
    requires AgreeMaybe(a, b)
    ensures AgreeMaybe(Prefixed(vs, a), Prefixed(vs, b))
  {
  }

  lemma AgreeChain(a: Outcome<(State, seq<nat>)>, b: Outcome<(State, seq<nat>)>, c: Outcome<(State, seq<nat>)>)
    requires AgreeMaybe(a, b) && AgreeMaybe(b, c)
    ensures AgreeMaybe(a, c)
  {
  }

  lemma FromUnfold(s: State, ops: seq<Op>, o: Oracle, s1: State, k: nat)
    requires s.cache.Shaped() && ops != [] && MakeRoom(s, o) == Ok(s1) && !Full(s1)
    requires k == if |ops| <= |s1.cache.addrs| - s1.cache.numStored then |ops| else |s1.cache.addrs| - s1.cache.numStored
    requires Chunk(s1, ops[..k]).Ok?
    ensures var (s2, outputs) := Chunk(s1, ops[..k]).value;
      BatchFrom(s, ops, o) == Prefixed(outputs, BatchFrom(s2, ops[k..], o))
  {
    hide MakeRoom, Chunk;
  }

  lemma FromFails(s: State, ops: seq<Op>, o: Oracle)
    requires s.cache.Shaped() && ops != [] && !MakeRoom(s, o).Ok?
    ensures !BatchFrom(s, ops, o).Ok? && !AccessEach(s, ops, o).Ok?
  {
    hide MakeRoom, Chunk;
  }

  lemma DistinctSplit(ops: seq<Op>, k: nat, n: nat)
    requires k <= |ops| && Distinct(Addrs(ops)) && InRange(ops, n)
    ensures Distinct(Addrs(ops[..k])) && Distinct(Addrs(ops[k..])) && InRange(ops[..k], n) && InRange(ops[k..], n)
  {
    var all, tail := Addrs(ops), Addrs(ops[k..]);
    forall i, j | 0 <= i < j < |tail| ensures tail[i] != tail[j] { assert all[k + i] != all[k + j]; }
    var head := Addrs(ops[..k]);
    forall i, j | 0 <= i < j < |head| ensures head[i] != head[j] { assert all[i] != all[j]; }
  }

  /** Making room first makes no difference. */
  lemma EachFromRoom(s: State, s1: State, ops: seq<Op>, o: Oracle)
    requires s.cache.Shaped() && ops != [] && MakeRoom(s, o) == Ok(s1) && MakeRoom(s1, o) == Ok(s1)
    ensures AccessEach(s, ops, o) == AccessEach(s1, ops, o)
  {
    hide MakeRoom, AccessNow;
  }

  /** A batch of pairwise distinct addresses fails exactly when the single accesses do, and otherwise
      returns the same outputs and leaves the same state up to the cached keys. */
  lemma {:induction false} BatchIsSequence(s: State, m: Memory, ops: seq<Op>, o: Oracle)
    requires Inv(s) && Represents(s, m) && InRange(ops, s.cfg.N()) && Distinct(Addrs(ops)) && Good(o)
    ensures s.cache.Shaped() && AgreeMaybe(BatchFrom(s, ops, o), AccessEach(s, ops, o))
    ensures BatchFrom(s, ops, o).Ok? ==> Inv(BatchFrom(s, ops, o).value.0)
    decreases |ops|
  {
    hide *;
    InvParts(s);
    if ops == [] {
      NoneAgree(s, o);
      return;
    }
    RoomMade(s, m, o);
    if !MakeRoom(s, o).Ok? {
      FromFails(s, ops, o);
      AgreeFails(BatchFrom(s, ops, o), AccessEach(s, ops, o));
      return;
    }
    var s1 := MakeRoom(s, o).value;
    InvParts(s1);
    var free := |s1.cache.addrs| - s1.cache.numStored;
    var k := if |ops| <= free then |ops| else free;
    var head, tail := ops[..k], ops[k..];
    DistinctSplit(ops, k, s.cfg.N());
    ChunkOk(s1, m, head);
    ChunkKeys(s1, m, head);
    NowEachOk(s1, m, head);
    AgreeParts(Chunk(s1, head), NowEach(s1, head));
    var c, n := Chunk(s1, head).value.0, NowEach(s1, head).value.0;
    SameParts(c, n);
    FromUnfold(s, ops, o, s1, k);
    BatchIsSequence(c, After(m, head), tail, o);
    EachSame(c, n, After(m, head), tail, o);
    AgreeChain(BatchFrom(c, tail, o), AccessEach(c, tail, o), AccessEach(n, tail, o));
    AgreePrefixed(Reads(m, head), BatchFrom(c, tail, o), AccessEach(n, tail, o));
    EachAhead(s1, m, head, tail, o);
    assert head + tail == ops;
    EachFromRoom(s, s1, ops, o);
    PrefixedOk(Reads(m, head), BatchFrom(c, tail, o));
  }

  lemma PrefixedOk(vs: seq<nat>, e: Outcome<(State, seq<nat>)>)
    ensures Prefixed(vs, e).Ok? <==> e.Ok?
    ensures e.Ok? ==> Prefixed(vs, e).value.0 == e.value.0 && Prefixed(vs, e).value.1 == vs + e.value.1
  {
  }

  lemma NoneAgree(s: State, o: Oracle)
    requires s.cache.Shaped()
    ensures AgreeMaybe(BatchFrom(s, [], o), AccessEach(s, [], o)) && BatchFrom(s, [], o) == Ok((s, []))
  {
  }
}
