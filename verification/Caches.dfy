/** The linear speed cache on opened values. */
module Caches {
  import opened Words
  import opened Tables

  /** `addrs` and `data` have the fixed length of the cache; the first `numStored` rows are in use. */
  datatype Cache = Cache(addrs: seq<nat>, data: seq<Record>, numStored: nat)
  {
    ghost predicate Shaped() { |addrs| == |data| && numStored <= |addrs| }
  }

  function NewCache(length: nat, sentinel: nat): (c: Cache)
    ensures c.Shaped() && |c.addrs| == length && c.numStored == 0
  {
    Cache(seq(length, _ => sentinel), seq(length, _ => ZERO), 0)
  }

  /** The exclusive or of the records stored under `x` in the first `n` rows. */
  function MatchRecord(addrs: seq<nat>, data: seq<Record>, x: nat, n: nat): Record
    requires n <= |addrs| == |data|
  {
    if n == 0 then ZERO
    else XorRecord(MatchRecord(addrs, data, x, n - 1), if addrs[n - 1] == x then data[n - 1] else ZERO)
  }

  /** The parity of the number of matching rows. */
  function MatchBit(addrs: seq<nat>, x: nat, n: nat): bool
    requires n <= |addrs|
  {
    if n == 0 then false else MatchBit(addrs, x, n - 1) != (addrs[n - 1] == x)
  }

  /** `query`: the matching row's address becomes the dummy sentinel. */
  function CacheQuery(c: Cache, x: nat, sentinel: nat): (r: (Cache, Record, bool))
    requires c.Shaped()
    ensures r.0.Shaped() && r.0.numStored == c.numStored && |r.0.addrs| == |c.addrs| && r.0.data == c.data
  {
    (c.(addrs := seq(|c.addrs|, i requires 0 <= i < |c.addrs| =>
                   if i < c.numStored && c.addrs[i] == x then sentinel else c.addrs[i])),
     MatchRecord(c.addrs, c.data, x, c.numStored), MatchBit(c.addrs, x, c.numStored))
  }

  /** The removal masks of all queries, computed from the address before any of them and added in turn. */
  function Masked(addr: nat, orig: nat, xs: seq<nat>, sentinel: nat): nat
    decreases |xs|
  {
    if xs == [] then addr
    else Masked(Xor(addr, if orig == xs[0] then Xor(orig, sentinel) else 0), orig, xs[1..], sentinel)
  }

  /** `query_many`: all queries see the rows as they were. */
  function CacheQueryMany(c: Cache, xs: seq<nat>, sentinel: nat): (r: (Cache, seq<(Record, bool)>))
    requires c.Shaped()
    ensures r.0.Shaped() && r.0.numStored == c.numStored && |r.0.addrs| == |c.addrs| && r.0.data == c.data
    ensures |r.1| == |xs|
  {
    (c.(addrs := seq(|c.addrs|, i requires 0 <= i < |c.addrs| =>
                   if i < c.numStored then Masked(c.addrs[i], c.addrs[i], xs, sentinel) else c.addrs[i])),
     seq(|xs|, q requires 0 <= q < |xs| =>
       (MatchRecord(c.addrs, c.data, xs[q], c.numStored), MatchBit(c.addrs, xs[q], c.numStored))))
  }

  /** `write`: append the rows; fails when the cache is full or they do not fit. */
  function CacheWrite(c: Cache, addrs: seq<nat>, data: seq<Record>): (r: Outcome<Cache>)
    requires c.Shaped()
    ensures r.Ok? ==> r.value.Shaped() && r.value.numStored == c.numStored + |addrs| && |r.value.addrs| == |c.addrs|
  {
    if |addrs| != |data| || c.numStored >= |c.addrs| || c.numStored + |addrs| > |c.addrs| then Crash
    else
      var n, m := c.numStored, c.numStored + |addrs|;
      Ok(Cache(c.addrs[..n] + addrs + c.addrs[m..], c.data[..n] + data + c.data[m..], m))
  }

  function CacheSkip(c: Cache, k: nat): (r: Outcome<Cache>)
    requires c.Shaped()
    ensures r.Ok? ==> r.value.Shaped()
  {
    if c.numStored + k > |c.addrs| then Crash else Ok(c.(numStored := c.numStored + k))
  }

  /** The rows in use. */
  function StoredRows(c: Cache): (rows: seq<Row>)
    requires c.Shaped()
    ensures |rows| == c.numStored
    ensures forall i :: 0 <= i < |rows| ==> rows[i] == Row(c.addrs[i], c.data[i])
  {
    seq(c.numStored, i requires 0 <= i < c.numStored => Row(c.addrs[i], c.data[i]))
  }

  /** Writing, where it does not fail, appends the rows and leaves the unused part of the cache alone; no other
      cache of the same size does. */
  lemma WriteAppends(c: Cache, addrs: seq<nat>, data: seq<Record>, d: Cache)
    requires c.Shaped() && d.Shaped() && |d.addrs| == |c.addrs| && |addrs| == |data|
    requires c.numStored < |c.addrs| && c.numStored + |addrs| <= |c.addrs|
    ensures CacheWrite(c, addrs, data) == Ok(d) <==>
      && StoredRows(d) == StoredRows(c) + RowsOf(addrs, data)
      && forall i {:trigger d.addrs[i]} {:trigger d.data[i]} :: d.numStored <= i < |d.addrs| ==> d.addrs[i] == c.addrs[i] && d.data[i] == c.data[i]
  {
    var w, n, m := CacheWrite(c, addrs, data).value, c.numStored, c.numStored + |addrs|;
    assert |StoredRows(w)| == m && |StoredRows(d)| == d.numStored;
    forall i {:trigger StoredRows(w)[i]} | 0 <= i < m ensures StoredRows(w)[i] == (StoredRows(c) + RowsOf(addrs, data))[i] {}
    if StoredRows(d) == StoredRows(c) + RowsOf(addrs, data)
       && forall i {:trigger d.addrs[i]} {:trigger d.data[i]} :: d.numStored <= i < |d.addrs| ==> d.addrs[i] == c.addrs[i] && d.data[i] == c.data[i]
    {
      assert d.numStored == m;
      forall i | 0 <= i < |d.addrs| ensures d.addrs[i] == w.addrs[i] && d.data[i] == w.data[i] {
        if i < m { assert StoredRows(d)[i] == StoredRows(w)[i]; }
      }
      assert d.addrs == w.addrs && d.data == w.data;
    }
  }

  /** Skipping in a new cache stores dummies only. */
  lemma SkippedRows(length: nat, sentinel: nat, k: nat)
    requires k <= length
    ensures var r := CacheSkip(NewCache(length, sentinel), k);
      r.Ok? && StoredRows(r.value) == seq(k, _ => Row(sentinel, ZERO))
  {
    var c := CacheSkip(NewCache(length, sentinel), k).value;
    assert |StoredRows(c)| == k;
  }

  lemma {:induction false} MatchNone(addrs: seq<nat>, data: seq<Record>, x: nat, n: nat)
    requires n <= |addrs| == |data| && forall i :: 0 <= i < n ==> addrs[i] != x
    ensures MatchRecord(addrs, data, x, n) == ZERO && !MatchBit(addrs, x, n)
  {
    if n > 0 { MatchNone(addrs, data, x, n - 1); }
  }

  /** With a single matching row the exclusive ors deliver that row's record. */
  lemma {:induction false} MatchOne(addrs: seq<nat>, data: seq<Record>, x: nat, n: nat, k: nat)
    requires k < n <= |addrs| == |data| && addrs[k] == x
    requires forall i :: 0 <= i < n && i != k ==> addrs[i] != x
    ensures MatchRecord(addrs, data, x, n) == data[k] && MatchBit(addrs, x, n)
  {
    if k == n - 1 {
      MatchNone(addrs, data, x, n - 1);
      XorZero(data[k]);
    } else {
      MatchOne(addrs, data, x, n - 1, k);
      XorZero(data[k]);
    }
  }

  lemma {:induction false} MaskedNone(addr: nat, orig: nat, xs: seq<nat>, sentinel: nat)
    requires orig !in xs
    ensures Masked(addr, orig, xs, sentinel) == addr
    decreases |xs|
  {
    if xs != [] { MaskedNone(addr, orig, xs[1..], sentinel); }
  }

  /** For pairwise distinct queries the masks remove exactly the rows that match one of them. */
  lemma {:induction false} MaskedOnce(orig: nat, xs: seq<nat>, sentinel: nat)
    requires forall i, j :: 0 <= i < j < |xs| ==> xs[i] != xs[j]
    ensures Masked(orig, orig, xs, sentinel) == if orig in xs then sentinel else orig
    decreases |xs|
  {
    if xs != [] {
      if orig == xs[0] {
        XorCancel(orig, sentinel);
        MaskedNone(sentinel, orig, xs[1..], sentinel);
      } else {
        MaskedOnce(orig, xs[1..], sentinel);
      }
    }
  }
}
