/** The speed cache as an object on opened values. */
module SpeedCaches {
  import opened Words
  import opened Tables
  import opened Caches

  /** What the removal masks of one query do to the address of one row. */
  function Removed(addr: nat, found: bool, seen: nat, sentinel: nat): nat {
    Xor(addr, Xor(if found then seen else 0, if found then sentinel else 0))
  }

  lemma RemovedIs(addr: nat, x: nat, sentinel: nat)
    ensures Removed(addr, addr == x, addr, sentinel) == if addr == x then sentinel else addr
  {
    XorCancel(addr, sentinel);
  }

  lemma {:induction false} MaskedSnoc(addr: nat, orig: nat, xs: seq<nat>, sentinel: nat)
    requires xs != []
    ensures Masked(addr, orig, xs, sentinel)
         == Removed(Masked(addr, orig, xs[..|xs| - 1], sentinel), orig == xs[|xs| - 1], orig, sentinel)
    decreases |xs|
  {
    var n := |xs| - 1;
    if n > 0 {
      var first := Xor(addr, if orig == xs[0] then Xor(orig, sentinel) else 0);
      MaskedSnoc(first, orig, xs[1..], sentinel);
      assert xs[1..][..n - 1] == xs[..n][1..] && xs[1..][n - 1] == xs[n];
    } else {
      assert xs[..0] == [];
    }
  }

  lemma NoMasks(addrs: seq<nat>, sentinel: nat)
    ensures forall k {:trigger addrs[k]} :: 0 <= k < |addrs| ==> Masked(addrs[k], addrs[k], [], sentinel) == addrs[k]
  {
  }

  class SpeedCache {
    const length: nat
    const sentinel: nat
    var numStored: nat
    var addrs: seq<nat>
    var data: seq<Record>

    ghost function View(): Cache reads this { Cache(addrs, data, numStored) }

    ghost predicate Valid() reads this { |addrs| == |data| == length && numStored <= length }

    constructor (length: nat, sentinel: nat)
      ensures Valid() && this.length == length && this.sentinel == sentinel && View() == NewCache(length, sentinel)
    {
      this.length, this.sentinel, numStored := length, sentinel, 0;
      addrs, data := seq(length, _ => sentinel), seq(length, _ => ZERO);
    }

    predicate IsWriteable() reads this { numStored < length }

    /** `query`: one pass over the stored rows adds up the matching records and removes their addresses. */
    method Query(x: nat) returns (y: Record, found: bool)
      requires Valid()
      modifies this`addrs
      ensures Valid() && CacheQuery(old(View()), x, sentinel) == (View(), y, found)
    {
      y, found := ZERO, false;
      ghost var was := addrs;
      for i := 0 to numStored
        invariant Valid() && |addrs| == |was|
        invariant forall k :: 0 <= k < |addrs| ==> addrs[k] == if k < i && was[k] == x then sentinel else was[k]
        invariant y == MatchRecord(was, data, x, i) && found == MatchBit(was, x, i)
      {
        var hit := addrs[i] == x;
        y := XorRecord(y, if hit then data[i] else ZERO);
        found := found != hit;
        RemovedIs(addrs[i], x, sentinel);
        addrs := addrs[i := Removed(addrs[i], hit, addrs[i], sentinel)];
      }
      assert addrs == CacheQuery(old(View()), x, sentinel).0.addrs;
    }

    /** One of many queries: the comparisons use the rows `was` from before all of them. */
    method QueryOne(x: nat, was: seq<nat>) returns (y: Record, found: bool)
      requires Valid() && |was| == length
      modifies this`addrs
      ensures Valid() && y == MatchRecord(was, data, x, numStored) && found == MatchBit(was, x, numStored)
      ensures forall k {:trigger addrs[k]} :: 0 <= k < length ==>
        addrs[k] == if k < numStored then Removed(old(addrs[k]), was[k] == x, was[k], sentinel) else old(addrs[k])
    {
      y, found := ZERO, false;
      hide Removed;
      for i := 0 to numStored
        invariant Valid()
        invariant y == MatchRecord(was, data, x, i) && found == MatchBit(was, x, i)
        invariant forall k {:trigger addrs[k]} :: 0 <= k < length ==>
          addrs[k] == if k < i then Removed(old(addrs[k]), was[k] == x, was[k], sentinel) else old(addrs[k])
      {
        var hit := was[i] == x;
        y := XorRecord(y, if hit then data[i] else ZERO);
        found := found != hit;
        addrs := addrs[i := Removed(addrs[i], hit, was[i], sentinel)];
      }
    }

    /** `query_many`: every query compares with the rows as they were, and the removals add up. */
    method QueryMany(xs: seq<nat>) returns (results: seq<(Record, bool)>)
      requires Valid()
      modifies this`addrs
      ensures Valid() && CacheQueryMany(old(View()), xs, sentinel) == (View(), results)
    {
      results := [];
      var was := addrs;
      hide Removed, MatchRecord, MatchBit, Masked;
      NoMasks(was, sentinel);
      for q := 0 to |xs|
        invariant Valid() && |results| == q
        invariant forall j {:trigger results[j]} :: 0 <= j < q ==> results[j] == (MatchRecord(was, data, xs[j], numStored), MatchBit(was, xs[j], numStored))
        invariant forall k {:trigger addrs[k]} :: 0 <= k < length ==> addrs[k] == if k < numStored then Masked(was[k], was[k], xs[..q], sentinel) else was[k]
      {
        var y, found := QueryOne(xs[q], was);
        assert xs[..q + 1][..q] == xs[..q];
        forall k | 0 <= k < numStored ensures addrs[k] == Masked(was[k], was[k], xs[..q + 1], sentinel) {
          MaskedSnoc(was[k], was[k], xs[..q + 1], sentinel);
        }
        results := results + [(y, found)];
      }
      assert xs[..|xs|] == xs;
      assert addrs == CacheQueryMany(old(View()), xs, sentinel).0.addrs;
      assert results == CacheQueryMany(old(View()), xs, sentinel).1;
    }

    /** `write`: where its assertions hold, the rows are appended. */
    method Write(newAddrs: seq<nat>, newData: seq<Record>)
      requires Valid() && |newAddrs| == |newData| && numStored < length && numStored + |newAddrs| <= length
      modifies this
      ensures Valid() && StoredRows(View()) == old(StoredRows(View())) + RowsOf(newAddrs, newData)
      ensures forall i {:trigger addrs[i]} {:trigger data[i]} :: numStored <= i < length ==> addrs[i] == old(addrs[i]) && data[i] == old(data[i])
    {
      var start, end := numStored, numStored + |newAddrs|;
      addrs := addrs[..start] + newAddrs + addrs[end..];
      data := data[..start] + newData + data[end..];
      numStored := end;
    }

    method Skip(k: nat)
      requires Valid() && numStored + k <= length
      modifies this`numStored
      ensures Valid() && addrs == old(addrs) && data == old(data)
      ensures StoredRows(View()) == old(StoredRows(View())) + old(RowsOf(addrs[numStored..numStored + k], data[numStored..numStored + k]))
    {
      numStored := numStored + k;
    }

    /** `extract`, which asserts that the cache is full. */
    method Extract() returns (xs: seq<nat>, ys: seq<Record>)
      requires Valid() && numStored == length
      ensures xs == addrs && ys == data
    {
      xs, ys := addrs, data;
    }

    /** `extract_stored`: the rows in use. */
    method ExtractStored() returns (xs: seq<nat>, ys: seq<Record>)
      requires Valid()
      ensures xs == addrs[..numStored] && ys == data[..numStored]
    {
      xs, ys := addrs[..numStored], data[..numStored];
    }
  }
}
