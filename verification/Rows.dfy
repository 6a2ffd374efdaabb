/** Row lists on their way from one table to the next: what each step keeps of the real rows. */
module Rows {
  import opened Arithmetic
  import opened Words
  import opened Sets
  import opened Tables
  import opened Doram
  import opened Invariants

  /** Addresses stay below `2n`, real ones are pairwise distinct and carry the map's values. */
  ghost predicate Faithful(rows: seq<Row>, n: nat, m: Memory) {
    && RealDistinct(rows, n)
    && (forall i {:trigger rows[i]} :: 0 <= i < |rows| ==> rows[i].addr < 2 * n)
    && (forall i {:trigger rows[i]} :: 0 <= i < |rows| && rows[i].addr < n ==> rows[i].rec.value == Get(m, rows[i].addr))
  }

  /** The two lists hold the same real addresses. */
  ghost predicate SameReal(a: seq<Row>, b: seq<Row>, n: nat) {
    forall x: nat {:trigger Holds(a, x)} {:trigger Holds(b, x)} :: x < n ==> (Holds(a, x) <==> Holds(b, x))
  }

  lemma SameRealTrans(a: seq<Row>, b: seq<Row>, c: seq<Row>, n: nat)
    requires SameReal(a, b, n) && SameReal(b, c, n)
    ensures SameReal(a, c, n)
  {
  }

  lemma HoldsConcat(a: seq<Row>, b: seq<Row>, x: nat)
    ensures Holds(a + b, x) <==> Holds(a, x) || Holds(b, x)
  {
    if Holds(a, x) { var i :| 0 <= i < |a| && a[i].addr == x; assert (a + b)[i].addr == x; }
    if Holds(b, x) { var i :| 0 <= i < |b| && b[i].addr == x; assert (a + b)[|a| + i].addr == x; }
  }

  lemma FaithfulConcat(a: seq<Row>, b: seq<Row>, n: nat, m: Memory)
    requires Faithful(a, n, m) && Faithful(b, n, m)
    requires forall x: nat {:trigger Holds(a, x)} :: x < n && Holds(a, x) ==> !Holds(b, x)
    ensures Faithful(a + b, n, m)
  {
    var c := a + b;
    forall i, j | 0 <= i < j < |c| && c[i].addr < n ensures c[i].addr != c[j].addr {
      if i < |a| <= j {
        assert Holds(a, c[i].addr) && !Holds(b, c[i].addr);
        assert b[j - |a|] == c[j];
      }
    }
  }

  lemma DummiesFaithful(k: nat, n: nat, m: Memory)
    requires n >= 1
    ensures Faithful(DummyRows(k, n), n, m) && forall x: nat {:trigger Holds(DummyRows(k, n), x)} :: x < n ==> !Holds(DummyRows(k, n), x)
  {
  }

  /** Padding with dummy rows keeps the real rows. */
  lemma PadKeeps(rows: seq<Row>, k: nat, n: nat, m: Memory)
    requires Faithful(rows, n, m) && n >= 1
    ensures Faithful(rows + DummyRows(k, n), n, m) && SameReal(rows, rows + DummyRows(k, n), n)
  {
    DummiesFaithful(k, n, m);
    FaithfulConcat(rows, DummyRows(k, n), n, m);
    forall x: nat | x < n ensures Holds(rows, x) <==> Holds(rows + DummyRows(k, n), x) {
      HoldsConcat(rows, DummyRows(k, n), x);
    }
  }

  /** The same addresses and values in the same order. */
  lemma ClearKeeps(rows: seq<Row>, n: nat, m: Memory)
    requires Faithful(rows, n, m)
    ensures Faithful(ClearAlibis(rows), n, m) && SameReal(rows, ClearAlibis(rows), n)
  {
    var r := ClearAlibis(rows);
    forall x: nat | x < n ensures Holds(rows, x) <==> Holds(r, x) {
      if Holds(rows, x) { var i :| 0 <= i < |rows| && rows[i].addr == x; assert r[i].addr == x; }
      if Holds(r, x) { var i :| 0 <= i < |r| && r[i].addr == x; assert rows[i].addr == x; }
    }
  }

  lemma DummyBit(addr: nat, logN: nat)
    requires addr < 2 * Pow2(logN)
    ensures IsDummy(addr, logN) <==> addr >= Pow2(logN)
  {
    Quotient(addr, Pow2(logN));
  }

  lemma Quotient(a: nat, n: nat)
    requires 1 <= n && a < 2 * n
    ensures a / n == if a < n then 0 else 1
  {
    var q, r := a / n, a % n;
    assert a == q * n + r;
    if q >= 2 { MulMono(2, q, n); }
    if q >= 1 { MulMono(1, q, n); }
  }

  ghost predicate NoAlibi(rows: seq<Row>) {
    forall i {:trigger rows[i]} :: 0 <= i < |rows| ==> rows[i].rec.alibi == {}
  }

  /** Row by row: real rows stay, dummies get the label of their row above `base`. */
  ghost predicate Relabelled(rows: seq<Row>, r: seq<Row>, n: nat, base: nat) {
    && |r| == |rows|
    && forall i {:trigger r[i]} {:trigger rows[i]} :: 0 <= i < |rows| ==>
         r[i].addr == (if rows[i].addr < n then rows[i].addr else base + i) && r[i].rec == rows[i].rec
  }

  lemma RelabelIs(rows: seq<Row>, logN: nat, base: nat)
    requires base + |rows| <= TWO32 && forall i {:trigger rows[i]} :: 0 <= i < |rows| ==> rows[i].addr < 2 * Pow2(logN)
    ensures Relabel(rows, logN, base).Ok? && Relabelled(rows, Relabel(rows, logN, base).value, Pow2(logN), base)
  {
    hide IsDummy;
    var n, r := Pow2(logN), Relabel(rows, logN, base).value;
    hide Pow2;
    forall i {:trigger r[i]} {:trigger rows[i]} | 0 <= i < |rows|
      ensures r[i].addr == (if rows[i].addr < n then rows[i].addr else base + i) && r[i].rec == rows[i].rec
    {
      DummyBit(rows[i].addr, logN);
    }
  }

  lemma RelabelledDistinct(rows: seq<Row>, r: seq<Row>, n: nat, base: nat)
    requires Relabelled(rows, r, n, base) && RealDistinct(rows, n) && n <= base
    ensures DistinctAddrs(r)
  {
  }

  lemma RelabelledReal(rows: seq<Row>, r: seq<Row>, n: nat, base: nat)
    requires Relabelled(rows, r, n, base) && n <= base
    ensures SameReal(rows, r, n)
  {
    forall x: nat | x < n ensures Holds(rows, x) <==> Holds(r, x) {
      if Holds(rows, x) { var i :| 0 <= i < |rows| && rows[i].addr == x; assert r[i].addr == x; }
      if Holds(r, x) { var i :| 0 <= i < |r| && r[i].addr == x; assert rows[i].addr == x; }
    }
  }

  /** Relabelled rows keep the real ones and are distinct, in the address space of the new labels. */
  lemma RelabelledKeeps(rows: seq<Row>, r: seq<Row>, n: nat, base: nat, m: Memory)
    requires Relabelled(rows, r, n, base) && Faithful(rows, n, m) && NoAlibi(rows) && n <= base && |rows| <= base
    ensures DistinctAddrs(r) && NoAlibi(r) && Faithful(r, base, m) && SameReal(rows, r, n)
  {
    RelabelledDistinct(rows, r, n, base);
    RelabelledReal(rows, r, n, base);
    hide SameReal, Holds;
  }

  /** Relabelling never runs past 32 bits, keeps all real rows and makes all addresses distinct. */
  lemma RelabelKeeps(rows: seq<Row>, logN: nat, m: Memory)
    requires Faithful(rows, Pow2(logN), m) && NoAlibi(rows) && |rows| <= Pow2(logN) && 2 * Pow2(logN) <= TWO32
    ensures var r := Relabel(rows, logN, Pow2(logN));
      && r.Ok? && |r.value| == |rows| && DistinctAddrs(r.value) && NoAlibi(r.value)
      && Faithful(r.value, Pow2(logN), m) && SameReal(rows, r.value, Pow2(logN))
  {
    hide Pow2, NoAlibi, SameReal, DistinctAddrs, Relabel;
    RelabelIs(rows, logN, Pow2(logN));
    RelabelledKeeps(rows, Relabel(rows, logN, Pow2(logN)).value, Pow2(logN), Pow2(logN), m);
  }

  // -------------------------------------------------- selecting and counting

  ghost predicate Chosen(r: seq<Row>, rows: seq<Row>, logN: nat, flag: bool) {
    && (forall i {:trigger r[i]} :: 0 <= i < |r| ==> r[i] in rows && IsDummy(r[i].addr, logN) == flag)
    && (forall i {:trigger rows[i]} :: 0 <= i < |rows| && IsDummy(rows[i].addr, logN) == flag ==> rows[i] in r)
  }

  lemma {:induction false} SelectFacts(rows: seq<Row>, logN: nat, flag: bool)
    ensures Chosen(Select(rows, logN, flag), rows, logN, flag)
  {
    if rows != [] {
      var n := |rows| - 1;
      SelectFacts(rows[..n], logN, flag);
      var before, r := Select(rows[..n], logN, flag), Select(rows, logN, flag);
      forall i | 0 <= i < |r| ensures r[i] in rows && IsDummy(r[i].addr, logN) == flag {
        if i < |before| { assert before[i] in rows[..n]; } else { assert r[i] == rows[n]; }
      }
      forall i | 0 <= i < |rows| && IsDummy(rows[i].addr, logN) == flag ensures rows[i] in r {
        if i < n { assert rows[..n][i] in before; }
      }
    }
  }

  lemma {:induction false} SelectSizes(rows: seq<Row>, logN: nat)
    ensures |Select(rows, logN, false)| + |Select(rows, logN, true)| == |rows|
  {
    if rows != [] { SelectSizes(rows[..|rows| - 1], logN); }
  }

  lemma {:induction false} SelectDistinct(rows: seq<Row>, logN: nat, flag: bool, n: nat)
    requires RealDistinct(rows, n)
    ensures RealDistinct(Select(rows, logN, flag), n)
  {
    if rows != [] {
      var k := |rows| - 1;
      var before := Select(rows[..k], logN, flag);
      SelectDistinct(rows[..k], logN, flag, n);
      SelectFacts(rows[..k], logN, flag);
      forall i | 0 <= i < |before| && before[i].addr < n ensures before[i].addr != rows[k].addr {
        assert before[i] in rows[..k];
      }
    }
  }

  /** Selecting by flag keeps what it selects. */
  lemma SelectKeeps(rows: seq<Row>, logN: nat, flag: bool, m: Memory)
    requires Faithful(rows, Pow2(logN), m) && NoAlibi(rows)
    ensures var r := Select(rows, logN, flag);
      && Faithful(r, Pow2(logN), m) && NoAlibi(r)
      && (!flag ==> SameReal(rows, r, Pow2(logN)) && forall i {:trigger r[i]} :: 0 <= i < |r| ==> r[i].addr < Pow2(logN))
      && (flag ==> forall i {:trigger r[i]} :: 0 <= i < |r| ==> r[i].addr >= Pow2(logN))
  {
    var r, n := Select(rows, logN, flag), Pow2(logN);
    SelectFacts(rows, logN, flag);
    SelectDistinct(rows, logN, flag, n);
    forall i | 0 <= i < |r|
      ensures r[i].addr < 2 * n && (r[i].addr < n <==> !flag) && r[i].rec.alibi == {}
      ensures r[i].addr < n ==> r[i].rec.value == Get(m, r[i].addr)
    {
      var j :| 0 <= j < |rows| && rows[j] == r[i];
      DummyBit(rows[j].addr, logN);
    }
    if !flag {
      forall x: nat | x < n ensures Holds(rows, x) <==> Holds(r, x) {
        if Holds(rows, x) {
          var j :| 0 <= j < |rows| && rows[j].addr == x;
          DummyBit(x, logN);
          assert rows[j] in r;
        }
        if Holds(r, x) {
          var i :| 0 <= i < |r| && r[i].addr == x;
          assert r[i] in rows;
        }
      }
    }
  }

  /** There are at most `n` rows with distinct addresses below `n`, and exactly `n` if every address occurs. */
  lemma CountReal(rows: seq<Row>, n: nat)
    requires RealDistinct(rows, n) && forall i {:trigger rows[i]} :: 0 <= i < |rows| ==> rows[i].addr < n
    ensures |rows| <= n
    ensures (forall x: nat {:trigger Holds(rows, x)} :: x < n ==> Holds(rows, x)) ==> |rows| == n
  {
    var addr := AddrMap(rows, n);
    InjectionCard(Below(|rows|), Below(n), addr);
    if forall x: nat {:trigger Holds(rows, x)} :: x < n ==> Holds(rows, x) {
      forall x | x in Below(n) ensures exists i :: i in Below(|rows|) && addr[i] == x {
        var i := RowOf(rows, x);
        assert i in Below(|rows|) && addr[i] == x;
      }
      BijectionCard(Below(|rows|), Below(n), addr);
    }
  }

  ghost function AddrMap(rows: seq<Row>, n: nat): (addr: map<nat, nat>)
    requires RealDistinct(rows, n) && forall i {:trigger rows[i]} :: 0 <= i < |rows| ==> rows[i].addr < n
    ensures InjectiveOn(Below(|rows|), addr)
    ensures forall i {:trigger addr[i]} :: i in Below(|rows|) ==> addr[i] in Below(n) && addr[i] == rows[i].addr
  {
    map i | i in Below(|rows|) :: rows[i].addr
  }

  lemma RowOf(rows: seq<Row>, x: nat) returns (i: nat)
    requires Holds(rows, x)
    ensures i < |rows| && rows[i].addr == x
  {
    i :| 0 <= i < |rows| && rows[i].addr == x;
  }

  /** Real rows first, dummies after, cut to `n` rows: only dummies are dropped. */
  lemma CutKeeps(rows: seq<Row>, logN: nat, m: Memory)
    requires Faithful(rows, Pow2(logN), m) && NoAlibi(rows)
    ensures var n, sorted := Pow2(logN), StablePartition(rows, logN);
      var cut := if |sorted| <= n then sorted else sorted[..n];
      && |sorted| == |rows| && |cut| <= n && (|rows| >= n ==> |cut| == n)
      && Faithful(cut, n, m) && NoAlibi(cut) && SameReal(rows, cut, n)
  {
    var n, reals, rest := Pow2(logN), Select(rows, logN, false), Select(rows, logN, true);
    SelectKeeps(rows, logN, false, m);
    SelectKeeps(rows, logN, true, m);
    SelectSizes(rows, logN);
    CountReal(reals, n);
    var k := if |rows| <= n then |rest| else n - |reals|;
    hide Select, Faithful, SameReal, NoAlibi, Pow2;
    CutIs(reals, rest, n);
    CutDummies(rest, k, n, m);
    AppendDummies(reals, rest[..k], n, m);
    SameRealTrans(rows, reals, reals + rest[..k], n);
    NoAlibiConcat(reals, rest[..k]);
  }

  lemma CutIs(reals: seq<Row>, rest: seq<Row>, n: nat)
    requires |reals| <= n
    ensures var sorted, k := reals + rest, if |reals| + |rest| <= n then |rest| else n - |reals|;
      k <= |rest| && (if |sorted| <= n then sorted else sorted[..n]) == reals + rest[..k]
  {
    var k := if |reals| + |rest| <= n then |rest| else n - |reals|;
    assert (reals + rest)[..|reals| + k] == reals + rest[..k];
  }

  lemma CutDummies(rest: seq<Row>, k: nat, n: nat, m: Memory)
    requires Faithful(rest, n, m) && NoAlibi(rest) && k <= |rest| && forall i {:trigger rest[i]} :: 0 <= i < |rest| ==> rest[i].addr >= n
    ensures Faithful(rest[..k], n, m) && NoAlibi(rest[..k]) && forall i {:trigger rest[..k][i]} :: 0 <= i < k ==> rest[..k][i].addr >= n
  {
  }

  lemma NoAlibiConcat(a: seq<Row>, b: seq<Row>)
    requires NoAlibi(a) && NoAlibi(b)
    ensures NoAlibi(a + b)
  {
  }

  lemma AppendDummies(reals: seq<Row>, rest: seq<Row>, n: nat, m: Memory)
    requires Faithful(reals, n, m) && Faithful(rest, n, m) && forall i {:trigger rest[i]} :: 0 <= i < |rest| ==> rest[i].addr >= n
    ensures Faithful(reals + rest, n, m) && SameReal(reals, reals + rest, n)
  {
    forall x: nat | x < n ensures !Holds(rest, x) {}
    FaithfulConcat(reals, rest, n, m);
    forall x: nat | x < n ensures Holds(reals, x) <==> Holds(reals + rest, x) {
      HoldsConcat(reals, rest, x);
    }
  }

  lemma ShuffleKeeps(rows: seq<Row>, perm: Perm, n: nat, m: Memory)
    requires Faithful(rows, n, m) && NoAlibi(rows) && IsPerm(perm, |rows|)
    ensures var r := Shuffled(rows, perm);
      r.Ok? && |r.value| == |rows| && Faithful(r.value, n, m) && NoAlibi(r.value) && SameReal(rows, r.value, n)
  {
    var r := Shuffled(rows, perm).value;
    assert |r| == |rows| && forall i {:trigger r[i]} :: 0 <= i < |r| ==> perm.from[i] < |rows| && r[i] == rows[perm.from[i]];
    hide Shuffled;
    forall i, j | 0 <= i < j < |r| && r[i].addr < n ensures r[i].addr != r[j].addr {
      PermDistinct(perm, |rows|, i, j);
      var a, b := perm.from[i], perm.from[j];
      assert a < b || b < a;
    }
    forall x: nat | x < n ensures Holds(rows, x) <==> Holds(r, x) {
      if Holds(rows, x) {
        var i := RowOf(rows, x);
        PermInverse(perm, |rows|, i);
        assert r[perm.to[i]] == rows[i];
      }
      if Holds(r, x) { var i := RowOf(r, x); assert rows[perm.from[i]].addr == x; }
    }
    hide IsPerm;
  }

  lemma PermDistinct(perm: Perm, n: nat, i: nat, j: nat)
    requires IsPerm(perm, n) && i < j < n
    ensures perm.from[i] != perm.from[j]
  {
    assert perm.to[perm.from[i]] == i && perm.to[perm.from[j]] == j;
  }

  lemma PermInverse(perm: Perm, n: nat, i: nat)
    requires IsPerm(perm, n) && i < n
    ensures perm.to[i] < n && perm.from[perm.to[i]] == i
  {
  }
}
