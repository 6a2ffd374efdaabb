/** Counting facts about finite sets, used by the pigeonhole arguments. */
module Sets {

  ghost predicate InjectiveOn<A(!new), B>(s: set<A>, f: map<A, B>)
  {
    && s <= f.Keys
    && forall a, b {:trigger f[a], f[b]} :: a in s && b in s && f[a] == f[b] ==> a == b
  }

  /** An injection cannot shrink a set. */
  lemma {:induction false} InjectionCard<A(!new), B>(s: set<A>, t: set<B>, f: map<A, B>)
    requires InjectiveOn(s, f)
    requires forall a {:trigger f[a]} :: a in s ==> f[a] in t
    ensures |s| <= |t|
  {
    if s != {} {
      var a :| a in s;
      InjectionCard(s - {a}, t - {f[a]}, f);
    }
  }

  /** A bijection keeps the size. */
  lemma BijectionCard<A(!new), B(!new)>(s: set<A>, t: set<B>, f: map<A, B>)
    requires InjectiveOn(s, f)
    requires forall a {:trigger f[a]} :: a in s ==> f[a] in t
    requires forall b :: b in t ==> exists a :: a in s && f[a] == b
    ensures |s| == |t|
  {
    InjectionCard(s, t, f);
    var back := map b | b in t :: var a :| a in s && f[a] == b; a;
    InjectionCard(t, s, back);
  }

  lemma SubsetCard<A>(s: set<A>, t: set<A>)
    requires s <= t
    ensures |s| <= |t|
  {
    assert t == s + (t - s);
  }

  /** A subset that is as large as the whole is the whole. */
  lemma FullSubset<A>(s: set<A>, t: set<A>)
    requires s <= t && |t| <= |s|
    ensures s == t
  {
    assert t == s + (t - s);
  }

  ghost function Below(n: nat): (s: set<nat>)
    ensures forall i :: i in s <==> 0 <= i < n
    ensures |s| == n
  {
    if n == 0 then {} else Below(n - 1) + {n - 1}
  }
}
