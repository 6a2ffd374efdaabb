/** The orientation problem behind cuckoo hashing.  Table slots are vertices, inputs are
    edges between their two slots; an input is placed by orienting its edge to one end. */
module Orientation {
  import opened Sets

  datatype Edge = Edge(left: nat, right: nat)
  {
    predicate Touches(v: nat) { v == left || v == right }

    function Other(v: nat): nat { if v == left then right else left }
  }

  /** Contents of the builder's work vectors; `At` carries a vertex or an edge index. */
  datatype Mark = Empty | Root | Unvisited | Stashed | At(index: nat)

  datatype DirectedEdge = DirectedEdge(edge: nat, vertex: nat)

  /** A bipartite multigraph on the vertices below `n`: no edge is a loop. */
  ghost predicate Graph(ends: seq<Edge>, n: nat) {
    forall e :: 0 <= e < |ends| ==> ends[e].left < n && ends[e].right < n && ends[e].left != ends[e].right
  }

  ghost predicate Adjacency(ends: seq<Edge>, n: nat, adj: seq<seq<DirectedEdge>>) {
    && |adj| == n
    && (forall v, k :: 0 <= v < n && 0 <= k < |adj[v]| ==>
          adj[v][k].edge < |ends| && ends[adj[v][k].edge].Touches(v)
          && adj[v][k].vertex == ends[adj[v][k].edge].Other(v))
    && (forall v, e :: 0 <= v < n && 0 <= e < |ends| && ends[e].Touches(v) ==> Listed(adj[v], e))
  }

  ghost predicate Listed(out: seq<DirectedEdge>, e: nat) {
    exists k :: 0 <= k < |out| && out[k].edge == e
  }

  // ---------------------------------------------------------------- results

  /** Edge `e` lies inside the vertex set `c`. */
  ghost predicate Inside(ends: seq<Edge>, c: set<nat>, e: int) {
    0 <= e < |ends| && ends[e].left in c && ends[e].right in c
  }

  /** No edge leaves `c`. */
  ghost predicate Closed(ends: seq<Edge>, c: set<nat>) {
    forall e :: 0 <= e < |ends| ==> (ends[e].left in c <==> ends[e].right in c)
  }

  /** `c` cannot be cut in two without cutting an edge. */
  ghost predicate Connected(ends: seq<Edge>, c: set<nat>) {
    forall x: set<nat> :: x < c && x != {} ==> exists e :: Crosses(ends, x, c, e)
  }

  ghost predicate Crosses(ends: seq<Edge>, x: set<nat>, c: set<nat>, e: int) {
    && Inside(ends, c, e)
    && (ends[e].left in x) != (ends[e].right in x)
  }

  /** Every edge inside `c` is stashed or sits at one of its own ends, no two at the same
      vertex, and an edge is stashed only when every vertex of `c` is taken. */
  ghost predicate Settled(ends: seq<Edge>, state: seq<Mark>, c: set<nat>)
    requires |state| == |ends|
  {
    && (forall e :: Inside(ends, c, e) ==> state[e] == Stashed || (state[e].At? && ends[e].Touches(state[e].index)))
    && (forall e, f :: Inside(ends, c, e) && Inside(ends, c, f) && state[e].At? && state[e] == state[f] ==> e == f)
    && (forall e :: Inside(ends, c, e) && state[e] == Stashed ==> AllTaken(ends, state, c))
  }

  ghost predicate Taken(ends: seq<Edge>, state: seq<Mark>, c: set<nat>, v: nat)
    requires |state| == |ends|
  {
    exists e :: Inside(ends, c, e) && state[e] == At(v)
  }

  ghost predicate AllTaken(ends: seq<Edge>, state: seq<Mark>, c: set<nat>)
    requires |state| == |ends|
  {
    forall v {:trigger Taken(ends, state, c, v)} :: v in c ==> Taken(ends, state, c, v)
  }

  /** `comps` lists the connected components of the graph on the vertices below `n`. */
  ghost predicate Components(ends: seq<Edge>, n: nat, comps: seq<set<nat>>) {
    && (forall i, v :: 0 <= i < |comps| && v in comps[i] ==> v < n)
    && PairwiseDisjoint(comps)
    && (forall v: nat :: v < n ==> Covered(comps, v))
    && (forall i :: 0 <= i < |comps| ==> Closed(ends, comps[i]) && Connected(ends, comps[i]))
  }

  ghost predicate Covered(comps: seq<set<nat>>, v: nat) {
    exists i :: 0 <= i < |comps| && v in comps[i]
  }

  ghost predicate Oriented(ends: seq<Edge>, state: seq<Mark>, comps: seq<set<nat>>) {
    && |state| == |ends|
    && forall i :: 0 <= i < |comps| ==> Settled(ends, state, comps[i])
  }

  ghost function StashedIn(state: seq<Mark>): (s: set<nat>) {
    set e | 0 <= e < |state| && state[e] == Stashed
  }

  // ------------------------------------------------------------- optimality

  /** A partial placement: some edges are given one of their own ends, no two the same. */
  ghost predicate Assignment(ends: seq<Edge>, a: map<nat, nat>) {
    && (forall e :: e in a ==> e < |ends| && ends[e].Touches(a[e]))
    && (forall e, f {:trigger a[e], a[f]} :: e in a && f in a && a[e] == a[f] ==> e == f)
  }

  ghost function LeftOut(ends: seq<Edge>, a: map<nat, nat>): (s: set<nat>) {
    set e | 0 <= e < |ends| && e !in a
  }

  lemma Home(ends: seq<Edge>, n: nat, comps: seq<set<nat>>, e: nat) returns (i: nat)
    requires Graph(ends, n) && Components(ends, n, comps) && e < |ends|
    ensures i < |comps| && Inside(ends, comps[i], e)
  {
    assert Covered(comps, ends[e].left);
    i :| 0 <= i < |comps| && ends[e].left in comps[i];
  }

  /** `a` is the placement read off an orientation. */
  ghost predicate AssignedBy(ends: seq<Edge>, state: seq<Mark>, a: map<nat, nat>) {
    && |state| == |ends| && Assignment(ends, a)
    && forall e {:trigger state[e]} :: 0 <= e < |ends| ==> if e in a then state[e] == At(a[e]) else state[e] == Stashed
  }

  /** The orientation itself is a placement whose left-out edges are the stashed ones. */
  lemma OrientationAssigns(ends: seq<Edge>, n: nat, state: seq<Mark>, comps: seq<set<nat>>) returns (a: map<nat, nat>)
    requires Graph(ends, n) && Components(ends, n, comps) && Oriented(ends, state, comps)
    ensures |state| == |ends| && AssignedBy(ends, state, a) && Assignment(ends, a)
    ensures LeftOut(ends, a) == StashedIn(state)
  {
    forall e | 0 <= e < |ends|
      ensures state[e] == Stashed || (state[e].At? && ends[e].Touches(state[e].index))
    {
      var i := Home(ends, n, comps, e);
    }
    a := map e: nat | e < |ends| && state[e].At? :: state[e].index;
    forall e, f | e in a && f in a && a[e] == a[f]
      ensures e == f
    {
      var i := Home(ends, n, comps, e);
      var j := Home(ends, n, comps, f);
      assert a[e] in comps[i] && a[f] in comps[j];
    }
  }

  /** The vertices of the components that hold a stashed edge. */
  ghost function Crowded(ends: seq<Edge>, n: nat, state: seq<Mark>, comps: seq<set<nat>>): (s: set<nat>) {
    set v | v in Below(n) && InCrowd(ends, state, comps, v)
  }

  ghost predicate InCrowd(ends: seq<Edge>, state: seq<Mark>, comps: seq<set<nat>>, v: nat) {
    exists e :: e in StashedIn(state) && SameComponent(ends, comps, e, v)
  }

  lemma CrowdedIs(ends: seq<Edge>, n: nat, state: seq<Mark>, comps: seq<set<nat>>, v: nat)
    ensures v in Crowded(ends, n, state, comps) <==> v < n && InCrowd(ends, state, comps, v)
  {
  }

  /** Every crowded vertex is taken by an edge between crowded vertices. */
  lemma CrowdedHost(ends: seq<Edge>, n: nat, state: seq<Mark>, comps: seq<set<nat>>, v: nat) returns (h: nat)
    requires Graph(ends, n) && Components(ends, n, comps) && Oriented(ends, state, comps)
    requires v in Crowded(ends, n, state, comps)
    ensures h < |ends| && state[h] == At(v)
    ensures Inside(ends, Crowded(ends, n, state, comps), h)
  {
    CrowdedIs(ends, n, state, comps, v);
    var e :| e in StashedIn(state) && SameComponent(ends, comps, e, v);
    var i :| 0 <= i < |comps| && Inside(ends, comps[i], e) && v in comps[i];
    assert Taken(ends, state, comps[i], v) by { assert Settled(ends, state, comps[i]); }
    h :| Inside(ends, comps[i], h) && state[h] == At(v);
    hide Components, Oriented, Crowded;
    assert SameComponent(ends, comps, e, ends[h].left) && SameComponent(ends, comps, e, ends[h].right);
    CrowdedIs(ends, n, state, comps, ends[h].left);
    CrowdedIs(ends, n, state, comps, ends[h].right);
  }

  /** Edges that lie between the vertices of `full` but outnumber them cannot all be placed. */
  lemma Overfull(ends: seq<Edge>, crowd: set<nat>, full: set<nat>, a: map<nat, nat>)
    requires Assignment(ends, a)
    requires forall e {:trigger e in crowd} :: e in crowd ==> Inside(ends, full, e)
    ensures |crowd| <= |full| + |LeftOut(ends, a)|
  {
    var placed := crowd * a.Keys;
    forall e | e in placed ensures a[e] in full {
      assert ends[e].Touches(a[e]);
    }
    InjectionCard(placed, full, a);
    assert crowd == placed + (crowd - a.Keys);
    SubsetCard(crowd - a.Keys, LeftOut(ends, a));
  }

  /** Chooses one edge for every vertex of a set whose vertices are all taken. */
  lemma HostSet(ends: seq<Edge>, state: seq<Mark>, full: set<nat>) returns (hosts: set<nat>)
    requires |state| == |ends| && AllTaken(ends, state, full)
    ensures |hosts| == |full|
    ensures forall h {:trigger h in hosts} :: h in hosts ==> Inside(ends, full, h) && state[h].At?
  {
    hosts := {};
    var todo := full;
    while todo != {}
      invariant todo <= full && |hosts| + |todo| == |full|
      invariant forall h {:trigger h in hosts} :: h in hosts ==>
                  Inside(ends, full, h) && state[h].At? && state[h].index in full - todo
    {
      var v :| v in todo;
      assert Taken(ends, state, full, v);
      var h: nat :| Inside(ends, full, h) && state[h] == At(v);
      assert h !in hosts;
      hosts, todo := hosts + {h}, todo - {v};
    }
  }

  /** No placement leaves out fewer edges than the orientation stashes: the components with a
      stashed edge have all their vertices taken, so their edges outnumber their vertices. */
  lemma Optimal(ends: seq<Edge>, n: nat, state: seq<Mark>, comps: seq<set<nat>>, a: map<nat, nat>)
    requires Graph(ends, n) && Components(ends, n, comps) && Oriented(ends, state, comps)
    requires Assignment(ends, a)
    ensures |StashedIn(state)| <= |LeftOut(ends, a)|
  {
    hide *;
    var full := Crowded(ends, n, state, comps);
    CrowdTaken(ends, n, state, comps);
    StashedCrowd(ends, n, state, comps);
    var hosts := HostSet(ends, state, full);
    Outnumbered(ends, state, full, hosts, a);
  }

  /** Every crowded vertex has a host among the edges of its component. */
  lemma CrowdTaken(ends: seq<Edge>, n: nat, state: seq<Mark>, comps: seq<set<nat>>)
    requires Graph(ends, n) && Components(ends, n, comps) && Oriented(ends, state, comps)
    ensures |state| == |ends| && AllTaken(ends, state, Crowded(ends, n, state, comps))
  {
    hide Crowded, Components, Inside, Graph, Settled;
    var full := Crowded(ends, n, state, comps);
    forall v {:trigger Taken(ends, state, full, v)} | v in full ensures Taken(ends, state, full, v) {
      var h := CrowdedHost(ends, n, state, comps, v);
    }
  }

  /** Stashed edges lie within the crowd. */
  lemma StashedCrowd(ends: seq<Edge>, n: nat, state: seq<Mark>, comps: seq<set<nat>>)
    requires Graph(ends, n) && Components(ends, n, comps) && Oriented(ends, state, comps)
    ensures forall e {:trigger e in StashedIn(state)} :: e in StashedIn(state) ==> Inside(ends, Crowded(ends, n, state, comps), e)
  {
    hide Crowded, Components, Settled;
    forall e | e in StashedIn(state) ensures Inside(ends, Crowded(ends, n, state, comps), e) {
      var i := Home(ends, n, comps, e);
      assert SameComponent(ends, comps, e, ends[e].left) && SameComponent(ends, comps, e, ends[e].right);
      CrowdedIs(ends, n, state, comps, ends[e].left);
      CrowdedIs(ends, n, state, comps, ends[e].right);
    }
  }

  lemma Outnumbered(ends: seq<Edge>, state: seq<Mark>, full: set<nat>, hosts: set<nat>, a: map<nat, nat>)
    requires |state| == |ends| && Assignment(ends, a) && |hosts| == |full|
    requires forall h {:trigger h in hosts} :: h in hosts ==> Inside(ends, full, h) && state[h].At?
    requires forall e {:trigger e in StashedIn(state)} :: e in StashedIn(state) ==> Inside(ends, full, e)
    ensures |StashedIn(state)| <= |LeftOut(ends, a)|
  {
    forall h | h in hosts ensures h !in StashedIn(state) { assert state[h].At?; }
    assert StashedIn(state) !! hosts;
    hide Assignment, LeftOut, StashedIn;
    Overfull(ends, StashedIn(state) + hosts, full, a);
  }

  ghost predicate SameComponent(ends: seq<Edge>, comps: seq<set<nat>>, e: nat, v: nat) {
    exists i :: 0 <= i < |comps| && Inside(ends, comps[i], e) && v in comps[i]
  }

  // ------------------------------------------------- the excess formula

  ghost function EdgesInside(ends: seq<Edge>, c: set<nat>): (s: set<nat>) {
    set e | 0 <= e < |ends| && Inside(ends, c, e)
  }

  function Excess(edges: nat, vertices: nat): nat {
    if edges <= vertices then 0 else edges - vertices
  }

  ghost function TotalExcess(ends: seq<Edge>, comps: seq<set<nat>>): nat {
    if comps == [] then 0
    else TotalExcess(ends, comps[..|comps| - 1]) + Excess(|EdgesInside(ends, comps[|comps| - 1])|, |comps[|comps| - 1]|)
  }

  lemma PlacedFit(ends: seq<Edge>, state: seq<Mark>, c: set<nat>, placed: set<nat>)
    requires |state| == |ends| && Settled(ends, state, c)
    requires placed == EdgesInside(ends, c) - StashedIn(state)
    ensures |placed| <= |c|
    ensures AllTaken(ends, state, c) ==> |placed| == |c|
  {
    var at := map e | e in placed :: state[e].index;
    assert InjectiveOn(placed, at);
    InjectionCard(placed, c, at);
    if AllTaken(ends, state, c) {
      var hosts := HostSet(ends, state, c);
      SubsetCard(hosts, placed);
    }
  }

  lemma ComponentExcess(ends: seq<Edge>, state: seq<Mark>, c: set<nat>)
    requires |state| == |ends| && Settled(ends, state, c)
    ensures |EdgesInside(ends, c) * StashedIn(state)| == Excess(|EdgesInside(ends, c)|, |c|)
  {
    var inside, stashed := EdgesInside(ends, c), StashedIn(state);
    PlacedFit(ends, state, c, inside - stashed);
    assert inside == (inside - stashed) + inside * stashed;
    if inside * stashed != {} {
      var e :| e in inside * stashed;
      assert Inside(ends, c, e) && state[e] == Stashed;
    }
  }

  ghost function InAny(ends: seq<Edge>, comps: seq<set<nat>>): (s: set<nat>) {
    set e | 0 <= e < |ends| && InOne(ends, comps, e)
  }

  ghost predicate InOne(ends: seq<Edge>, comps: seq<set<nat>>, e: int) {
    exists i :: 0 <= i < |comps| && Inside(ends, comps[i], e)
  }

  lemma InOneSplit(ends: seq<Edge>, comps: seq<set<nat>>, e: int)
    requires comps != []
    ensures InOne(ends, comps, e) <==> InOne(ends, comps[..|comps| - 1], e) || Inside(ends, comps[|comps| - 1], e)
  {
    var rest := comps[..|comps| - 1];
    if InOne(ends, comps, e) {
      var i :| 0 <= i < |comps| && Inside(ends, comps[i], e);
      assert i < |rest| ==> Inside(ends, rest[i], e);
    }
    if InOne(ends, rest, e) {
      var i :| 0 <= i < |rest| && Inside(ends, rest[i], e);
      assert Inside(ends, comps[i], e);
    }
  }

  ghost predicate PairwiseDisjoint(comps: seq<set<nat>>) {
    forall i, j :: 0 <= i < j < |comps| ==> comps[i] !! comps[j]
  }

  /** An edge inside the last of disjoint vertex sets is inside none of the others. */
  lemma StashSplit(ends: seq<Edge>, comps: seq<set<nat>>, st: set<nat>)
    requires comps != [] && PairwiseDisjoint(comps)
    ensures |InAny(ends, comps) * st|
         == |InAny(ends, comps[..|comps| - 1]) * st| + |EdgesInside(ends, comps[|comps| - 1]) * st|
  {
    var rest, c := comps[..|comps| - 1], comps[|comps| - 1];
    var before, last := InAny(ends, rest) * st, EdgesInside(ends, c) * st;
    forall e: int ensures InOne(ends, comps, e) <==> InOne(ends, rest, e) || Inside(ends, c, e) {
      InOneSplit(ends, comps, e);
    }
    assert InAny(ends, comps) * st == before + last;
    forall e | e in before ensures e !in last {
      var i :| 0 <= i < |rest| && Inside(ends, rest[i], e);
      assert rest[i] == comps[i] && comps[i] !! c;
    }
    assert before !! last;
  }

  lemma {:induction false} ExcessSum(ends: seq<Edge>, state: seq<Mark>, comps: seq<set<nat>>)
    requires PairwiseDisjoint(comps) && Oriented(ends, state, comps)
    ensures |InAny(ends, comps) * StashedIn(state)| == TotalExcess(ends, comps)
  {
    if comps != [] {
      ExcessSum(ends, state, comps[..|comps| - 1]);
      ComponentExcess(ends, state, comps[|comps| - 1]);
      StashSplit(ends, comps, StashedIn(state));
    }
  }

  /** The number of stashed edges is the sum over the connected components of the edges in
      excess of the vertices. */
  lemma StashedIsExcess(ends: seq<Edge>, n: nat, state: seq<Mark>, comps: seq<set<nat>>)
    requires Graph(ends, n) && Components(ends, n, comps) && Oriented(ends, state, comps)
    ensures |StashedIn(state)| == TotalExcess(ends, comps)
  {
    ExcessSum(ends, state, comps);
    forall e | e in StashedIn(state)
      ensures e in InAny(ends, comps)
    {
      var i := Home(ends, n, comps, e);
    }
    assert InAny(ends, comps) * StashedIn(state) == StashedIn(state);
  }
}
