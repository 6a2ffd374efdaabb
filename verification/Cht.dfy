/** The cuckoo hash table builder. */
module Cht {
  import opened Words
  import opened Sets
  import opened Orientation
  import opened Search

  ghost function Snap(state: array<Mark>, pv: array<Mark>, pe: array<Mark>): Forest
    reads state, pv, pe
  {
    Forest(state[..], pv[..], pe[..])
  }

  /** Looks at one edge from a reached vertex; `isNew` tells whether its other end is to be pushed. */
  method Visit(ghost ends: seq<Edge>, curr: nat, d: DirectedEdge, extra: Mark,
               state: array<Mark>, pv: array<Mark>, pe: array<Mark>,
               ghost done: set<nat>, ghost comp: set<nat>, ghost root: nat, ghost rank: map<nat, nat>)
    returns (extra': Mark, isNew: bool, ghost comp': set<nat>, ghost rank': map<nat, nat>)
    requires state != pv && state != pe && pv != pe
    requires Growing(ends, pv.Length, Snap(state, pv, pe), done, comp, root, rank, extra)
    requires curr in comp && curr in rank && d.edge < |ends| && ends[d.edge].Touches(curr)
    requires d.vertex == ends[d.edge].Other(curr)
    modifies state, pv, pe
    ensures Growing(ends, pv.Length, Snap(state, pv, pe), done, comp', root, rank', extra')
    ensures state[d.edge] != Unvisited
    ensures forall e :: 0 <= e < |ends| && old(state[e]) != Unvisited ==> state[e] == old(state[e])
    ensures isNew ==> d.vertex !in comp && comp' == comp + {d.vertex} && rank' == rank[d.vertex := |comp|]
    ensures !isNew ==> comp' == comp && rank' == rank
  {
    ghost var f, n := Snap(state, pv, pe), pv.Length;
    extra', isNew, comp', rank' := extra, false, comp, rank;
    if state[d.edge] == Unvisited {
      assert EdgeMarked(ends, n, f, done, comp, root, extra, d.edge);
      if pv[d.vertex] == Empty {
        TreeStep(ends, n, f, done, comp, root, rank, extra, curr, d.edge);
        pv[d.vertex] := At(curr);
        pe[d.vertex] := At(d.edge);
        state[d.edge] := At(d.vertex);
        assert Snap(state, pv, pe) == Hang(ends, n, f, curr, d.edge);
        isNew, comp', rank' := true, comp + {d.vertex}, rank[d.vertex := |comp|];
      } else {
        CycleStep(ends, n, f, done, comp, root, rank, extra, curr, d.edge);
        if extra == Empty {
          extra' := At(d.edge);
          state[d.edge] := At(d.vertex);
          assert Snap(state, pv, pe) == f.(state := f.state[d.edge := At(d.vertex)]);
        } else {
          state[d.edge] := Stashed;
          assert Snap(state, pv, pe) == f.(state := f.state[d.edge := Stashed]);
        }
      }
    }
  }

  /** Looks at all edges of one vertex and pushes the vertices found on top of `dfs`. */
  method Expand(ghost ends: seq<Edge>, curr: nat, out: seq<DirectedEdge>, extra: Mark, dfs: seq<nat>,
                state: array<Mark>, pv: array<Mark>, pe: array<Mark>,
                ghost done: set<nat>, ghost comp: set<nat>, ghost root: nat, ghost rank: map<nat, nat>)
    returns (extra': Mark, dfs': seq<nat>, ghost comp': set<nat>, ghost rank': map<nat, nat>)
    requires state != pv && state != pe && pv != pe && state.Length == |ends|
    requires Growing(ends, pv.Length, Snap(state, pv, pe), done, comp, root, rank, extra)
    requires curr in comp && curr in rank
    requires forall k :: 0 <= k < |out| ==> out[k].edge < |ends| && ends[out[k].edge].Touches(curr)
                                            && out[k].vertex == ends[out[k].edge].Other(curr)
    modifies state, pv, pe
    ensures Growing(ends, pv.Length, Snap(state, pv, pe), done, comp', root, rank', extra')
    ensures forall k {:trigger out[k]} :: 0 <= k < |out| ==> state[out[k].edge] != Unvisited
    ensures forall e :: 0 <= e < |ends| && old(state[e]) != Unvisited ==> state[e] == old(state[e])
    ensures |dfs| <= |dfs'| && dfs'[..|dfs|] == dfs
    ensures forall i :: |dfs| <= i < |dfs'| ==> dfs'[i] in comp' && dfs'[i] !in comp && dfs'[i] in rank'
    ensures forall i, j :: |dfs| <= i < j < |dfs'| ==> dfs'[i] != dfs'[j]
    ensures comp <= comp' && rank.Keys <= rank'.Keys
    ensures forall v :: v in comp' && v !in comp ==> v in dfs' && v in rank'
  {
    hide Growing;
    ghost var n := pv.Length;
    extra', dfs', comp', rank' := extra, dfs, comp, rank;
    ghost var looked: set<nat> := {};
    for k := 0 to |out|
      invariant Growing(ends, n, Snap(state, pv, pe), done, comp', root, rank', extra')
      invariant forall i :: 0 <= i < k ==> out[i].edge in looked
      invariant forall e :: e in looked ==> e < |ends| && state[e] != Unvisited
      invariant forall e :: 0 <= e < |ends| && old(state[e]) != Unvisited ==> state[e] == old(state[e])
      invariant |dfs| <= |dfs'| && dfs'[..|dfs|] == dfs
      invariant forall i :: |dfs| <= i < |dfs'| ==> dfs'[i] in comp' && dfs'[i] !in comp && dfs'[i] in rank'
      invariant forall i, j :: |dfs| <= i < j < |dfs'| ==> dfs'[i] != dfs'[j]
      invariant comp <= comp' && rank.Keys <= rank'.Keys
      invariant forall v :: v in comp' && v !in comp ==> v in dfs' && v in rank'
    {
      var isNew;
      extra', isNew, comp', rank' := Visit(ends, curr, out[k], extra', state, pv, pe, done, comp', root, rank');
      looked := looked + {out[k].edge};
      if isNew {
        dfs' := dfs' + [out[k].vertex];
      }
    }
  }

  /** The stack holds, once each, exactly the reached vertices that have not been popped. */
  ghost predicate Stack(dfs: seq<nat>, comp: set<nat>, popped: set<nat>) {
    && popped <= comp
    && (forall i, j :: 0 <= i < j < |dfs| ==> dfs[i] != dfs[j])
    && (forall i :: 0 <= i < |dfs| ==> dfs[i] in comp - popped)
    && (forall v :: v in comp - popped ==> v in dfs)
  }

  lemma StackInit(v: nat)
    ensures Stack([v], {v}, {})
  {
  }

  lemma StackTop(dfs: seq<nat>, comp: set<nat>, popped: set<nat>)
    requires Stack(dfs, comp, popped)
    ensures dfs != [] ==> dfs[|dfs| - 1] in comp && dfs[|dfs| - 1] !in popped
    ensures dfs == [] ==> comp == popped
    ensures popped <= comp
  {
    assert dfs == [] ==> forall v :: v in comp ==> v !in comp - popped;
  }

  lemma StackStep(dfs: seq<nat>, comp: set<nat>, popped: set<nat>, dfs': seq<nat>, comp': set<nat>)
    requires Stack(dfs, comp, popped) && dfs != [] && comp <= comp'
    requires |dfs| - 1 <= |dfs'| && dfs'[..|dfs| - 1] == dfs[..|dfs| - 1]
    requires forall i :: |dfs| - 1 <= i < |dfs'| ==> dfs'[i] in comp' && dfs'[i] !in comp
    requires forall i, j :: |dfs| - 1 <= i < j < |dfs'| ==> dfs'[i] != dfs'[j]
    requires forall v :: v in comp' && v !in comp ==> v in dfs'
    ensures Stack(dfs', comp', popped + {dfs[|dfs| - 1]})
  {
    var k, top := |dfs| - 1, dfs[|dfs| - 1];
    forall i | 0 <= i < k ensures dfs'[i] == dfs[i] && dfs[i] != top {
      assert dfs'[..k][i] == dfs[..k][i];
    }
    forall v | v in comp' - (popped + {top}) ensures v in dfs' {
      if v in comp {
        assert v in comp - popped;
        var i :| 0 <= i < |dfs| && dfs[i] == v;
        assert dfs'[i] == v;
      }
    }
  }

  /** Visits everything reachable from `start`.  Every vertex is pushed once; a first edge that closes
      a cycle is kept as the extra edge, later ones are stashed. */
  method Explore(ghost ends: seq<Edge>, adj: seq<seq<DirectedEdge>>, start: nat,
                 state: array<Mark>, pv: array<Mark>, pe: array<Mark>, ghost done: set<nat>)
    returns (component: seq<nat>, extra: Mark, ghost comp: set<nat>, ghost rank: map<nat, nat>)
    requires state != pv && state != pe && pv != pe
    requires pv.Length == |adj| && Graph(ends, |adj|) && Adjacency(ends, |adj|, adj) && Sized(ends, |adj|, Snap(state, pv, pe))
    requires start < |adj| && pv[start] == Empty
    requires Seen(|adj|, Snap(state, pv, pe), done, {})
    requires Marked(ends, |adj|, Snap(state, pv, pe), done, {}, start, Empty)
    modifies state, pv, pe
    ensures Growing(ends, |adj|, Snap(state, pv, pe), done, comp, start, rank, extra)
    ensures Exhausted(ends, state[..], comp)
    ensures forall e :: 0 <= e < |ends| && old(state[e]) != Unvisited ==> state[e] == old(state[e])
    ensures forall c :: c in component ==> c in comp
  {
    hide Growing, Stack;
    ghost var n := |adj|;
    StartTree(ends, n, Snap(state, pv, pe), done, start);
    extra, component := Empty, [];
    pv[start], pe[start] := Root, Root;
    comp, rank := {start}, map[start := 0];
    var dfs := [start];
    ghost var popped: set<nat> := {};
    assert Stack(dfs, comp, popped) by { StackInit(start); }
    while dfs != []
      invariant Growing(ends, n, Snap(state, pv, pe), done, comp, start, rank, extra)
      invariant Stack(dfs, comp, popped) && (forall c :: c in component ==> c in comp)
      invariant Exhausted(ends, state[..], popped)
      invariant forall e :: 0 <= e < |ends| && old(state[e]) != Unvisited ==> state[e] == old(state[e])
      decreases Below(n) - popped
    {
      GrowingBounds(ends, n, Snap(state, pv, pe), done, comp, start, rank, extra);
      StackTop(dfs, comp, popped);
      var curr := dfs[|dfs| - 1];
      ghost var dfs0, comp0 := dfs, comp;
      component := component + [curr];
      extra, dfs, comp, rank := Expand(ends, curr, adj[curr], extra, dfs[..|dfs| - 1], state, pv, pe, done, comp, start, rank);
      StackStep(dfs0, comp0, popped, dfs, comp);
      forall e | 0 <= e < |ends| && ends[e].Touches(curr) ensures state[e] != Unvisited {
        assert Listed(adj[curr], e);
      }
      popped := popped + {curr};
    }
    StackTop(dfs, comp, popped);
  }

  /** Walks from the end that holds the extra edge to the root, turning each tree edge on the way
      to its upper end; the walk ends because ranks fall. */
  method Reorient(ghost ends: seq<Edge>, extra: Mark, state: array<Mark>, pv: array<Mark>, pe: array<Mark>,
                  ghost comp: set<nat>, ghost root: nat, ghost rank: map<nat, nat>)
    requires state != pv && state != pe && pv != pe && extra.At? && extra.index < state.Length
    requires state[extra.index].At?
    requires Slack(ends, pv.Length, Snap(state, pv, pe), comp, root, rank, state[extra.index].index, extra.index)
    modifies state
    ensures Settled(ends, state[..], comp)
    ensures forall e :: 0 <= e < |ends| && !Inside(ends, comp, e) ==> state[e] == old(state[e])
  {
    var value := extra.index;
    var x: nat := state[value].index;
    ghost var last: nat := value;
    while pv[x] != Root
      invariant state.Length == |ends| && x < pv.Length
      invariant Slack(ends, pv.Length, Snap(state, pv, pe), comp, root, rank, x, last)
      invariant forall e :: 0 <= e < |ends| && !Inside(ends, comp, e) ==> state[e] == old(state[e])
      decreases rank[x]
    {
      ghost var f := Snap(state, pv, pe);
      SlackStep(ends, pv.Length, f, comp, root, rank, x, last);
      last := pe[x].index;
      state[pe[x].index] := pv[x];
      assert Snap(state, pv, pe) == f.(state := f.state[f.pe[x].index := f.pv[x]]);
      x := pv[x].index;
    }
    assert Snap(state, pv, pe).pv[x] == Root;
    SlackDone(ends, pv.Length, Snap(state, pv, pe), comp, root, rank, last);
  }

  // ------------------------------------------------------------ outer loop

  /** After `done` components: what the outer loop keeps. */
  ghost predicate Progress(ends: seq<Edge>, n: nat, f: Forest, done: set<nat>, comps: seq<set<nat>>)
  {
    && Graph(ends, n) && Sized(ends, n, f) && Seen(n, f, done, {})
    && (forall e {:trigger f.state[e]} :: 0 <= e < |ends| ==>
          (f.state[e] == Unvisited && ends[e].left !in done && ends[e].right !in done)
          || (f.state[e] != Unvisited && Both(ends[e], done)))
    && PairwiseDisjoint(comps)
    && (forall v :: v in done <==> Covered(comps, v))
    && (forall i :: 0 <= i < |comps| ==> Closed(ends, comps[i]) && Connected(ends, comps[i]))
    && Oriented(ends, f.state, comps)
  }

  lemma ProgressMarked(ends: seq<Edge>, n: nat, f: Forest, done: set<nat>, comps: seq<set<nat>>, start: nat)
    requires Progress(ends, n, f, done, comps)
    ensures Marked(ends, n, f, done, {}, start, Empty)
  {
    forall e | 0 <= e < |ends| ensures EdgeMarked(ends, n, f, done, {}, start, Empty, e) {
      if f.state[e] != Unvisited {
        assert Covered(comps, ends[e].left);
        var i :| 0 <= i < |comps| && ends[e].left in comps[i];
        assert Inside(ends, comps[i], e);
      }
    }
  }

  lemma SettledFrame(ends: seq<Edge>, state: seq<Mark>, state': seq<Mark>, c: set<nat>)
    requires |state| == |state'| == |ends| && Settled(ends, state, c)
    requires forall e {:trigger state[e]} {:trigger state'[e]} :: Inside(ends, c, e) ==> state'[e] == state[e]
    ensures Settled(ends, state', c)
  {
    if e :| Inside(ends, c, e) && state'[e] == Stashed {
      forall v | v in c ensures Taken(ends, state', c, v) {
        assert Taken(ends, state, c, v);
        var h :| Inside(ends, c, h) && state[h] == At(v);
        assert state'[h] == At(v);
      }
    }
  }

  /** One more settled component. */
  lemma ProgressStep(ends: seq<Edge>, n: nat, f: Forest, g: Forest, done: set<nat>, comps: seq<set<nat>>, comp: set<nat>)
    requires Progress(ends, n, f, done, comps) && Sized(ends, n, g) && Seen(n, g, done, comp)
    requires Closed(ends, comp) && Connected(ends, comp) && Settled(ends, g.state, comp)
    requires forall e :: 0 <= e < |ends| && f.state[e] != Unvisited ==> g.state[e] == f.state[e]
    requires forall e :: 0 <= e < |ends| && g.state[e] != f.state[e] ==> Inside(ends, comp, e)
    ensures Progress(ends, n, g, done + comp, comps + [comp])
  {
    var all := comps + [comp];
    forall v ensures v in done + comp <==> Covered(all, v) {
      if v in done {
        assert Covered(comps, v);
        var i :| 0 <= i < |comps| && v in comps[i];
        assert v in all[i];
      }
      if v in comp { assert v in all[|comps|]; }
      if Covered(all, v) {
        var i :| 0 <= i < |all| && v in all[i];
        assert i < |comps| ==> Covered(comps, v);
      }
    }
    forall i | 0 <= i < |all|
      ensures Settled(ends, g.state, all[i]) && (i < |comps| ==> all[i] !! comp)
    {
      if i < |comps| {
        forall v | v in all[i] ensures v in done { assert v in comps[i] && Covered(comps, v); }
        SettledFrame(ends, f.state, g.state, comps[i]);
      }
    }
  }

  lemma ChangedInside(ends: seq<Edge>, n: nat, f: Forest, g: Forest, done: set<nat>, comps: seq<set<nat>>,
                      comp: set<nat>, root: nat, rank: map<nat, nat>, extra: Mark)
    requires Progress(ends, n, f, done, comps) && Growing(ends, n, g, done, comp, root, rank, extra)
    requires forall e :: 0 <= e < |ends| && f.state[e] != Unvisited ==> g.state[e] == f.state[e]
    ensures forall e :: 0 <= e < |ends| && g.state[e] != f.state[e] ==> Inside(ends, comp, e)
  {
    forall e | 0 <= e < |ends| && g.state[e] != f.state[e] ensures Inside(ends, comp, e) {
      assert EdgeMarked(ends, n, g, done, comp, root, extra, e);
    }
  }

  lemma ProgressEnd(ends: seq<Edge>, n: nat, f: Forest, done: set<nat>, comps: seq<set<nat>>)
    requires Progress(ends, n, f, done, comps) && done == Below(n)
    ensures Components(ends, n, comps) && Oriented(ends, f.state, comps)
  {
    forall i, v | 0 <= i < |comps| && v in comps[i] ensures v < n {
      assert Covered(comps, v);
    }
  }

  lemma ProgressStart(ends: seq<Edge>, n: nat, f: Forest)
    requires Graph(ends, n) && Sized(ends, n, f)
    requires (forall e :: 0 <= e < |ends| ==> f.state[e] == Unvisited) && (forall v :: 0 <= v < n ==> f.pv[v] == Empty)
    ensures Progress(ends, n, f, {}, [])
  {
  }

  /** Searches one component and settles its edges. */
  method SettleComponent(ghost ends: seq<Edge>, adj: seq<seq<DirectedEdge>>, start: nat,
                         state: array<Mark>, pv: array<Mark>, pe: array<Mark>,
                         ghost done: set<nat>, ghost comps: seq<set<nat>>)
    returns (ghost comp: set<nat>)
    requires state != pv && state != pe && pv != pe && pv.Length == |adj| && state.Length == |ends|
    requires Adjacency(ends, |adj|, adj) && Progress(ends, |adj|, Snap(state, pv, pe), done, comps)
    requires start < |adj| && pv[start] == Empty
    modifies state, pv, pe
    ensures start in comp && Progress(ends, |adj|, Snap(state, pv, pe), done + comp, comps + [comp])
  {
    ghost var n, f := |adj|, Snap(state, pv, pe);
    ProgressMarked(ends, n, f, done, comps, start);
    var component, extra;
    ghost var rank;
    component, extra, comp, rank := Explore(ends, adj, start, state, pv, pe, done);
    ghost var g := Snap(state, pv, pe);
    for i := 0 to |component| {
      assert pe[component[i]] != Empty by { PartOfTree(ends, n, g, done, comp, start, rank, extra, component[i]); }
    }
    ChangedInside(ends, n, f, g, done, comps, comp, start, rank, extra);
    ExploredClosed(ends, n, g, done, comp, start, rank, extra);
    TreeConnected(ends, n, g, comp, start, rank);
    if extra != Empty {
      ExploredCycle(ends, n, g, done, comp, start, rank, extra);
      Reorient(ends, extra, state, pv, pe, comp, start, rank);
    } else {
      ExploredTree(ends, n, g, done, comp, start, rank);
    }
    ProgressStep(ends, n, f, Snap(state, pv, pe), done, comps, comp);
  }

  lemma PartOfTree(ends: seq<Edge>, n: nat, f: Forest, done: set<nat>, comp: set<nat>, root: nat,
                   rank: map<nat, nat>, extra: Mark, v: nat)
    requires Growing(ends, n, f, done, comp, root, rank, extra) && v in comp
    ensures v < n && f.pe[v] != Empty
  {
    assert v != root ==> f.pe[v].At? && Linked(ends, n, f, comp, rank, v);
  }

  /** Orients every edge of the graph, component by component. */
  method Orient(ghost ends: seq<Edge>, adj: seq<seq<DirectedEdge>>, numEdges: nat)
    returns (state: array<Mark>, ghost comps: seq<set<nat>>)
    requires numEdges == |ends| && Graph(ends, |adj|) && Adjacency(ends, |adj|, adj)
    ensures fresh(state) && Components(ends, |adj|, comps) && Oriented(ends, state[..], comps)
  {
    hide Progress, Adjacency;
    state := new Mark[numEdges](_ => Unvisited);
    var pv := new Mark[|adj|](_ => Empty);
    var pe := new Mark[|adj|](_ => Empty);
    comps := [];
    ghost var done: set<nat> := {};
    ProgressStart(ends, |adj|, Snap(state, pv, pe));
    for start := 0 to |adj|
      invariant Progress(ends, |adj|, Snap(state, pv, pe), done, comps)
      invariant forall v :: 0 <= v < start ==> v in done
    {
      ProgressSeen(ends, |adj|, Snap(state, pv, pe), done, comps, start);
      if pv[start] == Empty {
        ghost var comp := SettleComponent(ends, adj, start, state, pv, pe, done, comps);
        done, comps := done + comp, comps + [comp];
      }
    }
    ProgressAll(ends, |adj|, Snap(state, pv, pe), done, comps);
    ProgressEnd(ends, |adj|, Snap(state, pv, pe), done, comps);
  }

  lemma ProgressSeen(ends: seq<Edge>, n: nat, f: Forest, done: set<nat>, comps: seq<set<nat>>, v: nat)
    requires Progress(ends, n, f, done, comps) && v < n
    ensures |f.pv| == n && (f.pv[v] != Empty <==> v in done)
  {
  }

  lemma ProgressAll(ends: seq<Edge>, n: nat, f: Forest, done: set<nat>, comps: seq<set<nat>>)
    requires Progress(ends, n, f, done, comps) && forall v :: 0 <= v < n ==> v in done
    ensures done == Below(n)
  {
  }

  // ----------------------------------------------------------- the builder

  /** First hash location: a slot of the left column. */
  function H0(block: nat, logCol: nat): (r: nat)
    ensures r < Pow2(logCol)
  {
    (block / TWO64) % Pow2(logCol)
  }

  /** Second hash location: a slot of the right column. */
  function H1(block: nat, logCol: nat): (r: nat)
    ensures Pow2(logCol) <= r < 2 * Pow2(logCol)
  {
    (block / TWO96) % Pow2(logCol) + Pow2(logCol)
  }

  /** Every input is an edge between its two hash locations. */
  ghost function Ends(inputs: seq<nat>, logCol: nat): (ends: seq<Edge>)
    ensures |ends| == |inputs|
    ensures forall e :: 0 <= e < |inputs| ==> ends[e] == Edge(H0(inputs[e], logCol), H1(inputs[e], logCol))
    ensures Graph(ends, 2 * Pow2(logCol))
  {
    seq(|inputs|, e requires 0 <= e < |inputs| => Edge(H0(inputs[e], logCol), H1(inputs[e], logCol)))
  }

  /** Some placement of the inputs leaves at most `stashSize` of them out. */
  ghost predicate Fits(inputs: seq<nat>, logCol: nat, stashSize: nat) {
    exists a :: Assignment(Ends(inputs, logCol), a) && |LeftOut(Ends(inputs, logCol), a)| <= stashSize
  }

  /** The indices of the inputs without a home, in input order. */
  ghost function Stash(inputs: seq<nat>, home: seq<Option<nat>>): (r: seq<nat>)
    requires |home| == |inputs|
  {
    if inputs == [] then []
    else
      var last := |inputs| - 1;
      Stash(inputs[..last], home[..last]) + (if home[last].None? then [LowU32(inputs[last])] else [])
  }

  /** `home` says where each input went: to one of its own two slots, no two to the same, or to the
      stash, which lists the indices of the others in order; all other slots are empty. */
  ghost predicate Placement(inputs: seq<nat>, logCol: nat, home: seq<Option<nat>>, table: seq<nat>, stash: seq<nat>) {
    && |table| == 2 * Pow2(logCol) && |home| == |inputs|
    && (forall e :: 0 <= e < |home| && home[e].Some? ==>
          (home[e].value == H0(inputs[e], logCol) || home[e].value == H1(inputs[e], logCol)))
    && (forall e, f :: 0 <= e < f < |home| && home[e].Some? ==> home[e] != home[f])
    && (forall e :: 0 <= e < |home| && home[e].Some? ==> table[home[e].value] == inputs[e])
    && (forall p :: 0 <= p < |table| ==> table[p] == 0 || Some(p) in home)
    && stash == Stash(inputs, home)
  }

  function CountStashed(state: seq<Mark>): (n: nat)
    ensures n <= |state|
  {
    if state == [] then 0
    else CountStashed(state[..|state| - 1]) + (if state[|state| - 1] == Stashed then 1 else 0)
  }

  lemma {:induction false} CountIsCard(state: seq<Mark>)
    ensures CountStashed(state) == |StashedIn(state)|
  {
    if state != [] {
      var k := |state| - 1;
      CountIsCard(state[..k]);
      assert StashedIn(state) == StashedIn(state[..k]) + (if state[k] == Stashed then {k} else {});
    }
  }

  lemma {:induction false} CountPrefix(state: seq<Mark>, k: nat)
    requires k <= |state|
    ensures CountStashed(state[..k]) <= CountStashed(state)
    ensures k < |state| && state[k] == Stashed ==> CountStashed(state[..k]) < CountStashed(state)
  {
    if k == |state| {
      assert state[..k] == state;
    } else {
      var rest := state[..|state| - 1];
      CountPrefix(rest, k);
      assert rest[..k] == state[..k];
    }
  }

  ghost function Link(adj: seq<seq<DirectedEdge>>, e: nat, end: Edge): (r: seq<seq<DirectedEdge>>)
    requires end.left < |adj| && end.right < |adj| && end.left != end.right
    ensures |r| == |adj|
  {
    adj[end.left := adj[end.left] + [DirectedEdge(e, end.right)]]
       [end.right := adj[end.right] + [DirectedEdge(e, end.left)]]
  }

  lemma LinkStep(ends: seq<Edge>, n: nat, adj: seq<seq<DirectedEdge>>, end: Edge)
    requires Adjacency(ends, n, adj) && Graph(ends + [end], n) && end == (ends + [end])[|ends|]
    ensures Adjacency(ends + [end], n, Link(adj, |ends|, end))
  {
    var r := Link(adj, |ends|, end);
    forall v | 0 <= v < n ensures adj[v] <= r[v] {}
    forall v, i | 0 <= v < n && 0 <= i < |ends| + 1 && (ends + [end])[i].Touches(v) ensures Listed(r[v], i) {
      if i < |ends| {
        assert Listed(adj[v], i);
        var k :| 0 <= k < |adj[v]| && adj[v][k].edge == i;
        assert r[v][k].edge == i;
      } else {
        assert r[v][|r[v]| - 1].edge == i;
      }
    }
  }

  method BuildAdjacency(inputs: seq<nat>, logCol: nat) returns (edges: seq<seq<DirectedEdge>>)
    ensures |edges| == 2 * Pow2(logCol) && Adjacency(Ends(inputs, logCol), |edges|, edges)
  {
    hide Adjacency;
    var numVertices := 2 * Pow2(logCol);
    edges := seq(numVertices, _ => []);
    ghost var ends := Ends(inputs, logCol);
    NoEdges(numVertices, edges);
    assert ends[..0] == [];
    for e := 0 to |inputs|
      invariant |edges| == numVertices && Adjacency(ends[..e], numVertices, edges)
    {
      var left, right := H0(inputs[e], logCol), H1(inputs[e], logCol);
      LinkStep(ends[..e], numVertices, edges, ends[e]);
      assert ends[..e] + [ends[e]] == ends[..e + 1];
      edges := edges[left := edges[left] + [DirectedEdge(e, right)]];
      edges := edges[right := edges[right] + [DirectedEdge(e, left)]];
    }
    assert ends[..|inputs|] == ends;
  }

  lemma NoEdges(n: nat, adj: seq<seq<DirectedEdge>>)
    requires |adj| == n && forall v :: 0 <= v < n ==> adj[v] == []
    ensures Adjacency([], n, adj)
  {
  }

  lemma KeepOut(inputs: seq<nat>, logCol: nat, home: seq<Option<nat>>, table: seq<nat>, stash: seq<nat>, input: nat)
    requires Placement(inputs, logCol, home, table, stash)
    ensures Placement(inputs + [input], logCol, home + [None], table, stash + [LowU32(input)])
  {
    assert (inputs + [input])[..|inputs|] == inputs && (home + [None])[..|inputs|] == home;
    forall p | 0 <= p < |table| && table[p] != 0 ensures Some(p) in home + [None] {
      assert Some(p) in home;
    }
  }

  lemma PutIn(inputs: seq<nat>, logCol: nat, home: seq<Option<nat>>, table: seq<nat>, stash: seq<nat>, input: nat, slot: nat)
    requires Placement(inputs, logCol, home, table, stash)
    requires slot == H0(input, logCol) || slot == H1(input, logCol)
    requires Some(slot) !in home
    ensures slot < |table| && Placement(inputs + [input], logCol, home + [Some(slot)], table[slot := input], stash)
  {
    var home', table' := home + [Some(slot)], table[slot := input];
    assert (inputs + [input])[..|inputs|] == inputs && home'[..|inputs|] == home;
    forall p | 0 <= p < |table'| && table'[p] != 0 ensures Some(p) in home' {
      if p == slot { assert home'[|home|] == Some(p); } else { assert Some(p) in home; }
    }
    forall e | 0 <= e < |home'| && home'[e].Some? ensures table'[home'[e].value] == (inputs + [input])[e] {
      if e < |home| { assert home[e] in home; }
    }
  }

  lemma EmptyPlacement(logCol: nat, table: seq<nat>)
    requires |table| == 2 * Pow2(logCol) && forall p :: 0 <= p < |table| ==> table[p] == 0
    ensures Placement([], logCol, [], table, [])
  {
  }

  lemma FillSettled(ends: seq<Edge>, state: seq<Mark>, a: map<nat, nat>, e: nat)
    requires AssignedBy(ends, state, a) && e < |ends|
    ensures state[e] == Stashed || (state[e].At? && ends[e].Touches(state[e].index))
  {
  }

  /** Every input given a slot so far has the slot its edge was oriented to. */
  ghost predicate Follows(home: seq<Option<nat>>, state: seq<Mark>) {
    |home| <= |state| && forall i :: 0 <= i < |home| && home[i].Some? ==> state[i] == At(home[i].value)
  }

  lemma NoHomes(state: seq<Mark>)
    ensures Follows([], state)
  {
  }

  lemma FollowStep(home: seq<Option<nat>>, state: seq<Mark>)
    requires Follows(home, state) && |home| < |state|
    ensures Follows(home + [None], state)
    ensures state[|home|].At? ==> Follows(home + [Some(state[|home|].index)], state)
  {
  }

  lemma FillFresh(ends: seq<Edge>, state: seq<Mark>, a: map<nat, nat>, e: nat, home: seq<Option<nat>>)
    requires AssignedBy(ends, state, a) && |home| == e < |ends| && state[e].At? && Follows(home, state)
    ensures Some(state[e].index) !in home
  {
    forall i | 0 <= i < e ensures home[i] != Some(state[e].index) {
      if home[i].Some? { assert i in a && e in a && a[i] == home[i].value; }
    }
  }

  method CountMarked(state: seq<Mark>) returns (numMarkedStashed: nat)
    ensures numMarkedStashed == CountStashed(state)
  {
    numMarkedStashed := 0;
    for e := 0 to |state|
      invariant numMarkedStashed == CountStashed(state[..e])
    {
      assert state[..e + 1][..e] == state[..e];
      numMarkedStashed := numMarkedStashed + (if state[e] == Stashed then 1 else 0);
    }
    assert state[..|state|] == state;
  }

  /** Stashed so far, spare places, and stashed edges to come make up the stash. */
  ghost predicate Tally(state: seq<Mark>, stashSize: nat, e: nat, numStashed: nat, deficit: nat) {
    && e <= |state| && numStashed <= e
    && numStashed + deficit + CountStashed(state) - CountStashed(state[..e]) == stashSize
    && (deficit > 0 ==> numStashed == e)
  }

  lemma TallyEnds(state: seq<Mark>, stashSize: nat, numStashed: nat, deficit: nat)
    ensures CountStashed(state) <= stashSize ==> Tally(state, stashSize, 0, 0, stashSize - CountStashed(state))
    ensures Tally(state, stashSize, |state|, numStashed, deficit) ==>
      (if deficit == 0 then numStashed == stashSize && stashSize <= |state| else |state| < stashSize)
  {
    assert state[..|state|] == state;
  }

  lemma TallyStep(state: seq<Mark>, stashSize: nat, e: nat, numStashed: nat, deficit: nat)
    requires Tally(state, stashSize, e, numStashed, deficit) && e < |state|
    ensures state[e] == Stashed || deficit > 0 ==> numStashed < stashSize
    ensures state[e] == Stashed || deficit > 0 ==>
      Tally(state, stashSize, e + 1, numStashed + 1, if state[e] == Stashed then deficit else deficit - 1)
    ensures state[e] != Stashed && deficit == 0 ==> Tally(state, stashSize, e + 1, numStashed, deficit)
  {
    assert state[..e + 1][..e] == state[..e];
    CountPrefix(state, e);
    CountPrefix(state, e + 1);
  }

  /** What the filling loop keeps after `e` inputs. */
  ghost predicate Filling(inputs: seq<nat>, logCol: nat, state: seq<Mark>, stashSize: nat, e: nat,
                          home: seq<Option<nat>>, table: seq<nat>, stash: seq<nat>, deficit: nat)
  {
    && e <= |inputs| == |state| && |home| == e
    && Tally(state, stashSize, e, |stash|, deficit) && Follows(home, state)
    && Placement(inputs[..e], logCol, home, table, stash)
  }

  lemma FillingStep(inputs: seq<nat>, logCol: nat, state: seq<Mark>, a: map<nat, nat>, stashSize: nat, e: nat,
                    home: seq<Option<nat>>, table: seq<nat>, stash: seq<nat>, deficit: nat)
    requires Filling(inputs, logCol, state, stashSize, e, home, table, stash, deficit) && e < |inputs|
    requires AssignedBy(Ends(inputs, logCol), state, a)
    ensures state[e] == Stashed || deficit > 0 ==>
      && |stash| < stashSize
      && Filling(inputs, logCol, state, stashSize, e + 1, home + [None], table, stash + [LowU32(inputs[e])],
                 if state[e] == Stashed then deficit else deficit - 1)
    ensures state[e] != Stashed && deficit == 0 ==>
      && state[e].At? && state[e].index < |table|
      && Filling(inputs, logCol, state, stashSize, e + 1, home + [Some(state[e].index)],
                 table[state[e].index := inputs[e]], stash, deficit)
  {
    hide Placement, Follows, Tally, AssignedBy;
    assert inputs[..e + 1] == inputs[..e] + [inputs[e]];
    FillSettled(Ends(inputs, logCol), state, a, e);
    TallyStep(state, stashSize, e, |stash|, deficit);
    FollowStep(home, state);
    if state[e] == Stashed || deficit > 0 {
      KeepOut(inputs[..e], logCol, home, table, stash, inputs[e]);
    } else {
      FillFresh(Ends(inputs, logCol), state, a, e, home);
      PutIn(inputs[..e], logCol, home, table, stash, inputs[e], state[e].index);
    }
  }

  lemma FillingEnds(inputs: seq<nat>, logCol: nat, state: seq<Mark>, stashSize: nat,
                    home: seq<Option<nat>>, table: seq<nat>, stash: seq<nat>, deficit: nat)
    requires |inputs| == |state|
    ensures CountStashed(state) <= stashSize && |table| == 2 * Pow2(logCol)
              && (forall p :: 0 <= p < |table| ==> table[p] == 0) ==>
      Filling(inputs, logCol, state, stashSize, 0, [], table, [], stashSize - CountStashed(state))
    ensures Filling(inputs, logCol, state, stashSize, |inputs|, home, table, stash, deficit) ==>
      && Placement(inputs, logCol, home, table, stash)
      && (if deficit == 0 then |stash| == stashSize && stashSize <= |inputs| else |inputs| < stashSize)
  {
    assert inputs[..|inputs|] == inputs;
    TallyEnds(state, stashSize, |stash|, deficit);
  }

  /** Fills the table and the fixed-size stash from an orientation; fails where the original asserts. */
  method Fill(stashSize: nat, logCol: nat, inputs: seq<nat>, state: seq<Mark>, ghost comps: seq<set<nat>>)
    returns (ok: bool, table: array<nat>, stash: array<nat>, ghost home: seq<Option<nat>>)
    requires Components(Ends(inputs, logCol), 2 * Pow2(logCol), comps) && Oriented(Ends(inputs, logCol), state, comps)
    ensures fresh(table) && fresh(stash) && stash.Length == stashSize
    ensures ok <==> |StashedIn(state)| <= stashSize <= |inputs|
    ensures ok ==> Placement(inputs, logCol, home, table[..], stash[..])
  {
    hide *;
    ghost var a := OrientationAssigns(Ends(inputs, logCol), 2 * Pow2(logCol), state, comps);
    table := new nat[2 * Pow2(logCol)](_ => 0);
    stash := new nat[stashSize](_ => 0);
    home := [];
    var numMarkedStashed := CountMarked(state);
    CountIsCard(state);
    if numMarkedStashed > stashSize {
      ok := false;
      return;
    }
    var stashDeficit: nat := stashSize - numMarkedStashed;
    var numStashed: nat := 0;
    FillingEnds(inputs, logCol, state, stashSize, home, table[..], stash[..0], stashDeficit);
    for e := 0 to |inputs|
      invariant numStashed <= stashSize
      invariant Filling(inputs, logCol, state, stashSize, e, home, table[..], stash[..numStashed], stashDeficit)
    {
      ghost var stash0, table0 := stash[..numStashed], table[..];
      FillingStep(inputs, logCol, state, a, stashSize, e, home, table0, stash0, stashDeficit);
      if state[e] == Stashed || stashDeficit > 0 {
        stash[numStashed] := LowU32(inputs[e]);
        assert stash[..numStashed + 1] == stash0 + [LowU32(inputs[e])];
        numStashed := numStashed + 1;
        stashDeficit := if state[e] == Stashed then stashDeficit else stashDeficit - 1;
        home := home + [None];
      } else {
        table[state[e].index] := inputs[e];
        assert table[..] == table0[state[e].index := inputs[e]];
        home := home + [Some(state[e].index)];
      }
    }
    FillingEnds(inputs, logCol, state, stashSize, home, table[..], stash[..numStashed], stashDeficit);
    ok := stashDeficit == 0;
    assert ok ==> stash[..numStashed] == stash[..];
  }

  /** The builder.  It succeeds exactly when there are at least `stashSize` inputs and some placement
      leaves no more than that out; then every input has one of its own slots or is stashed. */
  method Build(stashSize: nat, logCol: nat, inputs: seq<nat>)
    returns (ok: bool, table: array<nat>, stash: array<nat>, ghost home: seq<Option<nat>>)
    ensures fresh(table) && fresh(stash)
    ensures ok <==> stashSize <= |inputs| && Fits(inputs, logCol, stashSize)
    ensures ok ==> stash.Length == stashSize && Placement(inputs, logCol, home, table[..], stash[..])
  {
    ghost var ends, n := Ends(inputs, logCol), 2 * Pow2(logCol);
    var edges := BuildAdjacency(inputs, logCol);
    ghost var comps;
    var state;
    state, comps := Orient(ends, edges, |inputs|);
    ok, table, stash, home := Fill(stashSize, logCol, inputs, state[..], comps);
    ghost var best := OrientationAssigns(ends, n, state[..], comps);
    if Fits(inputs, logCol, stashSize) {
      ghost var a :| Assignment(ends, a) && |LeftOut(ends, a)| <= stashSize;
      Optimal(ends, n, state[..], comps, a);
    }
  }
}
