/** The depth-first search that orients the edges of a cuckoo graph, one component at a time. */
module Search {
  import opened Sets
  import opened Orientation

  /** A snapshot of the three work vectors: edge states, parent vertices, parent edges. */
  datatype Forest = Forest(state: seq<Mark>, pv: seq<Mark>, pe: seq<Mark>)

  ghost predicate Sized(ends: seq<Edge>, n: nat, f: Forest) {
    |f.state| == |ends| && |f.pv| == n && |f.pe| == n
  }

  /** The vertices with a parent entry are those of the finished and of the current component. */
  ghost predicate Seen(n: nat, f: Forest, done: set<nat>, comp: set<nat>)
    requires |f.pv| == n
  {
    && done !! comp && done <= Below(n) && comp <= Below(n)
    && forall v: nat {:trigger f.pv[v]} :: v < n ==> (f.pv[v] != Empty <==> v in done || v in comp)
  }

  /** `v` hangs by the tree edge `pe[v]` below the earlier vertex `pv[v]`, and that edge sits at `v`. */
  ghost predicate Linked(ends: seq<Edge>, n: nat, f: Forest, comp: set<nat>, rank: map<nat, nat>, v: nat)
    requires Sized(ends, n, f) && v < n
  {
    && f.pv[v].At? && f.pe[v].At? && f.pe[v].index < |ends|
    && f.pv[v].index in comp && f.pv[v].index in rank && v in rank && rank[f.pv[v].index] < rank[v]
    && ends[f.pe[v].index].Touches(v) && ends[f.pe[v].index].Other(v) == f.pv[v].index
  }

  ghost predicate Tree(ends: seq<Edge>, n: nat, f: Forest, comp: set<nat>, root: nat, rank: map<nat, nat>)
    requires Sized(ends, n, f) && comp <= Below(n)
  {
    && root in comp && f.pv[root] == Root && f.pe[root] == Root && root in rank
    && forall v {:trigger f.pv[v]} {:trigger f.pe[v]} :: v in comp && v != root ==> Linked(ends, n, f, comp, rank, v)
  }

  /** Every tree edge sits at its lower end: true until the component is reoriented. */
  ghost predicate Hanging(ends: seq<Edge>, n: nat, f: Forest, comp: set<nat>, root: nat, rank: map<nat, nat>)
    requires Sized(ends, n, f) && comp <= Below(n) && Tree(ends, n, f, comp, root, rank)
  {
    forall v {:trigger f.pv[v]} {:trigger f.pe[v]} :: v in comp && v != root ==> f.state[f.pe[v].index] == At(v)
  }

  ghost predicate Both(e: Edge, c: set<nat>) {
    e.left in c && e.right in c
  }

  ghost predicate EdgeMarked(ends: seq<Edge>, n: nat, f: Forest, done: set<nat>, comp: set<nat>, root: nat, extra: Mark, e: int)
    requires Sized(ends, n, f) && Graph(ends, n) && 0 <= e < |ends|
  {
    match f.state[e]
    case Unvisited => ends[e].left !in done && ends[e].right !in done
    case Stashed => Both(ends[e], done) || (Both(ends[e], comp) && extra.At?)
    case At(v) =>
      && ends[e].Touches(v)
      && (Both(ends[e], done) || (Both(ends[e], comp) && ((v != root && f.pe[v] == At(e)) || extra == At(e))))
    case _ => false
  }

  ghost predicate Marked(ends: seq<Edge>, n: nat, f: Forest, done: set<nat>, comp: set<nat>, root: nat, extra: Mark)
    requires Sized(ends, n, f) && Graph(ends, n)
  {
    forall e {:trigger f.state[e]} :: 0 <= e < |ends| ==> EdgeMarked(ends, n, f, done, comp, root, extra, e)
  }

  /** The extra edge is an edge of the current component outside its tree. */
  ghost predicate ExtraOk(ends: seq<Edge>, n: nat, f: Forest, comp: set<nat>, root: nat, extra: Mark)
    requires Sized(ends, n, f) && comp <= Below(n)
  {
    extra == Empty ||
    (&& extra.At? && extra.index < |ends| && f.state[extra.index].At?
     && ends[extra.index].Touches(f.state[extra.index].index) && Both(ends[extra.index], comp)
     && forall v {:trigger f.pe[v]} :: v in comp && v != root ==> f.pe[v] != extra)
  }

  /** What the search keeps while it explores the component of `root`. */
  ghost predicate Growing(ends: seq<Edge>, n: nat, f: Forest, done: set<nat>, comp: set<nat>, root: nat,
                          rank: map<nat, nat>, extra: Mark)
  {
    && Graph(ends, n) && Sized(ends, n, f) && Seen(n, f, done, comp)
    && Tree(ends, n, f, comp, root, rank) && Hanging(ends, n, f, comp, root, rank)
    && Marked(ends, n, f, done, comp, root, extra) && ExtraOk(ends, n, f, comp, root, extra)
    && rank.Keys == comp && (forall v {:trigger rank[v]} :: v in rank ==> rank[v] < |comp|)
  }

  /** No edge at a vertex of `vs` is left to visit. */
  ghost predicate Exhausted(ends: seq<Edge>, state: seq<Mark>, vs: set<nat>)
    requires |state| == |ends|
  {
    forall e {:trigger state[e]} :: 0 <= e < |ends| && (ends[e].left in vs || ends[e].right in vs) ==> state[e] != Unvisited
  }

  lemma GrowingBounds(ends: seq<Edge>, n: nat, f: Forest, done: set<nat>, comp: set<nat>, root: nat,
                      rank: map<nat, nat>, extra: Mark)
    requires Growing(ends, n, f, done, comp, root, rank, extra)
    ensures comp <= Below(n) && Sized(ends, n, f) && rank.Keys == comp
  {
  }

  lemma StartTree(ends: seq<Edge>, n: nat, f: Forest, done: set<nat>, root: nat)
    requires Graph(ends, n) && Sized(ends, n, f) && root < n && f.pv[root] == Empty
    requires Seen(n, f, done, {}) && Marked(ends, n, f, done, {}, root, Empty)
    ensures Growing(ends, n, f.(pv := f.pv[root := Root], pe := f.pe[root := Root]), done, {root}, root, map[root := 0], Empty)
  {
    var g := f.(pv := f.pv[root := Root], pe := f.pe[root := Root]);
    forall e | 0 <= e < |ends| ensures EdgeMarked(ends, n, g, done, {root}, root, Empty, e) {
      assert EdgeMarked(ends, n, f, done, {}, root, Empty, e);
    }
  }

  /** The forest after edge `e` led from `v` to a fresh vertex. */
  ghost function Hang(ends: seq<Edge>, n: nat, f: Forest, v: nat, e: nat): (g: Forest)
    requires Graph(ends, n) && Sized(ends, n, f) && e < |ends|
    ensures Sized(ends, n, g)
  {
    var w := ends[e].Other(v);
    Forest(f.state[e := At(w)], f.pv[w := At(v)], f.pe[w := At(e)])
  }

  lemma HangTree(ends: seq<Edge>, n: nat, f: Forest, done: set<nat>, comp: set<nat>, root: nat,
                 rank: map<nat, nat>, extra: Mark, v: nat, e: nat)
    requires Growing(ends, n, f, done, comp, root, rank, extra)
    requires v in comp && v in rank && e < |ends| && f.state[e] == Unvisited && ends[e].Touches(v)
    requires f.pv[ends[e].Other(v)] == Empty
    ensures var w, g := ends[e].Other(v), Hang(ends, n, f, v, e);
      && comp + {w} <= Below(n) && Tree(ends, n, g, comp + {w}, root, rank[w := |comp|])
      && Hanging(ends, n, g, comp + {w}, root, rank[w := |comp|])
  {
    var w, g := ends[e].Other(v), Hang(ends, n, f, v, e);
    forall u | u in comp + {w} && u != root
      ensures Linked(ends, n, g, comp + {w}, rank[w := |comp|], u) && g.state[g.pe[u].index] == At(u)
    {
      if u != w { assert f.pe[u].At? && Linked(ends, n, f, comp, rank, u); }
    }
  }

  lemma HangMarked(ends: seq<Edge>, n: nat, f: Forest, done: set<nat>, comp: set<nat>, root: nat,
                   rank: map<nat, nat>, extra: Mark, v: nat, e: nat)
    requires Growing(ends, n, f, done, comp, root, rank, extra)
    requires v in comp && v in rank && e < |ends| && f.state[e] == Unvisited && ends[e].Touches(v)
    requires f.pv[ends[e].Other(v)] == Empty
    ensures var w, g := ends[e].Other(v), Hang(ends, n, f, v, e);
      && w !in done && comp + {w} <= Below(n)
      && Marked(ends, n, g, done, comp + {w}, root, extra) && ExtraOk(ends, n, g, comp + {w}, root, extra)
  {
    var w, g := ends[e].Other(v), Hang(ends, n, f, v, e);
    assert EdgeMarked(ends, n, f, done, comp, root, extra, e);
    forall i | 0 <= i < |ends| ensures EdgeMarked(ends, n, g, done, comp + {w}, root, extra, i) {
      assert EdgeMarked(ends, n, f, done, comp, root, extra, i);
    }
  }

  /** Visiting an edge to a fresh vertex hangs that vertex below `v`. */
  lemma TreeStep(ends: seq<Edge>, n: nat, f: Forest, done: set<nat>, comp: set<nat>, root: nat,
                 rank: map<nat, nat>, extra: Mark, v: nat, e: nat)
    requires Growing(ends, n, f, done, comp, root, rank, extra)
    requires v in comp && v in rank && e < |ends| && f.state[e] == Unvisited && ends[e].Touches(v)
    requires f.pv[ends[e].Other(v)] == Empty
    ensures Growing(ends, n, Hang(ends, n, f, v, e), done, comp + {ends[e].Other(v)}, root,
                    rank[ends[e].Other(v) := |comp|], extra)
  {
    HangTree(ends, n, f, done, comp, root, rank, extra, v, e);
    HangMarked(ends, n, f, done, comp, root, rank, extra, v, e);
    assert |comp + {ends[e].Other(v)}| == |comp| + 1;
  }

  /** The forest after edge `e` closed a cycle at `w`: the first such edge is the extra one. */
  ghost function Close(f: Forest, e: nat, w: nat, extra: Mark): (g: Forest)
    requires e < |f.state|
    ensures |g.state| == |f.state| && g.pv == f.pv && g.pe == f.pe
  {
    f.(state := f.state[e := if extra == Empty then At(w) else Stashed])
  }

  lemma CloseTree(ends: seq<Edge>, n: nat, f: Forest, done: set<nat>, comp: set<nat>, root: nat,
                  rank: map<nat, nat>, extra: Mark, e: nat, w: nat)
    requires Growing(ends, n, f, done, comp, root, rank, extra) && e < |ends| && f.state[e] == Unvisited
    ensures comp <= Below(n) && Sized(ends, n, Close(f, e, w, extra)) && Seen(n, Close(f, e, w, extra), done, comp)
    ensures Tree(ends, n, Close(f, e, w, extra), comp, root, rank) && Hanging(ends, n, Close(f, e, w, extra), comp, root, rank)
  {
    var g := Close(f, e, w, extra);
    hide Marked, ExtraOk;
    forall u | u in comp && u != root
      ensures Linked(ends, n, g, comp, rank, u) && g.state[g.pe[u].index] == At(u)
    {
      assert f.pe[u].At? && Linked(ends, n, f, comp, rank, u);
    }
  }

  lemma CloseMarked(ends: seq<Edge>, n: nat, f: Forest, done: set<nat>, comp: set<nat>, root: nat,
                    rank: map<nat, nat>, extra: Mark, v: nat, e: nat)
    requires Growing(ends, n, f, done, comp, root, rank, extra)
    requires v in comp && e < |ends| && f.state[e] == Unvisited && ends[e].Touches(v)
    requires f.pv[ends[e].Other(v)] != Empty
    ensures var w, x := ends[e].Other(v), if extra == Empty then At(e) else extra;
      && Sized(ends, n, Close(f, e, w, extra)) && Marked(ends, n, Close(f, e, w, extra), done, comp, root, x)
  {
    var w, x := ends[e].Other(v), if extra == Empty then At(e) else extra;
    var g := Close(f, e, w, extra);
    assert EdgeMarked(ends, n, f, done, comp, root, extra, e);
    assert w in comp;
    hide Tree, Hanging, ExtraOk;
    forall i | 0 <= i < |ends| ensures EdgeMarked(ends, n, g, done, comp, root, x, i) {
      assert EdgeMarked(ends, n, f, done, comp, root, extra, i);
    }
  }

  lemma CloseExtra(ends: seq<Edge>, n: nat, f: Forest, done: set<nat>, comp: set<nat>, root: nat,
                   rank: map<nat, nat>, extra: Mark, v: nat, e: nat)
    requires Growing(ends, n, f, done, comp, root, rank, extra)
    requires v in comp && e < |ends| && f.state[e] == Unvisited && ends[e].Touches(v)
    requires f.pv[ends[e].Other(v)] != Empty
    ensures var w, x := ends[e].Other(v), if extra == Empty then At(e) else extra;
      comp <= Below(n) && Sized(ends, n, Close(f, e, w, extra)) && ExtraOk(ends, n, Close(f, e, w, extra), comp, root, x)
  {
    assert EdgeMarked(ends, n, f, done, comp, root, extra, e);
    hide Marked;
    forall u {:trigger f.pe[u]} | u in comp && u != root ensures f.pe[u] != At(e) {
      assert f.pe[u].At? && Linked(ends, n, f, comp, rank, u);
    }
  }

  /** Visiting an edge between two reached vertices: the first becomes the extra edge, later ones are stashed. */
  lemma CycleStep(ends: seq<Edge>, n: nat, f: Forest, done: set<nat>, comp: set<nat>, root: nat,
                  rank: map<nat, nat>, extra: Mark, v: nat, e: nat)
    requires Growing(ends, n, f, done, comp, root, rank, extra)
    requires v in comp && e < |ends| && f.state[e] == Unvisited && ends[e].Touches(v)
    requires f.pv[ends[e].Other(v)] != Empty
    ensures extra == Empty ==>
      Growing(ends, n, f.(state := f.state[e := At(ends[e].Other(v))]), done, comp, root, rank, At(e))
    ensures extra != Empty ==>
      Growing(ends, n, f.(state := f.state[e := Stashed]), done, comp, root, rank, extra)
  {
    var w := ends[e].Other(v);
    CloseTree(ends, n, f, done, comp, root, rank, extra, e, w);
    CloseMarked(ends, n, f, done, comp, root, rank, extra, v, e);
    CloseExtra(ends, n, f, done, comp, root, rank, extra, v, e);
    hide Tree, Hanging, Marked, ExtraOk, Seen;
  }

  /** A tree is connected: the earliest vertex of a side without the root has its parent on the other side. */
  lemma TreeConnected(ends: seq<Edge>, n: nat, f: Forest, comp: set<nat>, root: nat, rank: map<nat, nat>)
    requires Graph(ends, n) && Sized(ends, n, f) && comp <= Below(n) && Tree(ends, n, f, comp, root, rank)
    ensures Connected(ends, comp)
  {
    forall x: set<nat> | x < comp && x != {}
      ensures exists e :: Crosses(ends, x, comp, e)
    {
      var y := if root in x then comp - x else x;
      assert y != {};
      var v :| v in y;
      assert f.pv[v].At?;
      while f.pv[v].index in y
        invariant v in y && v in rank && f.pv[v].At?
        decreases rank[v]
      {
        v := f.pv[v].index;
        assert f.pv[v].At?;
      }
      assert Crosses(ends, x, comp, f.pe[v].index);
    }
  }

  // ------------------------------------------------------- reorientation

  /** Every edge of the component is stashed or sits at one of its ends. */
  ghost predicate Seated(ends: seq<Edge>, state: seq<Mark>, comp: set<nat>)
    requires |state| == |ends|
  {
    forall e {:trigger state[e]} :: Inside(ends, comp, e) ==> state[e] == Stashed || (state[e].At? && ends[e].Touches(state[e].index))
  }

  /** Two edges share a vertex only at `x`, and they are `last` and the tree edge of `x`. */
  ghost predicate OneClash(ends: seq<Edge>, n: nat, f: Forest, comp: set<nat>, root: nat, x: nat, last: nat)
    requires Sized(ends, n, f) && x < n
  {
    forall e, d {:trigger f.state[e], f.state[d]} ::
      (Inside(ends, comp, e) && Inside(ends, comp, d) && e != d && f.state[e].At? && f.state[e] == f.state[d]) ==>
        f.state[e] == At(x) && x != root && (e == last || d == last) && (f.pe[x] == At(e) || f.pe[x] == At(d))
  }

  ghost predicate TakenButRoot(ends: seq<Edge>, state: seq<Mark>, comp: set<nat>, root: nat)
    requires |state| == |ends|
  {
    forall v {:trigger Taken(ends, state, comp, v)} :: v in comp && v != root ==> Taken(ends, state, comp, v)
  }

  /** No edge sits at the root before the walk is there. */
  ghost predicate RootFree(ends: seq<Edge>, state: seq<Mark>, comp: set<nat>, root: nat, x: nat)
    requires |state| == |ends|
  {
    x != root ==> forall e {:trigger state[e]} :: Inside(ends, comp, e) ==> state[e] != At(root)
  }

  /** The tree edges still hang at the vertices no later than `x`. */
  ghost predicate HangingTo(ends: seq<Edge>, n: nat, f: Forest, comp: set<nat>, root: nat, rank: map<nat, nat>, x: nat)
    requires Sized(ends, n, f) && comp <= Below(n) && Tree(ends, n, f, comp, root, rank) && x in rank
  {
    forall v {:trigger f.pe[v]} :: v in comp && v != root && v in rank && rank[v] <= rank[x] ==> f.state[f.pe[v].index] == At(v)
  }

  /** Between two steps of the walk to the root, `x` is the one vertex with two edges, `last` and
      its tree edge; only the root has none; and at or before `x` the tree edges still hang. */
  ghost predicate Slack(ends: seq<Edge>, n: nat, f: Forest, comp: set<nat>, root: nat, rank: map<nat, nat>, x: nat, last: nat)
  {
    && Graph(ends, n) && Sized(ends, n, f) && comp <= Below(n) && Tree(ends, n, f, comp, root, rank)
    && x in comp && x in rank && Inside(ends, comp, last) && f.state[last] == At(x) && f.pe[x] != At(last)
    && Seated(ends, f.state, comp) && OneClash(ends, n, f, comp, root, x, last) && TakenButRoot(ends, f.state, comp, root)
    && RootFree(ends, f.state, comp, root, x) && HangingTo(ends, n, f, comp, root, rank, x)
  }

  /** The tree edge of `x` moves to the parent of `x`. */
  ghost function Lift(f: Forest, x: nat): (g: Forest)
    requires x < |f.pe| && x < |f.pv| && f.pe[x].At? && f.pe[x].index < |f.state|
    ensures |g.state| == |f.state| && g.pv == f.pv && g.pe == f.pe
  {
    f.(state := f.state[f.pe[x].index := f.pv[x]])
  }

  lemma SlackHere(ends: seq<Edge>, n: nat, f: Forest, comp: set<nat>, root: nat, rank: map<nat, nat>, x: nat, last: nat)
    requires Slack(ends, n, f, comp, root, rank, x, last) && x != root
    ensures x < n && Sized(ends, n, f) && Linked(ends, n, f, comp, rank, x) && Inside(ends, comp, f.pe[x].index) && f.state[f.pe[x].index] == At(x)
    ensures f.pe[x].index != last && f.pv[x].index != x
  {
    assert f.pe[x].At?;
  }

  lemma LiftTree(ends: seq<Edge>, n: nat, f: Forest, comp: set<nat>, root: nat, rank: map<nat, nat>, x: nat, last: nat)
    requires Slack(ends, n, f, comp, root, rank, x, last) && x != root
    ensures x < n && Sized(ends, n, f) && f.pe[x].At? && f.pe[x].index < |ends| && f.pv[x].At? && f.pv[x].index in rank
    ensures var g := Lift(f, x);
      comp <= Below(n) && Sized(ends, n, g) && Tree(ends, n, g, comp, root, rank) && HangingTo(ends, n, g, comp, root, rank, f.pv[x].index)
  {
    SlackHere(ends, n, f, comp, root, rank, x, last);
    var g := Lift(f, x);
    hide Seated, OneClash, TakenButRoot, RootFree;
    forall v | v in comp && v != root ensures Linked(ends, n, g, comp, rank, v) {
      assert f.pe[v].At? && Linked(ends, n, f, comp, rank, v);
    }
    forall v {:trigger g.pe[v]} | v in comp && v != root && v in rank && rank[v] <= rank[f.pv[x].index] ensures g.state[g.pe[v].index] == At(v) {
      assert f.state[f.pe[v].index] == At(v);
    }
  }

  lemma LiftSeats(ends: seq<Edge>, n: nat, f: Forest, comp: set<nat>, root: nat, rank: map<nat, nat>, x: nat, last: nat)
    requires Slack(ends, n, f, comp, root, rank, x, last) && x != root
    ensures x < n && Sized(ends, n, f) && f.pe[x].At? && f.pe[x].index < |ends| && f.pv[x].At? && f.pv[x].index < n
    ensures var g, u, e := Lift(f, x), f.pv[x].index, f.pe[x].index;
      Seated(ends, g.state, comp) && RootFree(ends, g.state, comp, root, u) && OneClash(ends, n, g, comp, root, u, e)
  {
    SlackHere(ends, n, f, comp, root, rank, x, last);
    var g, u, e := Lift(f, x), f.pv[x].index, f.pe[x].index;
    hide TakenButRoot;
    forall h, d {:trigger g.state[h], g.state[d]} | Inside(ends, comp, h) && Inside(ends, comp, d) && h != d && g.state[h].At? && g.state[h] == g.state[d]
      ensures g.state[h] == At(u) && u != root && (h == e || d == e) && (g.pe[u] == At(h) || g.pe[u] == At(d))
    {
      LiftPair(ends, n, f, comp, root, rank, x, last, h, d);
    }
  }

  lemma LiftPair(ends: seq<Edge>, n: nat, f: Forest, comp: set<nat>, root: nat, rank: map<nat, nat>, x: nat, last: nat, h: nat, d: nat)
    requires Slack(ends, n, f, comp, root, rank, x, last) && x != root
    requires x < n && Sized(ends, n, f) && f.pe[x].At? && f.pe[x].index < |ends| && f.pv[x].At? && f.pv[x].index < n
    requires Inside(ends, comp, h) && Inside(ends, comp, d) && h != d && Lift(f, x).state[h].At? && Lift(f, x).state[h] == Lift(f, x).state[d]
    ensures var g, u, e := Lift(f, x), f.pv[x].index, f.pe[x].index;
      g.state[h] == At(u) && u != root && (h == e || d == e) && (g.pe[u] == At(h) || g.pe[u] == At(d))
  {
    SlackHere(ends, n, f, comp, root, rank, x, last);
    var g, u, e := Lift(f, x), f.pv[x].index, f.pe[x].index;
    if u != root {
      assert f.pe[u].At? && Linked(ends, n, f, comp, rank, u) && f.state[f.pe[u].index] == At(u);
    }
    hide TakenButRoot, Tree;
    var a, b := f.state[h], f.state[d];
    assert h != e && d != e ==> a == b;
    var o := if h == e then d else h;
    assert f.state[o] == At(u);
    assert u != root && f.pe[u].index != o ==> f.state[o] == f.state[f.pe[u].index];
  }

  lemma LiftTaken(ends: seq<Edge>, n: nat, f: Forest, comp: set<nat>, root: nat, rank: map<nat, nat>, x: nat, last: nat)
    requires Slack(ends, n, f, comp, root, rank, x, last) && x != root
    ensures x < n && Sized(ends, n, f) && f.pe[x].At? && f.pe[x].index < |ends|
    ensures TakenButRoot(ends, Lift(f, x).state, comp, root)
  {
    SlackHere(ends, n, f, comp, root, rank, x, last);
    var g := Lift(f, x);
    hide Seated, OneClash, RootFree, HangingTo, Tree;
    forall v | v in comp && v != root ensures Taken(ends, g.state, comp, v) {
      assert Taken(ends, f.state, comp, v);
      if v == x {
        assert g.state[last] == At(x);
      } else {
        var h :| Inside(ends, comp, h) && f.state[h] == At(v);
        assert g.state[h] == At(v);
      }
    }
  }

  lemma SlackStep(ends: seq<Edge>, n: nat, f: Forest, comp: set<nat>, root: nat, rank: map<nat, nat>, x: nat, last: nat)
    requires Slack(ends, n, f, comp, root, rank, x, last) && x != root
    ensures f.pe[x].At? && f.pe[x].index < |ends| && f.pv[x].At? && f.pv[x].index in rank && rank[f.pv[x].index] < rank[x]
    ensures Inside(ends, comp, f.pe[x].index)
    ensures Slack(ends, n, f.(state := f.state[f.pe[x].index := f.pv[x]]), comp, root, rank, f.pv[x].index, f.pe[x].index)
  {
    SlackHere(ends, n, f, comp, root, rank, x, last);
    LiftTree(ends, n, f, comp, root, rank, x, last);
    LiftSeats(ends, n, f, comp, root, rank, x, last);
    LiftTaken(ends, n, f, comp, root, rank, x, last);
    LiftMoves(ends, n, f, comp, root, rank, x, last);
    hide Seated, OneClash, RootFree, HangingTo, Tree, TakenButRoot;
  }

  lemma LiftMoves(ends: seq<Edge>, n: nat, f: Forest, comp: set<nat>, root: nat, rank: map<nat, nat>, x: nat, last: nat)
    requires Slack(ends, n, f, comp, root, rank, x, last) && x != root
    ensures x < n && Sized(ends, n, f) && f.pe[x].At? && f.pe[x].index < |ends| && f.pv[x].At? && f.pv[x].index < n
    ensures f.pe[f.pv[x].index] != f.pe[x]
  {
    SlackHere(ends, n, f, comp, root, rank, x, last);
    var u := f.pv[x].index;
    hide Seated, OneClash, RootFree, TakenButRoot;
    if u != root { assert f.pe[u].At? && Linked(ends, n, f, comp, rank, u) && f.state[f.pe[u].index] == At(u); }
  }

  lemma SlackDone(ends: seq<Edge>, n: nat, f: Forest, comp: set<nat>, root: nat, rank: map<nat, nat>, last: nat)
    requires Slack(ends, n, f, comp, root, rank, root, last)
    ensures Settled(ends, f.state, comp)
  {
    hide Tree, HangingTo;
    forall v | v in comp ensures Taken(ends, f.state, comp, v) {
      if v == root { assert f.state[last] == At(root); }
    }
  }

  lemma ExploredEdge(ends: seq<Edge>, n: nat, f: Forest, done: set<nat>, comp: set<nat>, root: nat,
                     rank: map<nat, nat>, extra: Mark, e: nat)
    requires Growing(ends, n, f, done, comp, root, rank, extra) && Exhausted(ends, f.state, comp) && e < |ends|
    ensures ends[e].left in comp <==> ends[e].right in comp
    ensures Inside(ends, comp, e) ==>
      (f.state[e] == Stashed && extra.At?)
      || (f.state[e].At? && ends[e].Touches(f.state[e].index)
          && ((f.state[e].index != root && f.pe[f.state[e].index] == At(e)) || extra == At(e)))
  {
    assert EdgeMarked(ends, n, f, done, comp, root, extra, e);
  }

  lemma ExploredPair(ends: seq<Edge>, n: nat, f: Forest, done: set<nat>, comp: set<nat>, root: nat,
                     rank: map<nat, nat>, extra: Mark, e: nat, d: nat)
    requires Growing(ends, n, f, done, comp, root, rank, extra) && Exhausted(ends, f.state, comp)
    requires Inside(ends, comp, e) && Inside(ends, comp, d) && e != d && f.state[e].At? && f.state[e] == f.state[d]
    ensures extra.At? && (e == extra.index || d == extra.index)
    ensures f.state[e].index != root && (f.pe[f.state[e].index] == At(e) || f.pe[f.state[e].index] == At(d))
  {
    ExploredEdge(ends, n, f, done, comp, root, rank, extra, e);
    ExploredEdge(ends, n, f, done, comp, root, rank, extra, d);
  }

  /** When the search of a component ends nothing leaves it. */
  lemma ExploredClosed(ends: seq<Edge>, n: nat, f: Forest, done: set<nat>, comp: set<nat>, root: nat,
                       rank: map<nat, nat>, extra: Mark)
    requires Growing(ends, n, f, done, comp, root, rank, extra) && Exhausted(ends, f.state, comp)
    ensures Closed(ends, comp)
  {
    forall e | 0 <= e < |ends| ensures ends[e].left in comp <==> ends[e].right in comp {
      ExploredEdge(ends, n, f, done, comp, root, rank, extra, e);
    }
  }

  /** Without an extra edge the component is a tree and every edge of it is placed. */
  lemma ExploredTree(ends: seq<Edge>, n: nat, f: Forest, done: set<nat>, comp: set<nat>, root: nat, rank: map<nat, nat>)
    requires Growing(ends, n, f, done, comp, root, rank, Empty) && Exhausted(ends, f.state, comp)
    ensures Settled(ends, f.state, comp)
  {
    forall e | Inside(ends, comp, e) ensures f.state[e].At? && ends[e].Touches(f.state[e].index) {
      ExploredEdge(ends, n, f, done, comp, root, rank, Empty, e);
    }
    forall e, d | Inside(ends, comp, e) && Inside(ends, comp, d) && f.state[e].At? && f.state[e] == f.state[d]
      ensures e == d
    {
      if e != d { ExploredPair(ends, n, f, done, comp, root, rank, Empty, e, d); }
    }
  }

  /** With an extra edge the walk to the root can start at the vertex where that edge sits. */
  lemma ExploredCycle(ends: seq<Edge>, n: nat, f: Forest, done: set<nat>, comp: set<nat>, root: nat,
                      rank: map<nat, nat>, extra: Mark)
    requires Growing(ends, n, f, done, comp, root, rank, extra) && Exhausted(ends, f.state, comp) && extra.At?
    ensures f.state[extra.index].At? && f.state[extra.index].index in comp && f.state[extra.index].index in rank
    ensures Slack(ends, n, f, comp, root, rank, f.state[extra.index].index, extra.index)
  {
    ExploredExtra(ends, n, f, done, comp, root, rank, extra);
    ExploredTaken(ends, n, f, done, comp, root, rank, extra);
    GrowingBounds(ends, n, f, done, comp, root, rank, extra);
    var x := f.state[extra.index].index;
    hide Growing, Exhausted, Tree, TakenButRoot;
    forall e {:trigger f.state[e]} | Inside(ends, comp, e)
      ensures f.state[e] == Stashed || (f.state[e].At? && ends[e].Touches(f.state[e].index))
      ensures x != root ==> f.state[e] != At(root)
    {
      ExploredEdge(ends, n, f, done, comp, root, rank, extra, e);
    }
    forall e, d {:trigger f.state[e], f.state[d]} | Inside(ends, comp, e) && Inside(ends, comp, d) && e != d && f.state[e].At? && f.state[e] == f.state[d]
      ensures f.state[e] == At(x) && x != root && (e == extra.index || d == extra.index)
      ensures f.pe[x] == At(e) || f.pe[x] == At(d)
    {
      ExploredPair(ends, n, f, done, comp, root, rank, extra, e, d);
    }
    assert Seated(ends, f.state, comp) && RootFree(ends, f.state, comp, root, x) && OneClash(ends, n, f, comp, root, x, extra.index);
  }

  lemma ExploredExtra(ends: seq<Edge>, n: nat, f: Forest, done: set<nat>, comp: set<nat>, root: nat,
                      rank: map<nat, nat>, extra: Mark)
    requires Growing(ends, n, f, done, comp, root, rank, extra) && extra.At?
    ensures Graph(ends, n) && Sized(ends, n, f) && comp <= Below(n) && Tree(ends, n, f, comp, root, rank)
    ensures Inside(ends, comp, extra.index) && f.state[extra.index].At?
    ensures var x := f.state[extra.index].index;
      x in comp && x in rank && x < n && f.pe[x] != extra && HangingTo(ends, n, f, comp, root, rank, x)
  {
    hide Marked;
  }

  lemma ExploredTaken(ends: seq<Edge>, n: nat, f: Forest, done: set<nat>, comp: set<nat>, root: nat,
                      rank: map<nat, nat>, extra: Mark)
    requires Growing(ends, n, f, done, comp, root, rank, extra)
    ensures |f.state| == |ends| && TakenButRoot(ends, f.state, comp, root)
  {
    hide Marked, ExtraOk;
    forall v | v in comp && v != root ensures Taken(ends, f.state, comp, v) {
      assert f.pe[v].At? && Linked(ends, n, f, comp, rank, v);
      assert Inside(ends, comp, f.pe[v].index);
    }
  }
}
