/** Finite directed graphs over service names: an edge a -> b says that a depends on b.
    The target of an edge need not be a node itself, because a soft dependency may name a
    service that is not registered. */
module Digraph {
  type Graph = map<string, set<string>>

  predicate Edge(g: Graph, a: string, b: string) {
    a in g && b in g[a]
  }

  ghost predicate Path(g: Graph, p: seq<string>) {
    forall i {:trigger p[i]} :: 0 <= i < |p| - 1 ==> Edge(g, p[i], p[i + 1])
  }

  ghost predicate Connects(g: Graph, p: seq<string>, a: string, b: string) {
    |p| >= 2 && p[0] == a && p[|p| - 1] == b && Path(g, p)
  }

  /** b can be reached from a over at least one edge. */
  ghost predicate Reaches(g: Graph, a: string, b: string) {
    exists p :: Connects(g, p, a, b)
  }

  ghost predicate Acyclic(g: Graph) {
    forall a :: !Reaches(g, a, a)
  }

  ghost predicate Subgraph(g: Graph, h: Graph) {
    forall a, b :: Edge(g, a, b) ==> Edge(h, a, b)
  }

  predicate Distinct<T(==)>(p: seq<T>) {
    forall i, j :: 0 <= i < j < |p| ==> p[i] != p[j]
  }

  lemma SubgraphReaches(g: Graph, h: Graph, a: string, b: string)
    requires Subgraph(g, h) && Reaches(g, a, b)
    ensures Reaches(h, a, b)
  {
    var p :| Connects(g, p, a, b);
    assert Connects(h, p, a, b);
  }

  /** Deleting edges or nodes never creates a cycle. */
  lemma SubgraphAcyclic(g: Graph, h: Graph)
    requires Subgraph(g, h) && Acyclic(h)
    ensures Acyclic(g)
  {
    forall a ensures !Reaches(g, a, a) {
      if Reaches(g, a, a) { SubgraphReaches(g, h, a, a); }
    }
  }

  lemma EdgeReaches(g: Graph, a: string, b: string)
    requires Edge(g, a, b)
    ensures Reaches(g, a, b)
  {
    assert Connects(g, [a, b], a, b);
  }

  lemma PathJoin(g: Graph, p: seq<string>, q: seq<string>)
    requires |p| > 0 && |q| > 0 && Path(g, p) && Path(g, q) && p[|p| - 1] == q[0]
    ensures Path(g, p + q[1..])
  {
    var r := p + q[1..];
    forall i | 0 <= i < |r| - 1 ensures Edge(g, r[i], r[i + 1]) {
      if i < |p| - 1 {
        assert Edge(g, p[i], p[i + 1]);
      } else {
        assert Edge(g, q[i + 1 - |p|], q[i + 2 - |p|]);
        assert r[i] == q[i + 1 - |p|];
      }
    }
  }

  lemma ReachesTrans(g: Graph, a: string, b: string, c: string)
    requires Reaches(g, a, b) && Reaches(g, b, c)
    ensures Reaches(g, a, c)
  {
    var p :| Connects(g, p, a, b);
    var q :| Connects(g, q, b, c);
    PathJoin(g, p, q);
    assert Connects(g, p + q[1..], a, c);
  }

  lemma SliceReaches(g: Graph, p: seq<string>, i: nat, j: nat)
    requires Path(g, p) && i < j < |p|
    ensures Reaches(g, p[i], p[j])
  {
    var q := p[i..j + 1];
    forall k | 0 <= k < |q| - 1 ensures Edge(g, q[k], q[k + 1]) {
      assert Edge(g, p[i + k], p[i + k + 1]);
    }
    assert Connects(g, q, p[i], p[j]);
  }

  /** A rank that falls along every edge excludes cycles. */
  lemma RankAcyclic(g: Graph, rank: map<string, int>)
    requires forall a, b :: Edge(g, a, b) ==> a in rank && b in rank && rank[b] < rank[a]
    ensures Acyclic(g)
  {
    forall a ensures !Reaches(g, a, a) {
      if p :| Connects(g, p, a, a) {
        RankFalls(g, rank, p, |p| - 1);
      }
    }
  }

  lemma {:induction false} RankFalls(g: Graph, rank: map<string, int>, p: seq<string>, k: nat)
    requires forall a, b :: Edge(g, a, b) ==> a in rank && b in rank && rank[b] < rank[a]
    requires Path(g, p) && 1 <= k < |p|
    ensures p[0] in rank && p[k] in rank && rank[p[k]] < rank[p[0]]
  {
    assert Edge(g, p[k - 1], p[k]);
    if k > 1 { RankFalls(g, rank, p, k - 1); }
  }

  /** If every walk out of a stays in a set that has no edge into target, target is out of reach. */
  lemma ClosedExcludes(g: Graph, closed: set<string>, a: string, target: string)
    requires a in closed
    requires forall u, v :: u in closed && Edge(g, u, v) ==> v != target && (v in g ==> v in closed)
    ensures !Reaches(g, a, target)
  {
    if p :| Connects(g, p, a, target) {
      WalkStaysClosed(g, closed, p, |p| - 2, target);
    }
  }

  lemma {:induction false} WalkStaysClosed(g: Graph, closed: set<string>, p: seq<string>, k: nat, target: string)
    requires Path(g, p) && k + 1 < |p| && p[0] in closed
    requires forall u, v :: u in closed && Edge(g, u, v) ==> v != target && (v in g ==> v in closed)
    ensures p[k] in closed && p[k + 1] != target
  {
    assert Edge(g, p[k], p[k + 1]);
    if k > 0 {
      WalkStaysClosed(g, closed, p, k - 1, target);
      assert Edge(g, p[k - 1], p[k]);
    }
  }

  ghost predicate NoSink(g: Graph, s: set<string>) {
    forall a :: a in s ==> HasSuccessor(g, s, a)
  }

  ghost predicate HasSuccessor(g: Graph, s: set<string>, a: string) {
    exists b :: b in s && Edge(g, a, b)
  }

  /** Pigeonhole: a finite nonempty set in which every node has a successor holds a cycle. */
  lemma NoSinkCycle(g: Graph, s: set<string>)
    requires s != {} && NoSink(g, s)
    ensures exists a :: a in s && Reaches(g, a, a)
  {
    var a :| a in s;
    GrowWalk(g, s, [a]);
  }

  lemma PickSuccessor(g: Graph, s: set<string>, a: string) returns (b: string)
    requires NoSink(g, s) && a in s
    ensures b in s && Edge(g, a, b)
  {
    assert HasSuccessor(g, s, a);
    b :| b in s && Edge(g, a, b);
  }

  lemma {:induction false} GrowWalk(g: Graph, s: set<string>, p: seq<string>)
    requires |p| > 0 && Path(g, p) && Distinct(p) && NoSink(g, s)
    requires forall i :: 0 <= i < |p| ==> p[i] in s
    ensures exists a :: a in s && Reaches(g, a, a)
    decreases |s| - |p|
  {
    DistinctFits(p, s);
    var last := p[|p| - 1];
    var b := PickSuccessor(g, s, last);
    if k :| 0 <= k < |p| && p[k] == b {
      CloseWalk(g, p, k);
    } else {
      var q := p + [b];
      DistinctFits(q, s);
      ExtendWalk(g, p, b);
      GrowWalk(g, s, q);
    }
  }

  lemma CloseWalk(g: Graph, p: seq<string>, k: nat)
    requires k < |p| && Path(g, p) && Edge(g, p[|p| - 1], p[k])
    ensures Reaches(g, p[k], p[k])
  {
    EdgeReaches(g, p[|p| - 1], p[k]);
    if k < |p| - 1 {
      SliceReaches(g, p, k, |p| - 1);
      ReachesTrans(g, p[k], p[|p| - 1], p[k]);
    }
  }

  lemma ExtendWalk(g: Graph, p: seq<string>, b: string)
    requires Path(g, p) && (|p| > 0 ==> Edge(g, p[|p| - 1], b))
    ensures Path(g, p + [b])
  {
    var q := p + [b];
    forall i | 0 <= i < |q| - 1 ensures Edge(g, q[i], q[i + 1]) {
      if i < |p| - 1 { assert Edge(g, p[i], p[i + 1]); }
    }
  }

  lemma {:induction false} DistinctFits<T>(p: seq<T>, s: set<T>)
    requires Distinct(p)
    requires forall i :: 0 <= i < |p| ==> p[i] in s
    ensures |p| <= |s|
  {
    if |p| > 0 {
      var x := p[|p| - 1];
      DistinctFits(p[..|p| - 1], s - {x});
    }
  }

  /** Adding node n with the given dependencies keeps an acyclic graph acyclic exactly when n is
      not among its own dependencies and no dependency already reaches n. Edges of other nodes
      that dangled until n existed count as well. */
  lemma InsertAcyclic(g: Graph, n: string, deps: set<string>)
    requires Acyclic(g) && n !in g
    ensures Acyclic(g[n := deps]) <==> n !in deps && forall d :: d in deps ==> !Reaches(g, d, n)
  {
    var h := g[n := deps];
    assert Subgraph(g, h);
    if d :| d in deps && (d == n || Reaches(g, d, n)) {
      assert Edge(h, n, d);
      EdgeReaches(h, n, d);
      if d != n {
        SubgraphReaches(g, h, d, n);
        ReachesTrans(h, n, d, n);
      }
    } else {
      forall a ensures !Reaches(h, a, a) {
        if p :| Connects(h, p, a, a) { CycleThroughNew(g, n, deps, p); }
      }
    }
  }

  lemma CycleThroughNew(g: Graph, n: string, deps: set<string>, p: seq<string>)
    requires Acyclic(g) && n !in g && n !in deps
    requires |p| > 0 && Connects(g[n := deps], p, p[0], p[0])
    ensures exists d :: d in deps && Reaches(g, d, n)
  {
    var h := g[n := deps];
    if i :| 0 <= i < |p| - 1 && p[i] == n {
      // Rotate the cycle so that it starts at n, then cut it at the first return to n.
      var r := RotateCycle(h, p, i);
      FirstReturn(g, n, deps, r, 1);
    } else {
      forall k | 0 <= k < |p| - 1 ensures Edge(g, p[k], p[k + 1]) {
        assert Edge(h, p[k], p[k + 1]);
      }
      assert Connects(g, p, p[0], p[0]);
      assert Reaches(g, p[0], p[0]);
    }
  }

  lemma SlicePath(g: Graph, p: seq<string>, i: nat, j: nat)
    requires Path(g, p) && i <= j <= |p|
    ensures Path(g, p[i..j])
  {
    forall k | 0 <= k < j - i - 1 ensures Edge(g, p[i..j][k], p[i..j][k + 1]) {
      assert Edge(g, p[i + k], p[i + k + 1]);
    }
  }

  lemma RotateCycle(g: Graph, p: seq<string>, i: nat) returns (r: seq<string>)
    requires i < |p| - 1 && Connects(g, p, p[0], p[0])
    ensures Connects(g, r, p[i], p[i])
  {
    SlicePath(g, p, i, |p|);
    SlicePath(g, p, 0, i + 1);
    PathJoin(g, p[i..], p[..i + 1]);
    r := p[i..] + p[..i + 1][1..];
    assert p[0..i + 1] == p[..i + 1] && p[i..|p|] == p[i..];
  }

  lemma {:induction false} FirstReturn(g: Graph, n: string, deps: set<string>, r: seq<string>, j: nat)
    requires n !in deps && Connects(g[n := deps], r, n, n)
    requires 1 <= j < |r| && forall k :: 1 <= k < j ==> r[k] != n
    ensures exists d :: d in deps && Reaches(g, d, n)
    decreases |r| - j
  {
    var h := g[n := deps];
    assert Edge(h, r[0], r[1]);
    if r[j] == n {
      var q := r[1..j + 1];
      forall k | 0 <= k < |q| - 1 ensures Edge(g, q[k], q[k + 1]) {
        assert Edge(h, r[k + 1], r[k + 2]);
      }
      assert Connects(g, q, r[1], n);
    } else {
      FirstReturn(g, n, deps, r, j + 1);
    }
  }
}
