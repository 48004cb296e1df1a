/** What the forest holds: how often each pid and which parent-child edges occur. */
module ForestCoverage {
  import opened Types
  import opened Collector
  import opened Forest

  // ----- any history: nodes are link paths -----

  /** The number of nodes of `t` reached by following the pids of `w` from its root. */
  function NodesAlong(t: TreeNode, w: seq<U32>): nat
    decreases |w|, 0, 0
  {
    if w == [] || w[0] != t.pid then 0
    else if |w| == 1 then 1
    else NodesAlongAll(t.children, w[1..])
  }

  function NodesAlongAll(ts: seq<TreeNode>, w: seq<U32>): nat
    decreases |w|, 1, |ts|
  {
    if ts == [] then 0 else NodesAlong(ts[0], w) + NodesAlongAll(ts[1..], w)
  }

  /** The number of ways to follow the pids of `w` along entries of the link list. */
  function LinkPaths(links: Links, w: seq<U32>): nat {
    if |w| <= 1 then 1 else multiset(links)[(w[0], w[1])] * LinkPaths(links, w[1..])
  }

  function SumWhere(ps: seq<U32>, p: U32, m: nat): nat {
    if ps == [] then 0 else (if ps[0] == p then m else 0) + SumWhere(ps[1..], p, m)
  }

  lemma OneMore(k: nat, m: nat)
    ensures (k + 1) * m == k * m + m
  {
  }

  lemma {:induction false} SumIsProduct(ps: seq<U32>, p: U32, m: nat)
    ensures SumWhere(ps, p, m) == multiset(ps)[p] * m
  {
    if ps != [] {
      var k := multiset(ps[1..])[p];
      SumIsProduct(ps[1..], p, m);
      assert multiset(ps)[p] == k + if ps[0] == p then 1 else 0 by {
        assert ps == [ps[0]] + ps[1..];
      }
      OneMore(k, m);
    }
  }

  lemma SumAtMostOnce(ps: seq<U32>, p: U32, m: nat)
    requires multiset(ps)[p] <= 1
    ensures SumWhere(ps, p, m) == if p in ps then m else 0
  {
    SumIsProduct(ps, p, m);
    if multiset(ps)[p] == 0 {
      assert p !in ps;
    } else {
      assert p in multiset(ps);
    }
  }

  /** Below one node, each walk has a node for every link path along it. */
  lemma {:induction false} NodeHasEveryPath(p: U32, procs: Procs, links: Links, depth: nat, w: seq<U32>)
    requires Ends(p, ChildrenMap(links), depth) && w != []
    ensures NodesAlong(BuildNode(p, procs, ChildrenMap(links), depth), w)
         == if w[0] == p then LinkPaths(links, w) else 0
    decreases |w|, 0, 0
  {
    if w[0] == p && |w| > 1 {
      var kids := Kids(ChildrenMap(links), p);
      KidsHaveEveryPath(kids, procs, links, depth - 1, w[1..]);
      assert BuildNode(p, procs, ChildrenMap(links), depth).children
             == BuildNodes(kids, procs, ChildrenMap(links), depth - 1);
      KidsAreLinks(links, p);
      ChildrenAreLinks(links, p, w[1]);
      SumIsProduct(kids, w[1], LinkPaths(links, w[1..]));
    }
  }

  lemma {:induction false} KidsHaveEveryPath(ps: seq<U32>, procs: Procs, links: Links, depth: nat, w: seq<U32>)
    requires AllEnd(ps, ChildrenMap(links), depth) && w != []
    ensures NodesAlongAll(BuildNodes(ps, procs, ChildrenMap(links), depth), w)
         == SumWhere(ps, w[0], LinkPaths(links, w))
    decreases |w|, 1, |ps|
  {
    if ps != [] {
      var ts := BuildNodes(ps, procs, ChildrenMap(links), depth);
      assert ts[1..] == BuildNodes(ps[1..], procs, ChildrenMap(links), depth);
      NodeHasEveryPath(ps[0], procs, links, depth, w);
      KidsHaveEveryPath(ps[1..], procs, links, depth, w);
    }
  }

  lemma {:induction false} RootsOnce(procs: Procs, order: seq<U32>, p: U32)
    requires forall i, j | 0 <= i < j < |order| :: order[i] != order[j]
    ensures multiset(RootsIn(procs, order))[p] == if p in order && IsRoot(procs, p) then 1 else 0
  {
    if order != [] {
      var n := |order| - 1;
      RootsOnce(procs, order[..n], p);
      assert order == order[..n] + [order[n]];
      var before := RootsIn(procs, order[..n]);
      assert IsRoot(procs, order[n]) ==> multiset(before + [order[n]]) == multiset(before) + multiset([order[n]]);
    }
  }

  /** Whatever the history: if the forest is built, each walk from a root occurs once for every link path along it,
      and no other walk occurs. With repeated registrations a pid therefore occurs once per root-to-pid link path. */
  lemma ForestIsLinkPaths(h: seq<Action>, order: seq<U32>, w: seq<U32>)
    requires Enumerates(order, Run(h).procs) && w != []
    requires ForestOf(Run(h).procs, Run(h).childLinks, order).Some?
    ensures var s := Run(h);
            NodesAlongAll(ForestOf(s.procs, s.childLinks, order).value, w)
            == if IsRoot(s.procs, w[0]) then LinkPaths(s.childLinks, w) else 0
  {
    var s := Run(h);
    var roots, m := RootsIn(s.procs, order), LinkPaths(s.childLinks, w);
    KidsHaveEveryPath(roots, s.procs, s.childLinks, |s.procs|, w);
    RootsOnce(s.procs, order, w[0]);
    SumAtMostOnce(roots, w[0], m);
    RootsAreRoots(s.procs, order);
  }

  /** The shape of a node: the process's name, and one child for each of its links, in link order. */
  ghost predicate Faithful(t: TreeNode, procs: Procs, links: Links, depth: nat)
    decreases depth
  {
    depth > 0
    && t.name == NameOf(procs, t.pid)
    && |t.children| == |ChildrenOf(links, t.pid)|
    && forall i | 0 <= i < |t.children| ::
         t.children[i].pid == ChildrenOf(links, t.pid)[i] && Faithful(t.children[i], procs, links, depth - 1)
  }

  lemma {:induction false} NodesFaithful(p: U32, procs: Procs, links: Links, depth: nat)
    requires Ends(p, ChildrenMap(links), depth)
    ensures Faithful(BuildNode(p, procs, ChildrenMap(links), depth), procs, links, depth)
    decreases depth
  {
    KidsAreLinks(links, p);
    var kids := Kids(ChildrenMap(links), p);
    forall i | 0 <= i < |kids|
      ensures Faithful(BuildNode(kids[i], procs, ChildrenMap(links), depth - 1), procs, links, depth - 1)
    {
      NodesFaithful(kids[i], procs, links, depth - 1);
    }
  }

  // ----- each pid registered once -----

  ghost predicate IsWalkTo(links: Links, p: U32, q: U32, w: seq<U32>) {
    IsWalk(links, w) && w[0] == p && w[|w| - 1] == q
  }

  ghost predicate Reaches(links: Links, p: U32, q: U32) {
    exists w :: IsWalkTo(links, p, q, w)
  }

  /** A process reaches another iff it is the other or a child of it does. */
  lemma ReachesByKid(links: Links, p: U32, q: U32)
    ensures Reaches(links, p, q) <==> p == q || exists c :: c in ChildrenOf(links, p) && Reaches(links, c, q)
  {
    KidsAreLinks(links, p);
    assert IsWalkTo(links, p, p, [p]);
    if w :| IsWalkTo(links, p, q, w) {
      if |w| > 1 {
        WalkParts(links, w, 1);
        assert IsWalkTo(links, w[1], q, w[1..]) && Reaches(links, w[1], q);
      }
    }
    if c :| c in ChildrenOf(links, p) && Reaches(links, c, q) {
      var v :| IsWalkTo(links, c, q, v);
      WalkJoin(links, [p], v);
      assert IsWalkTo(links, p, q, [p] + v);
    }
  }

  /** Walks with the same end agree as far back as the shorter one goes: every process has one parent. */
  lemma {:induction false} SameEndSameTail(s: State, w: seq<U32>, v: seq<U32>)
    requires LinksAreParents(s) && IsWalk(s.childLinks, w) && IsWalk(s.childLinks, v)
    requires |w| <= |v| && w[|w| - 1] == v[|v| - 1]
    ensures w == v[|v| - |w|..]
  {
    if |w| == 1 {
      assert v[|v| - 1..] == [v[|v| - 1]];
    } else {
      WalkParts(s.childLinks, w, |w| - 1);
      WalkParts(s.childLinks, v, |v| - 1);
      SameEndSameTail(s, w[..|w| - 1], v[..|v| - 1]);
      assert w == w[..|w| - 1] + [w[|w| - 1]];
      assert v[|v| - |w|..] == v[..|v| - 1][|v| - |w|..] + [v[|v| - 1]];
    }
  }

  /** Of two processes that reach the same one, one reaches the parent of the other, unless they are equal. */
  lemma TwoReach(s: State, p: U32, c: U32, q: U32) returns (swapped: bool)
    requires LinksAreParents(s) && p != c && Reaches(s.childLinks, p, q) && Reaches(s.childLinks, c, q)
    ensures var (a, b) := if swapped then (c, p) else (p, c);
            b in s.procs && Reaches(s.childLinks, a, s.procs[b].parentId)
            && (s.procs[b].parentId, b) in s.childLinks
  {
    var w :| IsWalkTo(s.childLinks, p, q, w);
    var v :| IsWalkTo(s.childLinks, c, q, v);
    swapped := |w| <= |v|;
    var short, long := if swapped then w else v, if swapped then v else w;
    SameEndSameTail(s, short, long);
    var k := |long| - |short|;
    assert short[0] == long[k];
    WalkParts(s.childLinks, long, k);
    assert IsWalkTo(s.childLinks, long[0], long[k - 1], long[..k]);
  }

  function Occurrences(t: TreeNode, q: U32): nat
    decreases t, 0
  {
    (if t.pid == q then 1 else 0) + OccurrencesAll(t.children, q)
  }

  function OccurrencesAll(ts: seq<TreeNode>, q: U32): nat
    decreases ts
  {
    if ts == [] then 0 else Occurrences(ts[0], q) + OccurrencesAll(ts[1..], q)
  }

  /** Subtrees of which at most one holds `q`, and that one once, hold it once together. */
  lemma {:induction false} OnceTogether(ts: seq<TreeNode>, q: U32, holds: seq<bool>)
    requires |ts| == |holds|
    requires forall i | 0 <= i < |ts| :: Occurrences(ts[i], q) == if holds[i] then 1 else 0
    requires forall i, j | 0 <= i < j < |ts| :: !(holds[i] && holds[j])
    ensures OccurrencesAll(ts, q) == if true in holds then 1 else 0
  {
    if ts != [] {
      OnceTogether(ts[1..], q, holds[1..]);
      assert true in holds <==> holds[0] || true in holds[1..];
    }
  }

  lemma TwiceIn(ps: seq<U32>, i: nat, j: nat)
    requires i < j < |ps| && ps[i] == ps[j]
    ensures multiset(ps)[ps[j]] >= 2
  {
    assert ps == ps[..j] + [ps[j]] + ps[j + 1..] && ps[..j][i] == ps[j];
  }

  lemma {:induction false} LinkOnce(links: Links, l: (U32, U32))
    requires forall i, j | 0 <= i < j < |links| :: links[i].1 != links[j].1
    ensures multiset(links)[l] <= 1
  {
    if links != [] {
      var n := |links| - 1;
      LinkOnce(links[..n], l);
      assert links == links[..n] + [links[n]];
      assert links[n] == l ==> l !in multiset(links[..n]);
    }
  }

  lemma SiblingsDiffer(s: State, p: U32, i: nat, j: nat)
    requires LinksAreParents(s) && i < j < |ChildrenOf(s.childLinks, p)|
    ensures ChildrenOf(s.childLinks, p)[i] != ChildrenOf(s.childLinks, p)[j]
  {
    var kids := ChildrenOf(s.childLinks, p);
    var c := kids[j];
    if kids[i] == c {
      TwiceIn(kids, i, j);
      ChildrenAreLinks(s.childLinks, p, c);
      LinkOnce(s.childLinks, (p, c));
    }
  }

  /** A child that reaches its parent makes the unfolding endless. */
  lemma KidComesBack(links: Links, p: U32, c: U32, depth: nat)
    requires (p, c) in links && Reaches(links, c, p)
    ensures !Ends(p, ChildrenMap(links), depth)
  {
    var w :| IsWalkTo(links, c, p, w);
    WalkJoin(links, [p], w);
    var v := [p] + w;
    assert Cyclic(links, p, v, 0, |v| - 1);
    CycleNeverEnds(links, p, depth);
  }

  lemma SiblingsExclude(s: State, p: U32, c: U32, d: U32, q: U32, depth: nat)
    requires LinksAreParents(s) && Ends(p, ChildrenMap(s.childLinks), depth)
    requires (p, c) in s.childLinks && (p, d) in s.childLinks && c != d
    ensures !(Reaches(s.childLinks, c, q) && Reaches(s.childLinks, d, q))
  {
    if Reaches(s.childLinks, c, q) && Reaches(s.childLinks, d, q) {
      var swapped := TwoReach(s, c, d, q);
      KidComesBack(s.childLinks, p, if swapped then d else c, depth);
    }
  }

  /** Below one node whose unfolding ends, each process it reaches occurs once and no other occurs. */
  lemma {:induction false} OccursIffReached(s: State, p: U32, q: U32, depth: nat)
    requires LinksAreParents(s) && Ends(p, ChildrenMap(s.childLinks), depth)
    ensures Occurrences(BuildNode(p, s.procs, ChildrenMap(s.childLinks), depth), q)
            == if Reaches(s.childLinks, p, q) then 1 else 0
    decreases depth
  {
    var links, kids := s.childLinks, ChildrenOf(s.childLinks, p);
    KidsAreLinks(links, p);
    var holds := seq(|kids|, i requires 0 <= i < |kids| => Reaches(links, kids[i], q));
    var ts := BuildNode(p, s.procs, ChildrenMap(links), depth).children;
    forall i | 0 <= i < |kids| ensures Occurrences(ts[i], q) == if holds[i] then 1 else 0 {
      OccursIffReached(s, kids[i], q, depth - 1);
    }
    forall i, j | 0 <= i < j < |kids| ensures !(holds[i] && holds[j]) {
      SiblingsDiffer(s, p, i, j);
      assert kids[i] in kids && kids[j] in kids;
      SiblingsExclude(s, p, kids[i], kids[j], q, depth);
    }
    OnceTogether(ts, q, holds);
    ReachesByKid(links, p, q);
    assert true in holds <==> exists c :: c in kids && Reaches(links, c, q) by {
      if c :| c in kids && Reaches(links, c, q) {
        var i :| 0 <= i < |kids| && kids[i] == c;
        assert holds[i];
      }
      if true in holds {
        var i :| 0 <= i < |kids| && holds[i];
        assert kids[i] in kids;
      }
    }
    if p == q && true in holds {
      var i :| 0 <= i < |kids| && holds[i];
      assert kids[i] in kids;
      KidComesBack(links, p, kids[i], depth);
    }
  }

  /** The chain of parent ids from `q` is at a root after `n` steps. */
  ghost predicate ChainToRoot(procs: Procs, q: U32, n: nat)
    decreases n
  {
    q in procs && (IsRoot(procs, q) || (n > 0 && ChainToRoot(procs, procs[q].parentId, n - 1)))
  }

  ghost predicate UnderRoot(procs: Procs, q: U32) {
    exists n :: ChainToRoot(procs, q, n)
  }

  lemma {:induction false} ChainIsWalk(s: State, q: U32, n: nat) returns (r: U32)
    requires LinksCover(s) && ChainToRoot(s.procs, q, n)
    ensures IsRoot(s.procs, r) && Reaches(s.childLinks, r, q)
    decreases n
  {
    if IsRoot(s.procs, q) {
      assert IsWalkTo(s.childLinks, q, q, [q]);
      return q;
    }
    var a := s.procs[q].parentId;
    r := ChainIsWalk(s, a, n - 1);
    var w :| IsWalkTo(s.childLinks, r, a, w);
    assert (a, q) in s.childLinks;
    WalkJoin(s.childLinks, w, [q]);
    assert IsWalkTo(s.childLinks, r, q, w + [q]);
  }

  lemma {:induction false} WalkIsChain(s: State, r: U32, w: seq<U32>)
    requires LinksAreParents(s) && IsRoot(s.procs, r) && IsWalk(s.childLinks, w) && w[0] == r
    ensures ChainToRoot(s.procs, w[|w| - 1], |w| - 1)
  {
    var n := |w| - 1;
    if n > 0 {
      WalkParts(s.childLinks, w, n);
      WalkIsChain(s, r, w[..n]);
    }
  }

  /** A process is under a root, by its chain of parents, iff a root reaches it along the links. */
  lemma UnderRootIffReached(s: State, q: U32)
    requires LinksAreParents(s)
    ensures UnderRoot(s.procs, q) <==> exists r :: IsRoot(s.procs, r) && Reaches(s.childLinks, r, q)
  {
    if n: nat :| ChainToRoot(s.procs, q, n) {
      var r := ChainIsWalk(s, q, n);
    }
    if r :| IsRoot(s.procs, r) && Reaches(s.childLinks, r, q) {
      var w :| IsWalkTo(s.childLinks, r, q, w);
      WalkIsChain(s, r, w);
    }
  }

  /** No root reaches the parent of a root, as that parent would be known. */
  lemma RootsExclude(s: State, p: U32, r: U32, q: U32)
    requires LinksAreParents(s) && IsRoot(s.procs, p) && IsRoot(s.procs, r) && p != r
    ensures !(Reaches(s.childLinks, p, q) && Reaches(s.childLinks, r, q))
  {
    if Reaches(s.childLinks, p, q) && Reaches(s.childLinks, r, q) {
      var swapped := TwoReach(s, p, r, q);
      var (a, b) := if swapped then (r, p) else (p, r);
      var w :| IsWalkTo(s.childLinks, a, s.procs[b].parentId, w);
      assert w[|w| - 1] in w;
      WalkStaysKnown(s, w);
    }
  }

  /** A root reaches no cycle when every process has one parent: the cycle would have to lead back to the root. */
  lemma NoCycleFromRoot(s: State, r: U32)
    requires LinksAreParents(s) && IsRoot(s.procs, r)
    ensures !CycleFrom(s.childLinks, r)
  {
    if w, i: nat, j: nat :| Cyclic(s.childLinks, r, w, i, j) {
      if i + 1 < |w| {
        WalkParts(s.childLinks, w, i + 1);
      }
      if j + 1 < |w| {
        WalkParts(s.childLinks, w, j + 1);
      }
      assert w[..|w|] == w;
      SameEndSameTail(s, w[..i + 1], w[..j + 1]);
      assert w[j - i] == r;
      WalkParts(s.childLinks, w, j - i);
      assert w[j - i - 1] in w;
      WalkStaysKnown(s, w);
    }
  }

  lemma BuiltWhenOnce(h: seq<Action>, order: seq<U32>)
    requires RegistersOnce(h) && Enumerates(order, Run(h).procs)
    ensures ForestOf(Run(h).procs, Run(h).childLinks, order).Some?
  {
    OnceGivesParents(h);
    if r :| IsRoot(Run(h).procs, r) && CycleFrom(Run(h).childLinks, r) {
      NoCycleFromRoot(Run(h), r);
    }
    EndsIffNoReachableCycle(h, order, 0);
  }

  lemma RootsDiffer(procs: Procs, order: seq<U32>, i: nat, j: nat)
    requires forall k, l | 0 <= k < l < |order| :: order[k] != order[l]
    requires i < j < |RootsIn(procs, order)|
    ensures RootsIn(procs, order)[i] != RootsIn(procs, order)[j]
  {
    var roots := RootsIn(procs, order);
    var r := roots[j];
    if roots[i] == r {
      TwiceIn(roots, i, j);
      RootsOnce(procs, order, r);
    }
  }

  /** For every history that registers each pid at most once, in any order and with any parents, and every map order:
      the forest is built, and each pid occurs in it once if its chain of parents reaches a root, else not at all. */
  lemma ForestCoversOnce(h: seq<Action>, order: seq<U32>, q: U32)
    requires RegistersOnce(h) && Enumerates(order, Run(h).procs)
    ensures var s := Run(h);
            var f := ForestOf(s.procs, s.childLinks, order);
            f.Some? && OccurrencesAll(f.value, q) == if UnderRoot(s.procs, q) then 1 else 0
  {
    OnceGivesParents(h);
    var s := Run(h);
    BuiltWhenOnce(h, order);
    var roots, f := RootsIn(s.procs, order), ForestOf(s.procs, s.childLinks, order).value;
    RootsAreRoots(s.procs, order);
    var holds := seq(|roots|, i requires 0 <= i < |roots| => Reaches(s.childLinks, roots[i], q));
    forall i | 0 <= i < |roots| ensures Occurrences(f[i], q) == if holds[i] then 1 else 0 {
      OccursIffReached(s, roots[i], q, |s.procs|);
    }
    forall i, j | 0 <= i < j < |roots| ensures !(holds[i] && holds[j]) {
      assert roots[i] in roots && roots[j] in roots;
      RootsDiffer(s.procs, order, i, j);
      RootsExclude(s, roots[i], roots[j], q);
    }
    OnceTogether(f, q, holds);
    UnderRootIffReached(s, q);
    if r :| IsRoot(s.procs, r) && Reaches(s.childLinks, r, q) {
      assert r in roots;
      var i :| 0 <= i < |roots| && roots[i] == r;
      assert holds[i];
    }
    if true in holds {
      var i :| 0 <= i < |roots| && holds[i];
      assert roots[i] in roots;
    }
  }

  /** Some node for `a` has a child for `b`. */
  ghost predicate HasEdge(t: TreeNode, a: U32, b: U32)
    decreases t
  {
    exists i :: 0 <= i < |t.children| && ((t.pid == a && t.children[i].pid == b) || HasEdge(t.children[i], a, b))
  }

  /** A node's children are the nodes of the process's children. */
  lemma NodeShape(p: U32, procs: Procs, links: Links, depth: nat)
    requires Ends(p, ChildrenMap(links), depth)
    ensures var kids, t := ChildrenOf(links, p), BuildNode(p, procs, ChildrenMap(links), depth);
            && t.pid == p && |t.children| == |kids|
            && forall i | 0 <= i < |kids| ::
                 Ends(kids[i], ChildrenMap(links), depth - 1)
                 && t.children[i] == BuildNode(kids[i], procs, ChildrenMap(links), depth - 1)
                 && t.children[i].pid == kids[i]
  {
    KidsAreLinks(links, p);
  }

  lemma {:induction false} EdgesAreReachedLinks(p: U32, procs: Procs, links: Links, depth: nat, a: U32, b: U32)
    requires Ends(p, ChildrenMap(links), depth)
    ensures HasEdge(BuildNode(p, procs, ChildrenMap(links), depth), a, b)
            <==> Reaches(links, p, a) && (a, b) in links
    decreases depth
  {
    KidsAreLinks(links, p);
    ReachesByKid(links, p, a);
    var kids, t := ChildrenOf(links, p), BuildNode(p, procs, ChildrenMap(links), depth);
    NodeShape(p, procs, links, depth);
    forall i | 0 <= i < |kids|
      ensures HasEdge(t.children[i], a, b) <==> Reaches(links, kids[i], a) && (a, b) in links
    {
      EdgesAreReachedLinks(kids[i], procs, links, depth - 1, a, b);
    }
    if c :| c in kids && Reaches(links, c, a) {
      var i :| 0 <= i < |kids| && kids[i] == c;
      assert HasEdge(t.children[i], a, b) <==> (a, b) in links;
    }
    if p == a && b in kids {
      var i :| 0 <= i < |kids| && kids[i] == b;
      assert t.children[i].pid == b;
    }
    if i :| 0 <= i < |t.children| && ((t.pid == a && t.children[i].pid == b) || HasEdge(t.children[i], a, b)) {
      assert kids[i] in kids && t.children[i].pid == kids[i];
    }
  }

  lemma ChildUnderRoot(s: State, a: U32, b: U32)
    requires LinksAreParents(s) && UnderRoot(s.procs, a) && (a, b) in s.childLinks
    ensures UnderRoot(s.procs, b) && !IsRoot(s.procs, b) && s.procs[b].parentId == a
  {
    var n: nat :| ChainToRoot(s.procs, a, n);
    assert ChainToRoot(s.procs, b, n + 1);
  }

  /** The edges of the forest are the parent relation of the processes in it: `a` has a child `b` iff `b` is under a
      root, is no root itself, and has parent `a`. */
  lemma EdgesAreParents(h: seq<Action>, order: seq<U32>, a: U32, b: U32)
    requires RegistersOnce(h) && Enumerates(order, Run(h).procs)
    requires ForestOf(Run(h).procs, Run(h).childLinks, order).Some?
    ensures var s := Run(h);
            (exists t :: t in ForestOf(s.procs, s.childLinks, order).value && HasEdge(t, a, b))
            <==> UnderRoot(s.procs, b) && !IsRoot(s.procs, b) && s.procs[b].parentId == a
  {
    OnceGivesParents(h);
    var s := Run(h);
    var roots, f := RootsIn(s.procs, order), ForestOf(s.procs, s.childLinks, order).value;
    RootsAreRoots(s.procs, order);
    forall i | 0 <= i < |roots|
      ensures HasEdge(f[i], a, b) <==> Reaches(s.childLinks, roots[i], a) && (a, b) in s.childLinks
    {
      EdgesAreReachedLinks(roots[i], s.procs, s.childLinks, |s.procs|, a, b);
    }
    UnderRootIffReached(s, a);
    if t :| t in f && HasEdge(t, a, b) {
      var i :| 0 <= i < |roots| && f[i] == t;
      assert roots[i] in roots;
      ChildUnderRoot(s, a, b);
    }
    if n: nat :| ChainToRoot(s.procs, b, n) && !IsRoot(s.procs, b) && s.procs[b].parentId == a {
      assert ChainToRoot(s.procs, a, n - 1);
      var r :| IsRoot(s.procs, r) && Reaches(s.childLinks, r, a);
      var i :| 0 <= i < |roots| && roots[i] == r;
      assert f[i] in f;
    }
  }
}
