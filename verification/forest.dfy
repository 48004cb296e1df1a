/** The process tree of a report: unfolding the parent-child links from the root processes. */
module Forest {
  import opened Types
  import opened Collector

  datatype TreeNode = TreeNode(pid: U32, name: string, children: seq<TreeNode>)

  type Children = map<U32, seq<U32>>

  // ----- the code -----

  function ChildrenOf(links: Links, p: U32): seq<U32> {
    if links == [] then []
    else
      var last := links[|links| - 1];
      var before := ChildrenOf(links[..|links| - 1], p);
      if last.0 == p then before + [last.1] else before
  }

  function Parents(links: Links): set<U32> {
    set l | l in links :: l.0
  }

  /** The children of every pid that occurs as a parent, in link order. */
  function ChildrenMap(links: Links): Children {
    map p | p in Parents(links) :: ChildrenOf(links, p)
  }

  function Kids(children: Children, p: U32): seq<U32> {
    if p in children then children[p] else []
  }

  lemma {:induction false} NoLinkNoChildren(links: Links, p: U32)
    ensures p !in Parents(links) ==> ChildrenOf(links, p) == []
  {
    if links != [] {
      var n := |links| - 1;
      NoLinkNoChildren(links[..n], p);
      assert links[n] in links && forall l | l in links[..n] :: l in links;
    }
  }

  lemma ChildrenStep(links: Links, l: (U32, U32))
    ensures ChildrenMap(links + [l]) == ChildrenMap(links)[l.0 := Kids(ChildrenMap(links), l.0) + [l.1]]
  {
    assert (links + [l])[..|links|] == links;
    assert Parents(links + [l]) == Parents(links) + {l.0};
    NoLinkNoChildren(links, l.0);
  }

  method IndexChildren(links: Links) returns (m: Children)
    ensures m == ChildrenMap(links)
  {
    m := map[];
    for i := 0 to |links|
      invariant m == ChildrenMap(links[..i])
    {
      assert links[..i + 1] == links[..i] + [links[i]];
      ChildrenStep(links[..i], links[i]);
      m := m[links[i].0 := Kids(m, links[i].0) + [links[i].1]];
    }
    assert links[..|links|] == links;
  }

  function NameOf(procs: Procs, p: U32): string {
    if p in procs then procs[p].processName else ""
  }

  /** The recursion from `p` goes no deeper than `depth`. */
  predicate Ends(p: U32, children: Children, depth: nat)
    decreases depth
  {
    depth > 0 && forall i | 0 <= i < |Kids(children, p)| :: Ends(Kids(children, p)[i], children, depth - 1)
  }

  /** `build_node`. The program's recursion has no bound: it runs forever when it ends within no depth at all. */
  function BuildNode(p: U32, procs: Procs, children: Children, depth: nat): (t: TreeNode)
    requires Ends(p, children, depth)
    decreases depth
  {
    var kids := Kids(children, p);
    TreeNode(p, NameOf(procs, p),
             seq(|kids|, i requires 0 <= i < |kids| => BuildNode(kids[i], procs, children, depth - 1)))
  }

  predicate IsRoot(procs: Procs, p: U32) {
    p in procs && (procs[p].parentId == 0 || procs[p].parentId !in procs)
  }

  /** `order` is one of the orders a hash map may hand out its keys in. */
  ghost predicate Enumerates(order: seq<U32>, procs: Procs) {
    && (forall p :: p in order <==> p in procs)
    && (forall i, j | 0 <= i < j < |order| :: order[i] != order[j])
  }

  function RootsIn(procs: Procs, order: seq<U32>): seq<U32> {
    if order == [] then []
    else
      var last := order[|order| - 1];
      RootsIn(procs, order[..|order| - 1]) + if IsRoot(procs, last) then [last] else []
  }

  predicate AllEnd(ps: seq<U32>, children: Children, depth: nat) {
    forall i | 0 <= i < |ps| :: Ends(ps[i], children, depth)
  }

  function BuildNodes(ps: seq<U32>, procs: Procs, children: Children, depth: nat): seq<TreeNode>
    requires AllEnd(ps, children, depth)
  {
    seq(|ps|, i requires 0 <= i < |ps| => BuildNode(ps[i], procs, children, depth))
  }

  /** The forest of a collector for the map order `order`; `None` is the run that never ends. */
  function ForestOf(procs: Procs, links: Links, order: seq<U32>): Option<seq<TreeNode>> {
    var roots, children := RootsIn(procs, order), ChildrenMap(links);
    if AllEnd(roots, children, |procs|) then Some(BuildNodes(roots, procs, children, |procs|)) else None
  }

  /** `build_tree`. */
  method BuildTree(procs: Procs, links: Links, order: seq<U32>) returns (r: Option<seq<TreeNode>>)
    ensures r == ForestOf(procs, links, order)
  {
    var children := IndexChildren(links);
    var roots := [];
    for i := 0 to |order|
      invariant roots == RootsIn(procs, order[..i])
    {
      assert order[..i + 1][..i] == order[..i];
      if IsRoot(procs, order[i]) {
        roots := roots + [order[i]];
      }
    }
    assert order[..|order|] == order;
    if !AllEnd(roots, children, |procs|) {
      return None;
    }
    return Some(BuildNodes(roots, procs, children, |procs|));
  }

  lemma {:induction false} RootsAreRoots(procs: Procs, order: seq<U32>)
    ensures forall p :: p in RootsIn(procs, order) <==> p in order && IsRoot(procs, p)
  {
    if order != [] {
      var n := |order| - 1;
      RootsAreRoots(procs, order[..n]);
      assert order == order[..n] + [order[n]];
    }
  }

  // ----- walks along the links -----

  ghost predicate Linked(links: Links, w: seq<U32>, i: nat) {
    i + 1 < |w| && (w[i], w[i + 1]) in links
  }

  ghost predicate IsWalk(links: Links, w: seq<U32>) {
    |w| > 0 && forall i: nat | i + 1 < |w| :: Linked(links, w, i)
  }

  ghost predicate WalkOfLength(links: Links, p: U32, w: seq<U32>, n: nat) {
    IsWalk(links, w) && w[0] == p && |w| == n
  }

  /** A walk from `p` that comes back to a pid it has been at. */
  ghost predicate Cyclic(links: Links, p: U32, w: seq<U32>, i: nat, j: nat) {
    IsWalk(links, w) && w[0] == p && i < j < |w| && w[i] == w[j]
  }

  lemma WalkParts(links: Links, w: seq<U32>, k: nat)
    requires IsWalk(links, w) && 0 < k < |w|
    ensures IsWalk(links, w[..k]) && IsWalk(links, w[k..])
    ensures (w[k - 1], w[k]) in links
  {
    assert Linked(links, w, k - 1);
    forall i: nat | i + 1 < k ensures Linked(links, w[..k], i) {
      assert Linked(links, w, i);
    }
    forall i: nat | i + 1 < |w| - k ensures Linked(links, w[k..], i) {
      assert Linked(links, w, k + i);
    }
  }

  lemma WalkJoin(links: Links, v: seq<U32>, w: seq<U32>)
    requires IsWalk(links, v) && IsWalk(links, w) && (v[|v| - 1], w[0]) in links
    ensures IsWalk(links, v + w)
  {
    forall i: nat | i + 1 < |v + w| ensures Linked(links, v + w, i) {
      if i + 1 < |v| {
        assert Linked(links, v, i);
      } else if i >= |v| {
        assert Linked(links, w, i - |v|);
      }
    }
  }

  /** A child is listed once for every link that names it. */
  lemma {:induction false} ChildrenAreLinks(links: Links, p: U32, q: U32)
    ensures multiset(ChildrenOf(links, p))[q] == multiset(links)[(p, q)]
  {
    if links != [] {
      var n := |links| - 1;
      var front, last := links[..n], links[n];
      ChildrenAreLinks(front, p, q);
      assert links == front + [last];
      assert multiset(links) == multiset(front) + multiset([last]);
      assert last.0 == p ==> multiset(ChildrenOf(links, p)) == multiset(ChildrenOf(front, p)) + multiset([last.1]);
    }
  }

  lemma KidsAreLinks(links: Links, p: U32)
    ensures Kids(ChildrenMap(links), p) == ChildrenOf(links, p)
    ensures forall q :: q in Kids(ChildrenMap(links), p) <==> (p, q) in links
  {
    NoLinkNoChildren(links, p);
    var kids := Kids(ChildrenMap(links), p);
    forall q ensures q in kids <==> (p, q) in links {
      ChildrenAreLinks(links, p, q);
      assert q in kids <==> multiset(kids)[q] > 0;
      assert (p, q) in links <==> multiset(links)[(p, q)] > 0;
    }
  }

  // ----- when the unfolding ends -----

  lemma {:induction false} LongWalkIsDeep(links: Links, p: U32, w: seq<U32>, depth: nat)
    requires WalkOfLength(links, p, w, depth + 1)
    ensures !Ends(p, ChildrenMap(links), depth)
    decreases depth
  {
    if depth > 0 {
      WalkParts(links, w, 1);
      LongWalkIsDeep(links, w[1], w[1..], depth - 1);
      KidsAreLinks(links, p);
      assert w[1] in Kids(ChildrenMap(links), p);
    }
  }

  lemma {:induction false} DeepHasLongWalk(links: Links, p: U32, depth: nat) returns (w: seq<U32>)
    requires !Ends(p, ChildrenMap(links), depth)
    ensures WalkOfLength(links, p, w, depth + 1)
    decreases depth
  {
    w := [p];
    if depth > 0 {
      var kids := Kids(ChildrenMap(links), p);
      var i :| 0 <= i < |kids| && !Ends(kids[i], ChildrenMap(links), depth - 1);
      var v := DeepHasLongWalk(links, kids[i], depth - 1);
      KidsAreLinks(links, p);
      WalkJoin(links, [p], v);
      w := [p] + v;
    }
  }

  /** A walk that repeats a pid can be pumped to any length. */
  lemma {:induction false} Pump(links: Links, p: U32, w: seq<U32>, i: nat, j: nat, n: nat) returns (v: seq<U32>)
    requires Cyclic(links, p, w, i, j) && 0 < n
    ensures WalkOfLength(links, p, v, n)
    decreases n - |w|
  {
    if n < |w| {
      WalkParts(links, w, n);
      return w[..n];
    } else if n == |w| {
      return w;
    }
    var head, tail := w[..j + 1], w[i + 1..];
    WalkParts(links, w, i + 1);
    if j + 1 < |w| {
      WalkParts(links, w, j + 1);
    } else {
      assert head == w;
    }
    WalkJoin(links, head, tail);
    v := Pump(links, p, head + tail, i, j, n);
  }

  lemma {:induction false} Pigeonhole(w: seq<U32>, pool: set<U32>) returns (i: nat, j: nat)
    requires |w| > |pool| && forall p | p in w :: p in pool
    ensures i < j < |w| && w[i] == w[j]
  {
    var n := |w| - 1;
    if k :| 0 <= k < n && w[k] == w[n] {
      return k, n;
    }
    assert w[n] in w;
    assert forall p | p in w[..n] :: p in w;
    i, j := Pigeonhole(w[..n], pool - {w[n]});
  }

  lemma {:induction false} WalkStaysKnown(s: State, w: seq<U32>)
    requires LinksCover(s) && IsWalk(s.childLinks, w) && w[0] in s.procs
    ensures forall p | p in w :: p in s.procs
  {
    var n := |w| - 1;
    if n > 0 {
      WalkParts(s.childLinks, w, n);
      WalkStaysKnown(s, w[..n]);
      assert w == w[..n] + [w[n]];
    }
  }

  ghost predicate CycleFrom(links: Links, p: U32) {
    exists w, i, j :: Cyclic(links, p, w, i, j)
  }

  lemma CycleNeverEnds(links: Links, p: U32, depth: nat)
    requires CycleFrom(links, p)
    ensures !Ends(p, ChildrenMap(links), depth)
  {
    var w, i, j :| Cyclic(links, p, w, i, j);
    var v := Pump(links, p, w, i, j, depth + 1);
    LongWalkIsDeep(links, p, v, depth);
  }

  lemma NoCycleEnds(s: State, p: U32)
    requires LinksCover(s) && p in s.procs && !CycleFrom(s.childLinks, p)
    ensures Ends(p, ChildrenMap(s.childLinks), |s.procs|)
  {
    if !Ends(p, ChildrenMap(s.childLinks), |s.procs|) {
      var w := DeepHasLongWalk(s.childLinks, p, |s.procs|);
      WalkStaysKnown(s, w);
      var i, j := Pigeonhole(w, s.procs.Keys);
      assert Cyclic(s.childLinks, p, w, i, j);
    }
  }

  /** Some root reaches a link cycle. */
  ghost predicate CycleReachable(s: State) {
    exists r :: IsRoot(s.procs, r) && CycleFrom(s.childLinks, r)
  }

  /** For every history of uses, repeated registrations included, and every map order: the unfolding of the roots
      ends iff no link cycle is reachable from a root; then a depth of the number of processes is enough, and
      otherwise no depth is. */
  lemma EndsIffNoReachableCycle(h: seq<Action>, order: seq<U32>, depth: nat)
    requires Enumerates(order, Run(h).procs)
    ensures var s := Run(h);
            (ForestOf(s.procs, s.childLinks, order).Some? <==> !CycleReachable(s))
            && (AllEnd(RootsIn(s.procs, order), ChildrenMap(s.childLinks), depth) ==> !CycleReachable(s))
  {
    Reachable(h);
    var s := Run(h);
    RootsAreRoots(s.procs, order);
    if CycleReachable(s) {
      var r :| IsRoot(s.procs, r) && CycleFrom(s.childLinks, r);
      CycleNeverEnds(s.childLinks, r, depth);
      CycleNeverEnds(s.childLinks, r, |s.procs|);
      assert r in RootsIn(s.procs, order);
    } else {
      var roots := RootsIn(s.procs, order);
      forall i | 0 <= i < |roots| ensures Ends(roots[i], ChildrenMap(s.childLinks), |s.procs|) {
        assert roots[i] in roots;
        NoCycleEnds(s, roots[i]);
      }
    }
  }

  /** The levels of a tree. */
  ghost predicate AtMostDeep(t: TreeNode, d: nat)
    decreases d
  {
    d > 0 && forall c | c in t.children :: AtMostDeep(c, d - 1)
  }

  /** A built tree is no deeper than its bound: with the bound above, than the number of processes. */
  lemma {:induction false} DepthBound(p: U32, procs: Procs, children: Children, depth: nat)
    requires Ends(p, children, depth)
    ensures AtMostDeep(BuildNode(p, procs, children, depth), depth)
    decreases depth
  {
    var kids, t := Kids(children, p), BuildNode(p, procs, children, depth);
    forall c | c in t.children ensures AtMostDeep(c, depth - 1) {
      var i :| 0 <= i < |kids| && t.children[i] == c;
      DepthBound(kids[i], procs, children, depth - 1);
    }
  }

  /** Any other depth at which the recursion ends gives the same tree. */
  lemma {:induction false} DepthIrrelevant(p: U32, procs: Procs, children: Children, d: nat, e: nat)
    requires Ends(p, children, d) && Ends(p, children, e)
    ensures BuildNode(p, procs, children, e) == BuildNode(p, procs, children, d)
    decreases d
  {
    var kids := Kids(children, p);
    forall i | 0 <= i < |kids|
      ensures BuildNode(kids[i], procs, children, e - 1) == BuildNode(kids[i], procs, children, d - 1)
    {
      DepthIrrelevant(kids[i], procs, children, d - 1, e - 1);
    }
    assert BuildNode(p, procs, children, e).children == BuildNode(p, procs, children, d).children;
  }

  /** Registering 1 under 0, 2 under 1, then 1 again under 2 makes a reachable cycle: the tree is never built. */
  lemma RepeatedRegistrationCycle()
    ensures var s := Run([Register(1, 0, "a"), Register(2, 1, "b"), Register(1, 2, "a")]);
            Enumerates([1, 2], s.procs) && CycleReachable(s) && ForestOf(s.procs, s.childLinks, [1, 2]).None?
  {
    var h1: seq<Action> := [Register(1, 0, "a")];
    var h2 := h1 + [Register(2, 1, "b")];
    var h := h2 + [Register(1, 2, "a")];
    assert h == [Register(1, 0, "a"), Register(2, 1, "b"), Register(1, 2, "a")];
    assert h[..2] == h2 && h2[..1] == h1 && h1[..0] == [];
    var s1, s2, s := Run(h1), Run(h2), Run(h);
    assert s1 == After(EMPTY, h1[0]) && s2 == After(s1, h2[1]) && s == After(s2, h[2]);
    assert s.childLinks == [(1, 2), (2, 1)] && s.procs.Keys == {1, 2};
    var w := [1, 2, 1];
    assert (w[0], w[1]) == s.childLinks[0] && (w[1], w[2]) == s.childLinks[1];
    assert Cyclic(s.childLinks, 1, w, 0, 2) && IsRoot(s.procs, 1);
    EndsIffNoReachableCycle(h, [1, 2], 0);
  }
}
