/** The report of an analysis: the process list in first-seen order, and the process tree. */
module Report {
  import opened Types
  import opened BsonLog
  import opened Collector
  import opened Forest
  import opened ForestCoverage

  datatype Argument = Argument(name: string, value: string)

  datatype CallEntry = CallEntry(
    api: string,
    category: string,
    status: string,
    returnValue: I64,
    threadId: U32,
    time: I32,
    arguments: seq<Argument>)

  datatype ProcessEntry = ProcessEntry(
    processId: U32,
    parentId: U32,
    processName: string,
    threads: seq<U32>,
    calls: seq<CallEntry>)

  // ----- threads: the iteration order of an ordered set -----

  ghost predicate StrictlyAscending(s: seq<int>) {
    forall i, j | 0 <= i < j < |s| :: s[i] < s[j]
  }

  lemma {:induction false} LeastExists(s: set<U32>) returns (m: U32)
    requires s != {}
    ensures m in s && forall x | x in s :: m <= x
  {
    var a :| a in s;
    if s == {a} {
      return a;
    }
    assert s == (s - {a}) + {a};
    var k := LeastExists(s - {a});
    m := if k < a then k else a;
  }

  function Least(s: set<U32>): (m: U32)
    requires s != {}
    ensures m in s && forall x | x in s :: m <= x
  {
    assert exists m :: m in s && forall x | x in s :: m <= x by { var k := LeastExists(s); }
    var m :| m in s && forall x | x in s :: m <= x;
    m
  }

  /** The elements of a `BTreeSet` as its iterator yields them. */
  function Ascending(s: set<U32>): (r: seq<U32>)
    ensures StrictlyAscending(r) && forall x :: x in r <==> x in s
  {
    if s == {} then [] else [Least(s)] + Ascending(s - {Least(s)})
  }

  // ----- entries -----

  function EntryOfCall(c: ApiCall): CallEntry {
    CallEntry(c.api, c.category, c.status, c.returnValue, c.threadId, c.time,
              seq(|c.arguments|, k requires 0 <= k < |c.arguments| => Argument(c.arguments[k].0, c.arguments[k].1)))
  }

  function EntryOf(p: ProcInfo): ProcessEntry {
    ProcessEntry(p.pid, p.parentId, p.processName, Ascending(p.threadIds),
                 seq(|p.calls|, k requires 0 <= k < |p.calls| => EntryOfCall(p.calls[k])))
  }

  // ----- sorting by first-seen order -----

  ghost predicate Sorted(ps: seq<ProcInfo>) {
    forall i, j | 0 <= i < j < |ps| :: ps[i].firstSeenOrder <= ps[j].firstSeenOrder
  }

  function Place(ps: seq<ProcInfo>, p: ProcInfo): (k: nat)
    ensures k <= |ps|
    ensures forall i | k <= i < |ps| :: p.firstSeenOrder < ps[i].firstSeenOrder
    ensures k > 0 ==> ps[k - 1].firstSeenOrder <= p.firstSeenOrder
  {
    if ps == [] || ps[|ps| - 1].firstSeenOrder <= p.firstSeenOrder then |ps| else Place(ps[..|ps| - 1], p)
  }

  lemma InsertSorted(ps: seq<ProcInfo>, p: ProcInfo)
    requires Sorted(ps)
    ensures Sorted(ps[..Place(ps, p)] + [p] + ps[Place(ps, p)..])
  {
    var k := Place(ps, p);
    var more := ps[..k] + [p] + ps[k..];
    forall i, j | 0 <= i < j < |more| ensures more[i].firstSeenOrder <= more[j].firstSeenOrder {
      if i < k {
        assert more[i] == ps[i] && ps[i].firstSeenOrder <= ps[k - 1].firstSeenOrder;
      }
      if j > k {
        assert more[j] == ps[j - 1];
      }
      if i > k {
        assert more[i] == ps[i - 1];
      }
    }
  }

  lemma InsertPermutes(ps: seq<ProcInfo>, p: ProcInfo, k: nat)
    requires k <= |ps|
    ensures multiset(ps[..k] + [p] + ps[k..]) == multiset(ps) + multiset([p])
  {
    assert ps == ps[..k] + ps[k..];
  }

  /** `sort_by_key` on the first-seen order: stable insertion. */
  method SortByFirstSeen(ps: seq<ProcInfo>) returns (sorted: seq<ProcInfo>)
    ensures Sorted(sorted) && multiset(sorted) == multiset(ps)
  {
    sorted := [];
    for i := 0 to |ps|
      invariant Sorted(sorted) && multiset(sorted) == multiset(ps[..i])
    {
      assert ps[..i + 1] == ps[..i] + [ps[i]];
      InsertSorted(sorted, ps[i]);
      InsertPermutes(sorted, ps[i], Place(sorted, ps[i]));
      var k := Place(sorted, ps[i]);
      sorted := sorted[..k] + [ps[i]] + sorted[k..];
    }
    assert ps[..|ps|] == ps;
  }

  /** The infos of a table in some map order. */
  function Infos(procs: Procs, order: seq<U32>): seq<ProcInfo>
    requires forall p | p in order :: p in procs
  {
    seq(|order|, i requires 0 <= i < |order| => assert order[i] in order; procs[order[i]])
  }

  lemma {:induction false} AscendingFills(ns: seq<nat>, n: nat)
    requires StrictlyAscending(ns) && |ns| == n && forall i | 0 <= i < n :: ns[i] < n
    ensures forall i | 0 <= i < n :: ns[i] == i
  {
    if n > 0 {
      var front := ns[..n - 1];
      assert forall i | 0 <= i < n - 1 :: front[i] < ns[n - 1];
      AscendingFills(front, n - 1);
      assert forall i | 0 <= i < n - 1 :: ns[i] == front[i] == i;
      assert n > 1 ==> ns[n - 2] < ns[n - 1];
      assert ns[n - 1] == n - 1;
    }
  }

  function Members(s: seq<U32>): set<U32> {
    set p | p in s
  }

  lemma {:induction false} DistinctCount(s: seq<U32>)
    requires forall i, j | 0 <= i < j < |s| :: s[i] != s[j]
    ensures |Members(s)| == |s|
  {
    if s != [] {
      var n := |s| - 1;
      var front := s[..n];
      DistinctCount(front);
      assert s == front + [s[n]];
      assert Members(s) == Members(front) + {s[n]};
      assert s[n] !in Members(front);
    }
  }

  lemma DistinctSize(order: seq<U32>, procs: Procs)
    requires Enumerates(order, procs)
    ensures |order| == |procs|
  {
    DistinctCount(order);
    assert Members(order) == procs.Keys;
  }

  lemma SortedTwice(s: seq<ProcInfo>, i: nat, j: nat)
    requires i < j < |s| && s[i] == s[j]
    ensures multiset(s)[s[i]] >= 2
  {
    assert s == s[..j] + [s[j]] + s[j + 1..] && s[..j][i] == s[j];
  }

  lemma {:induction false} InfosOnce(procs: Procs, order: seq<U32>, x: ProcInfo)
    requires EntriesMatch(procs) && forall p | p in order :: p in procs
    requires forall i, j | 0 <= i < j < |order| :: order[i] != order[j]
    ensures multiset(Infos(procs, order))[x] <= 1
  {
    if order != [] {
      var n := |order| - 1;
      var front := order[..n];
      assert order[n] in order && forall p | p in front :: p in order;
      InfosOnce(procs, front, x);
      var infos := Infos(procs, front);
      assert Infos(procs, order) == infos + [procs[order[n]]];
      if x == procs[order[n]] {
        assert forall i | 0 <= i < n :: infos[i].pid == order[i];
        assert x !in multiset(infos);
      }
    }
  }

  /** Sorting the infos of a reachable table puts the process with order `k` at position `k`, whatever the map order. */
  lemma SortedIsFirstSeen(procs: Procs, order: seq<U32>, sorted: seq<ProcInfo>)
    requires OrdersBijective(procs) && EntriesMatch(procs) && Enumerates(order, procs)
    requires Sorted(sorted) && multiset(sorted) == multiset(Infos(procs, order))
    ensures |sorted| == |procs|
    ensures forall p | p in procs :: sorted[procs[p].firstSeenOrder] == procs[p]
  {
    var infos := Infos(procs, order);
    DistinctSize(order, procs);
    assert |sorted| == |multiset(sorted)| == |multiset(infos)| == |infos|;
    forall i | 0 <= i < |sorted| ensures sorted[i].pid in procs && sorted[i] == procs[sorted[i].pid] {
      assert sorted[i] in multiset(infos);
      var j :| 0 <= j < |infos| && infos[j] == sorted[i];
      assert order[j] in order;
    }
    var ns := seq(|sorted|, i requires 0 <= i < |sorted| => sorted[i].firstSeenOrder);
    forall i, j | 0 <= i < j < |ns| ensures ns[i] < ns[j] {
      if ns[i] == ns[j] {
        assert sorted[i] == sorted[j];
        SortedTwice(sorted, i, j);
        InfosOnce(procs, order, sorted[i]);
      }
    }
    AscendingFills(ns, |procs|);
    forall p | p in procs ensures sorted[procs[p].firstSeenOrder] == procs[p] {
      var k := procs[p].firstSeenOrder;
      assert ns[k] == k && sorted[k].pid in procs;
    }
  }

  // ----- the report -----

  ghost predicate SameCall(e: CallEntry, c: ApiCall) {
    && e.api == c.api && e.category == c.category && e.status == c.status && e.returnValue == c.returnValue
    && e.threadId == c.threadId && e.time == c.time
    && |e.arguments| == |c.arguments|
    && forall k | 0 <= k < |e.arguments| :: (e.arguments[k].name, e.arguments[k].value) == c.arguments[k]
  }

  ghost predicate Describes(e: ProcessEntry, p: ProcInfo) {
    && e.processId == p.pid && e.parentId == p.parentId && e.processName == p.processName
    && StrictlyAscending(e.threads) && (forall t :: t in e.threads <==> t in ThreadsOf(p.calls))
    && |e.calls| == |p.calls|
    && forall k | 0 <= k < |e.calls| :: SameCall(e.calls[k], p.calls[k])
  }

  /** `entries` lists every process of the table once, in first-seen order, with its threads ascending and its
      calls in the order they were pushed. */
  ghost predicate Lists(entries: seq<ProcessEntry>, procs: Procs) {
    && |entries| == |procs|
    && forall p | p in procs ::
         procs[p].firstSeenOrder < |entries| && Describes(entries[procs[p].firstSeenOrder], procs[p])
  }

  lemma EntryDescribes(p: ProcInfo)
    requires p.threadIds == ThreadsOf(p.calls)
    ensures Describes(EntryOf(p), p)
  {
    var e := EntryOf(p);
    assert forall k | 0 <= k < |e.calls| :: e.calls[k] == EntryOfCall(p.calls[k]);
  }

  lemma EntriesList(procs: Procs, order: seq<U32>, sorted: seq<ProcInfo>, entries: seq<ProcessEntry>)
    requires OrdersBijective(procs) && EntriesMatch(procs) && Enumerates(order, procs)
    requires Sorted(sorted) && multiset(sorted) == multiset(Infos(procs, order))
    requires |entries| == |sorted| && forall j | 0 <= j < |sorted| :: entries[j] == EntryOf(sorted[j])
    ensures Lists(entries, procs)
  {
    SortedIsFirstSeen(procs, order, sorted);
    forall p | p in procs ensures Describes(entries[procs[p].firstSeenOrder], procs[p]) {
      EntryDescribes(procs[p]);
    }
  }

  /** `Report::build`, for the orders in which the two iterations over the process map happen to run. */
  method Build(collector: AnalysisCollector, valuesOrder: seq<U32>, rootsOrder: seq<U32>)
    returns (processes: seq<ProcessEntry>, processTree: Option<seq<TreeNode>>)
    requires Enumerates(valuesOrder, collector.procs) && Enumerates(rootsOrder, collector.procs)
    ensures Inv(collector.Value()) ==> Lists(processes, collector.procs)
    ensures processTree == ForestOf(collector.procs, collector.childLinks, rootsOrder)
  {
    var procs := Infos(collector.procs, valuesOrder);
    procs := SortByFirstSeen(procs);
    processes := [];
    for i := 0 to |procs|
      invariant |processes| == i && forall j | 0 <= j < i :: processes[j] == EntryOf(procs[j])
    {
      processes := processes + [EntryOf(procs[i])];
    }
    processTree := BuildTree(collector.procs, collector.childLinks, rootsOrder);
    if Inv(collector.Value()) {
      EntriesList(collector.procs, valuesOrder, procs, processes);
    }
  }

  lemma {:induction false} AscendingUnique(a: seq<U32>, b: seq<U32>)
    requires StrictlyAscending(a) && StrictlyAscending(b) && forall x :: x in a <==> x in b
    ensures a == b
  {
    assert |a| == 0 || a[0] in a;
    assert |b| == 0 || b[0] in b;
    if a != [] {
      assert a[0] == b[0];
      forall x ensures x in a[1..] <==> x in b[1..] {
        assert x in a <==> x == a[0] || x in a[1..];
        assert x in b <==> x == b[0] || x in b[1..];
      }
      AscendingUnique(a[1..], b[1..]);
    }
  }

  lemma DescribesUnique(e: ProcessEntry, f: ProcessEntry, p: ProcInfo)
    requires Describes(e, p) && Describes(f, p)
    ensures e == f
  {
    AscendingUnique(e.threads, f.threads);
    forall k | 0 <= k < |e.calls| ensures e.calls[k] == f.calls[k] {
      assert SameCall(e.calls[k], p.calls[k]) && SameCall(f.calls[k], p.calls[k]);
      assert e.calls[k].arguments == f.calls[k].arguments;
    }
    assert e.calls == f.calls;
  }

  /** A reachable collector has one process list, whatever the map order. */
  lemma ListDeterministic(h: seq<Action>, a: seq<ProcessEntry>, b: seq<ProcessEntry>)
    requires Lists(a, Run(h).procs) && Lists(b, Run(h).procs)
    ensures a == b
  {
    Reachable(h);
    var procs := Run(h).procs;
    forall k | 0 <= k < |a| ensures a[k] == b[k] {
      assert OrderTaken(procs, k);
      var p :| HasOrder(procs, p, k);
      DescribesUnique(a[k], b[k], procs[p]);
    }
  }

  lemma NodesConcat(a: seq<U32>, b: seq<U32>, procs: Procs, children: Children, depth: nat)
    requires AllEnd(a + b, children, depth) || (AllEnd(a, children, depth) && AllEnd(b, children, depth))
    ensures AllEnd(a + b, children, depth) && AllEnd(a, children, depth) && AllEnd(b, children, depth)
    ensures BuildNodes(a + b, procs, children, depth)
            == BuildNodes(a, procs, children, depth) + BuildNodes(b, procs, children, depth)
  {
    assert forall i | 0 <= i < |a| :: (a + b)[i] == a[i];
    assert forall i | 0 <= i < |b| :: (a + b)[|a| + i] == b[i];
  }

  lemma CancelOne(x: U32, rest: seq<U32>, a: seq<U32>, b: seq<U32>)
    requires multiset([x] + rest) == multiset(a + ([x] + b))
    ensures multiset(rest) == multiset(a + b)
  {
    forall y ensures multiset(rest)[y] == multiset(a + b)[y] {
      assert multiset([x] + rest)[y] == multiset([x])[y] + multiset(rest)[y];
      assert multiset(a + ([x] + b))[y] == multiset(a)[y] + multiset([x])[y] + multiset(b)[y];
    }
  }

  /** Two permuted lists stay permuted without the first element of one. */
  lemma WithoutFirst(ps: seq<U32>, qs: seq<U32>) returns (a: seq<U32>, b: seq<U32>)
    requires ps != [] && multiset(ps) == multiset(qs)
    ensures qs == a + ([ps[0]] + b) && multiset(ps[1..]) == multiset(a + b)
  {
    var x := ps[0];
    assert x in multiset(qs);
    var k :| 0 <= k < |qs| && qs[k] == x;
    a, b := qs[..k], qs[k + 1..];
    assert ps == [x] + ps[1..] && qs == a + ([x] + b);
    CancelOne(x, ps[1..], a, b);
  }

  lemma {:induction false} NodesPermute(ps: seq<U32>, qs: seq<U32>, procs: Procs, children: Children, depth: nat)
    requires multiset(ps) == multiset(qs) && AllEnd(ps, children, depth) && AllEnd(qs, children, depth)
    ensures multiset(BuildNodes(ps, procs, children, depth)) == multiset(BuildNodes(qs, procs, children, depth))
  {
    if ps == [] {
      assert |multiset(qs)| == |multiset(ps)| == 0;
    } else {
      var x, rest := ps[0], ps[1..];
      assert ps == [x] + rest;
      var a, b := WithoutFirst(ps, qs);
      NodesConcat([x], rest, procs, children, depth);
      NodesConcat(a, [x] + b, procs, children, depth);
      NodesConcat([x], b, procs, children, depth);
      NodesConcat(a, b, procs, children, depth);
      NodesPermute(rest, a + b, procs, children, depth);
    }
  }

  /** The trees for two map orders are the same up to the order of the roots. */
  lemma TreeDeterministic(h: seq<Action>, o1: seq<U32>, o2: seq<U32>)
    requires Enumerates(o1, Run(h).procs) && Enumerates(o2, Run(h).procs)
    ensures var s := Run(h);
            var f, g := ForestOf(s.procs, s.childLinks, o1), ForestOf(s.procs, s.childLinks, o2);
            (f.Some? <==> g.Some?) && (f.Some? ==> multiset(f.value) == multiset(g.value))
  {
    var s := Run(h);
    EndsIffNoReachableCycle(h, o1, 0);
    EndsIffNoReachableCycle(h, o2, 0);
    var r1, r2 := RootsIn(s.procs, o1), RootsIn(s.procs, o2);
    forall p ensures multiset(r1)[p] == multiset(r2)[p] {
      RootsOnce(s.procs, o1, p);
      RootsOnce(s.procs, o2, p);
    }
    assert multiset(r1) == multiset(r2);
    if ForestOf(s.procs, s.childLinks, o1).Some? {
      NodesPermute(r1, r2, s.procs, ChildrenMap(s.childLinks), |s.procs|);
    }
  }
}
