/** The collector every reader thread shares: the table of processes and the list of parent-child links. */
module Collector {
  import opened Types
  import opened BsonLog

  datatype ProcInfo = ProcInfo(
    pid: U32,
    parentId: U32,
    processName: string,
    firstSeenOrder: nat,
    threadIds: set<U32>,
    calls: seq<ApiCall>)

  type Procs = map<U32, ProcInfo>

  type Links = seq<(U32, U32)>

  datatype State = State(procs: Procs, childLinks: Links)

  /** One use of the collector; each happens under its lock. */
  datatype Action =
    | Register(pid: U32, parent: U32, name: string)
    | Push(pid: U32, call: ApiCall)

  const EMPTY := State(map[], [])

  function WithCall(p: ProcInfo, call: ApiCall): ProcInfo {
    p.(threadIds := p.threadIds + {call.threadId}, calls := p.calls + [call])
  }

  function After(s: State, a: Action): State {
    match a
    case Register(pid, parent, name) =>
      State(if pid in s.procs then s.procs else s.procs[pid := ProcInfo(pid, parent, name, |s.procs|, {}, [])],
            if parent != 0 then s.childLinks + [(parent, pid)] else s.childLinks)
    case Push(pid, call) =>
      if pid in s.procs then s.(procs := s.procs[pid := WithCall(s.procs[pid], call)]) else s
  }

  function Run(h: seq<Action>): State {
    if h == [] then EMPTY else After(Run(h[..|h| - 1]), h[|h| - 1])
  }

  class AnalysisCollector {
    var procs: Procs
    var childLinks: Links

    function Value(): State
      reads this
    {
      State(procs, childLinks)
    }

    constructor ()
      ensures Value() == EMPTY
    {
      procs, childLinks := map[], [];
    }

    method RegisterProcess(pid: U32, parent: U32, name: string)
      modifies this
      ensures Value() == After(old(Value()), Register(pid, parent, name))
    {
      var order := |procs|;
      if pid !in procs {
        procs := procs[pid := ProcInfo(pid, parent, name, order, {}, [])];
      }
      if parent != 0 {
        childLinks := childLinks + [(parent, pid)];
      }
    }

    method PushCall(pid: U32, call: ApiCall)
      modifies this
      ensures Value() == After(old(Value()), Push(pid, call))
    {
      if pid in procs {
        procs := procs[pid := WithCall(procs[pid], call)];
      }
    }
  }

  // ----- what a history of uses leaves behind -----

  predicate RegistersAt(h: seq<Action>, i: int, p: U32) {
    0 <= i < |h| && h[i].Register? && h[i].pid == p
  }

  predicate FirstAt(h: seq<Action>, i: int, p: U32) {
    RegistersAt(h, i, p) && forall j | 0 <= j < i :: !RegistersAt(h, j, p)
  }

  /** The calls pushed for `p`, in order. */
  function CallsFor(h: seq<Action>, p: U32): seq<ApiCall> {
    if h == [] then []
    else
      var a := h[|h| - 1];
      CallsFor(h[..|h| - 1], p) + if a.Push? && a.pid == p then [a.call] else []
  }

  function ThreadsOf(calls: seq<ApiCall>): set<U32> {
    set c | c in calls :: c.threadId
  }

  /** A process is in the table exactly when some use registered it. */
  lemma {:induction false} KnownIffRegistered(h: seq<Action>, p: U32)
    ensures p in Run(h).procs <==> exists i :: RegistersAt(h, i, p)
  {
    if h != [] {
      var n := |h| - 1;
      KnownIffRegistered(h[..n], p);
      if p in Run(h[..n]).procs {
        var i :| RegistersAt(h[..n], i, p);
        assert RegistersAt(h, i, p);
      }
      if i :| RegistersAt(h, i, p) {
        assert i < n ==> RegistersAt(h[..n], i, p);
      }
      assert h[n].Register? ==> RegistersAt(h, n, h[n].pid);
    }
  }

  /** `info` is what the history `h` says about process `p`, first registered by use `i`. */
  ghost predicate IsRecordOf(info: ProcInfo, h: seq<Action>, i: int, p: U32)
    requires 0 <= i < |h| && h[i].Register?
  {
    && info.pid == p && info.parentId == h[i].parent && info.processName == h[i].name
    && info.firstSeenOrder == |Run(h[..i]).procs|
    && info.calls == CallsFor(h[i..], p)
  }

  lemma RecordStep(s: State, h: seq<Action>, i: int, p: U32)
    requires 0 <= i < |h| - 1 && h[i].Register? && p in s.procs
    requires IsRecordOf(s.procs[p], h[..|h| - 1], i, p)
    ensures p in After(s, h[|h| - 1]).procs && IsRecordOf(After(s, h[|h| - 1]).procs[p], h, i, p)
  {
    var n := |h| - 1;
    assert h[..n][..i] == h[..i];
    assert h[i..][..|h[i..]| - 1] == h[..n][i..];
  }

  /** The first registration of a process fixes its parent, its name and its place in the order;
      its calls are those pushed from then on, so calls pushed earlier are lost. */
  lemma {:induction false} FirstRegistrationWins(h: seq<Action>, i: int, p: U32)
    requires FirstAt(h, i, p)
    ensures p in Run(h).procs
    ensures IsRecordOf(Run(h).procs[p], h, i, p)
  {
    var n := |h| - 1;
    if i == n {
      assert p !in Run(h[..n]).procs by {
        KnownIffRegistered(h[..n], p);
        assert forall j :: RegistersAt(h[..n], j, p) ==> RegistersAt(h, j, p);
      }
      assert h[i..] == [h[n]] && CallsFor([h[n]][..0], p) == [];
    } else {
      assert FirstAt(h[..n], i, p) by {
        assert forall j | 0 <= j < i :: RegistersAt(h[..n], j, p) ==> RegistersAt(h, j, p);
      }
      FirstRegistrationWins(h[..n], i, p);
      RecordStep(Run(h[..n]), h, i, p);
    }
  }

  /** Links record every registration under a nonzero parent, repeated or not. */
  lemma {:induction false} LinkIffRegistration(h: seq<Action>, parent: U32, child: U32)
    ensures (parent, child) in Run(h).childLinks
            <==> parent != 0 && exists i :: RegistersAt(h, i, child) && h[i].parent == parent
  {
    if h != [] {
      var n := |h| - 1;
      LinkIffRegistration(h[..n], parent, child);
      if i :| RegistersAt(h[..n], i, child) && h[..n][i].parent == parent {
        assert RegistersAt(h, i, child) && h[i].parent == parent;
      }
      if i :| RegistersAt(h, i, child) && h[i].parent == parent {
        assert i < n ==> RegistersAt(h[..n], i, child) && h[..n][i].parent == parent;
      }
      assert h[n].Register? ==> RegistersAt(h, n, h[n].pid) && h[n].parent == h[n].parent;
    }
  }

  // ----- invariants of every history -----

  ghost predicate HasOrder(procs: Procs, p: U32, k: int) {
    p in procs && procs[p].firstSeenOrder == k
  }

  ghost predicate OrderTaken(procs: Procs, k: int) {
    exists p :: HasOrder(procs, p, k)
  }

  /** The order numbers are a bijection onto 0..n-1. */
  ghost predicate OrdersBijective(procs: Procs) {
    && (forall p | p in procs :: procs[p].firstSeenOrder < |procs|)
    && (forall p, q | p in procs && q in procs && p != q :: procs[p].firstSeenOrder != procs[q].firstSeenOrder)
    && (forall k | 0 <= k < |procs| :: OrderTaken(procs, k))
  }

  ghost predicate EntriesMatch(procs: Procs) {
    forall p | p in procs :: procs[p].pid == p && procs[p].threadIds == ThreadsOf(procs[p].calls)
  }

  /** Links name a nonzero parent and a known child, and every known nonzero parent is linked. */
  ghost predicate LinksCover(s: State) {
    && (forall l | l in s.childLinks :: l.0 != 0 && l.1 in s.procs)
    && (forall p | p in s.procs :: s.procs[p].parentId != 0 ==> (s.procs[p].parentId, p) in s.childLinks)
  }

  ghost predicate Inv(s: State) {
    OrdersBijective(s.procs) && EntriesMatch(s.procs) && LinksCover(s)
  }

  lemma OrdersNewEntry(procs: Procs, pid: U32, info: ProcInfo)
    requires OrdersBijective(procs) && pid !in procs && info.firstSeenOrder == |procs|
    ensures OrdersBijective(procs[pid := info])
  {
    var t := procs[pid := info];
    forall k | 0 <= k < |t| ensures OrderTaken(t, k) {
      if k == |procs| {
        assert HasOrder(t, pid, k);
      } else {
        assert OrderTaken(procs, k);
        var p :| HasOrder(procs, p, k);
        assert HasOrder(t, p, k);
      }
    }
  }

  lemma OrdersSameEntry(procs: Procs, pid: U32, info: ProcInfo)
    requires OrdersBijective(procs) && pid in procs && info.firstSeenOrder == procs[pid].firstSeenOrder
    ensures OrdersBijective(procs[pid := info])
  {
    var t := procs[pid := info];
    assert t.Keys == procs.Keys && |t| == |t.Keys| && |procs| == |procs.Keys|;
    forall k | 0 <= k < |t| ensures OrderTaken(t, k) {
      assert OrderTaken(procs, k);
      var p :| HasOrder(procs, p, k);
      assert HasOrder(t, p, k);
    }
  }

  lemma OrdersStep(s: State, a: Action)
    requires OrdersBijective(s.procs)
    ensures OrdersBijective(After(s, a).procs)
  {
    match a
    case Push(pid, call) =>
      if pid in s.procs {
        OrdersSameEntry(s.procs, pid, WithCall(s.procs[pid], call));
      }
    case Register(pid, parent, name) =>
      if pid !in s.procs {
        OrdersNewEntry(s.procs, pid, ProcInfo(pid, parent, name, |s.procs|, {}, []));
      }
  }

  lemma EntriesStep(s: State, a: Action)
    requires EntriesMatch(s.procs)
    ensures EntriesMatch(After(s, a).procs)
  {
    if a.Push? && a.pid in s.procs {
      var calls := s.procs[a.pid].calls;
      assert ThreadsOf(calls + [a.call]) == ThreadsOf(calls) + {a.call.threadId};
    }
  }

  lemma LinksStep(s: State, a: Action)
    requires LinksCover(s)
    ensures LinksCover(After(s, a))
  {
    var t := After(s, a);
    assert s.procs.Keys <= t.procs.Keys;
    assert forall l | l in t.childLinks :: l in s.childLinks || (a.Register? && l == (a.parent, a.pid));
  }

  /** Every reachable collector numbers its processes without gaps, keeps the thread set of each process equal to
      the threads of its calls, and keeps the link list in step with the table. */
  lemma {:induction false} Reachable(h: seq<Action>)
    ensures Inv(Run(h))
  {
    if h != [] {
      Reachable(h[..|h| - 1]);
      OrdersStep(Run(h[..|h| - 1]), h[|h| - 1]);
      EntriesStep(Run(h[..|h| - 1]), h[|h| - 1]);
      LinksStep(Run(h[..|h| - 1]), h[|h| - 1]);
    }
  }

  // ----- histories that register each process once -----

  ghost predicate RegistersOnce(h: seq<Action>) {
    forall i, j, p | 0 <= i < j :: !(RegistersAt(h, i, p) && RegistersAt(h, j, p))
  }

  /** The links are exactly the parent relation, each child linked once. */
  ghost predicate LinksAreParents(s: State) {
    && LinksCover(s)
    && (forall l | l in s.childLinks :: l.1 in s.procs && s.procs[l.1].parentId == l.0)
    && (forall i, j | 0 <= i < j < |s.childLinks| :: s.childLinks[i].1 != s.childLinks[j].1)
  }

  lemma NewWhenOnce(h: seq<Action>)
    requires RegistersOnce(h) && h != []
    ensures h[|h| - 1].Register? ==> h[|h| - 1].pid !in Run(h[..|h| - 1]).procs
  {
    var n := |h| - 1;
    if h[n].Register? {
      KnownIffRegistered(h[..n], h[n].pid);
      assert RegistersAt(h, n, h[n].pid);
      assert forall i :: RegistersAt(h[..n], i, h[n].pid) ==> RegistersAt(h, i, h[n].pid);
    }
  }

  lemma ParentsStep(s: State, a: Action)
    requires LinksAreParents(s) && (a.Register? ==> a.pid !in s.procs)
    ensures LinksAreParents(After(s, a))
  {
    LinksStep(s, a);
    var t := After(s, a);
    assert forall p | p in s.procs :: t.procs[p].parentId == s.procs[p].parentId;
    forall i, j | 0 <= i < j < |t.childLinks| ensures t.childLinks[i].1 != t.childLinks[j].1 {
      assert s.childLinks[i] in s.childLinks;
    }
  }

  lemma {:induction false} OnceGivesParents(h: seq<Action>)
    requires RegistersOnce(h)
    ensures LinksAreParents(Run(h))
  {
    if h != [] {
      var n := |h| - 1;
      assert forall i, p :: RegistersAt(h[..n], i, p) ==> RegistersAt(h, i, p);
      OnceGivesParents(h[..n]);
      NewWhenOnce(h);
      ParentsStep(Run(h[..n]), h[n]);
    }
  }
}
