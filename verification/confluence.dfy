/** Exactly when the readers of the log pipes are confluent. */
module Confluence {
  import opened Types
  import opened BsonLog
  import opened Collector
  import opened LogServer

  /** A valid schedule after which every reader has stopped. */
  ghost predicate Complete(start: World, schedule: seq<nat>) {
    ValidSchedule(schedule, |start.readers|) && AllStopped(RunReaders(start, schedule).readers)
  }

  /** All complete interleavings end in the same collector. */
  ghost predicate AllEndAlike(start: World) {
    forall a, b | Complete(start, a) && Complete(start, b) ::
      RunReaders(start, a).shared == RunReaders(start, b).shared
  }

  /** All calls of both are one and the same call. */
  ghost predicate OneCall(a: seq<ApiCall>, b: seq<ApiCall>) {
    forall x, y | x in a + b && y in a + b :: x == y
  }

  ghost predicate Compatible(a: seq<ApiCall>, b: seq<ApiCall>) {
    a == [] || b == [] || OneCall(a, b)
  }

  /** Of every two readers of the same registered process one pushes nothing, or both push one and the same call. */
  ghost predicate Harmless(w: World) {
    forall i, j | 0 <= i < |w.readers| && 0 <= j < |w.readers| && i != j
                  && w.readers[i].pid == w.readers[j].pid && w.readers[i].pid in w.shared.procs ::
      Compatible(CallsOf(w.readers[i].left), CallsOf(w.readers[j].left))
  }

  // ----- harmless readers end alike -----

  /** The calls still to come for process `p`, reader after reader. */
  function Pending(readers: seq<Reader>, p: U32): seq<ApiCall> {
    if readers == [] then []
    else (if readers[0].pid == p then CallsOf(readers[0].left) else []) + Pending(readers[1..], p)
  }

  lemma {:induction false} PendingConcat(a: seq<Reader>, b: seq<Reader>, p: U32)
    ensures Pending(a + b, p) == Pending(a, p) + Pending(b, p)
  {
    if a == [] {
      assert a + b == b;
    } else {
      assert (a + b)[1..] == a[1..] + b;
      PendingConcat(a[1..], b, p);
    }
  }

  /** The calls for `p` before, from, and after reader `i`. */
  lemma PendingAt(readers: seq<Reader>, i: nat, r: Reader, p: U32)
    requires i < |readers|
    ensures Pending(readers[i := r], p)
         == Pending(readers[..i], p)
            + ((if r.pid == p then CallsOf(r.left) else []) + Pending(readers[i + 1..], p))
  {
    var tail := readers[i + 1..];
    assert readers[i := r] == readers[..i] + ([r] + tail);
    assert ([r] + tail)[1..] == tail;
    PendingConcat(readers[..i], [r] + tail, p);
  }

  lemma {:induction false} PendingAll(readers: seq<Reader>, p: U32, c: ApiCall)
    requires forall i, x | 0 <= i < |readers| && readers[i].pid == p && x in CallsOf(readers[i].left) :: x == c
    ensures forall x | x in Pending(readers, p) :: x == c
  {
    if readers != [] {
      assert forall i | 0 <= i < |readers[1..]| :: readers[1..][i] == readers[i + 1];
      PendingAll(readers[1..], p, c);
    }
  }

  lemma SameCallsCommute(s: seq<ApiCall>, c: ApiCall)
    requires forall x | x in s :: x == c
    ensures s + [c] == [c] + s
  {
    assert forall i | 0 <= i < |s| :: s[i] in s;
    forall i | 0 <= i < |s + [c]| ensures (s + [c])[i] == ([c] + s)[i] {
    }
  }

  lemma MoveToFront(x: seq<ApiCall>, c: ApiCall, tail: seq<ApiCall>, rest: seq<ApiCall>)
    requires x + [c] == [c] + x
    ensures x + (([c] + tail) + rest) == [c] + (x + (tail + rest))
  {
    assert x + (([c] + tail) + rest) == (x + [c]) + (tail + rest);
    assert ([c] + x) + (tail + rest) == [c] + (x + (tail + rest));
  }

  lemma PopShape(r: Reader)
    requires !Stopped(r)
    ensures CallsOf(r.left) == CallIn(r.left[0]) + CallsOf(r.left[1..])
  {
  }

  /** What comes before a reader in the list of pending calls is, for harmless readers, its next call over and over. */
  lemma BeforeIsSame(w: World, i: nat, c: ApiCall)
    requires Harmless(w) && i < |w.readers| && w.readers[i].pid in w.shared.procs && c in CallsOf(w.readers[i].left)
    ensures forall x | x in Pending(w.readers[..i], w.readers[i].pid) :: x == c
  {
    var p, front := w.readers[i].pid, w.readers[..i];
    forall k, x | 0 <= k < |front| && front[k].pid == p && x in CallsOf(front[k].left) ensures x == c {
      assert front[k] == w.readers[k];
      var a, b := CallsOf(w.readers[k].left), CallsOf(w.readers[i].left);
      assert Compatible(a, b) && x in a + b && c in a + b;
    }
    PendingAll(front, p, c);
  }

  /** A step moves the next call from the front of what is pending to the end of what is there. */
  lemma StepPops(w: World, i: nat)
    requires Harmless(w) && i < |w.readers| && !Stopped(w.readers[i]) && w.readers[i].pid in w.shared.procs
    ensures Pending(w.readers, w.readers[i].pid)
         == CallIn(w.readers[i].left[0]) + Pending(Step(w, i).readers, w.readers[i].pid)
  {
    var r := w.readers[i];
    var next, p := r.(left := r.left[1..]), r.pid;
    PendingAt(w.readers, i, r, p);
    PendingAt(w.readers, i, next, p);
    assert w.readers[i := r] == w.readers;
    PopShape(r);
    var x, tail, rest := Pending(w.readers[..i], p), CallsOf(next.left), Pending(w.readers[i + 1..], p);
    if r.left[0].Emits? {
      var c := r.left[0].call;
      BeforeIsSame(w, i, c);
      SameCallsCommute(x, c);
      MoveToFront(x, c, tail, rest);
    } else {
      assert [] + tail == tail && [] + (x + (tail + rest)) == x + (tail + rest);
    }
  }

  lemma OtherPending(w: World, i: nat, p: U32)
    requires i < |w.readers| && w.readers[i].pid != p
    ensures Pending(Step(w, i).readers, p) == Pending(w.readers, p)
  {
    var r := w.readers[i];
    PendingAt(w.readers, i, r, p);
    assert w.readers[i := r] == w.readers;
    if !Stopped(r) {
      PendingAt(w.readers, i, r.(left := r.left[1..]), p);
    }
  }

  lemma FewerStillCompatible(a: seq<ApiCall>, b: seq<ApiCall>, c: seq<ApiCall>, d: seq<ApiCall>)
    requires Compatible(a, b) && (forall x | x in c :: x in a) && (forall x | x in d :: x in b)
    ensures Compatible(c, d)
  {
    if c != [] && d != [] {
      assert c[0] in c && d[0] in d;
      assert forall x | x in c + d :: x in a + b;
    }
  }

  lemma StepHarmless(w: World, i: nat)
    requires Harmless(w) && i < |w.readers|
    ensures Harmless(Step(w, i)) && Step(w, i).shared.procs.Keys == w.shared.procs.Keys
  {
    var r, v := w.readers[i], Step(w, i);
    if !Stopped(r) {
      FeedTouchesOne(w.shared, r.pid, r.left[0]);
      PopShape(r);
      forall k, j | 0 <= k < |v.readers| && 0 <= j < |v.readers| && k != j
                    && v.readers[k].pid == v.readers[j].pid && v.readers[k].pid in v.shared.procs
        ensures Compatible(CallsOf(v.readers[k].left), CallsOf(v.readers[j].left))
      {
        var a, b := CallsOf(w.readers[k].left), CallsOf(w.readers[j].left);
        assert Compatible(a, b);
        FewerStillCompatible(a, b, CallsOf(v.readers[k].left), CallsOf(v.readers[j].left));
      }
    }
  }

  /** What process `p` will show when all its readers have stopped. */
  function Total(w: World, p: U32): ProcInfo
    requires p in w.shared.procs
  {
    WithCalls(w.shared.procs[p], Pending(w.readers, p))
  }

  lemma StepKeepsTotal(w: World, i: nat, p: U32)
    requires Harmless(w) && i < |w.readers| && p in w.shared.procs
    ensures p in Step(w, i).shared.procs && Total(Step(w, i), p) == Total(w, p)
  {
    var r, v := w.readers[i], Step(w, i);
    if !Stopped(r) {
      FeedTouchesOne(w.shared, r.pid, r.left[0]);
      if r.pid != p {
        OtherPending(w, i, p);
      } else {
        StepPops(w, i);
        if r.left[0].Emits? {
          OneThenRest(w.shared.procs[p], r.left[0].call, Pending(v.readers, p));
        } else {
          assert [] + Pending(v.readers, p) == Pending(v.readers, p);
        }
      }
    }
  }

  ghost predicate SameTotals(w: World, v: World) {
    && v.shared.procs.Keys == w.shared.procs.Keys && v.shared.childLinks == w.shared.childLinks
    && forall p | p in w.shared.procs :: Total(v, p) == Total(w, p)
  }

  lemma {:induction false} RunKeepsTotals(w: World, schedule: seq<nat>)
    requires Harmless(w) && ValidSchedule(schedule, |w.readers|)
    ensures Harmless(RunReaders(w, schedule)) && SameTotals(w, RunReaders(w, schedule))
  {
    if schedule != [] {
      var n := |schedule| - 1;
      RunKeepsTotals(w, schedule[..n]);
      var v := RunReaders(w, schedule[..n]);
      StepHarmless(v, schedule[n]);
      forall p | p in w.shared.procs ensures Total(Step(v, schedule[n]), p) == Total(w, p) {
        StepKeepsTotal(v, schedule[n], p);
      }
    }
  }

  lemma {:induction false} NothingPending(readers: seq<Reader>, p: U32)
    requires AllStopped(readers)
    ensures Pending(readers, p) == []
  {
    if readers != [] {
      assert Stopped(readers[0]) && CallsOf(readers[0].left) == [];
      assert forall i | 0 <= i < |readers[1..]| :: readers[1..][i] == readers[i + 1];
      NothingPending(readers[1..], p);
    }
  }

  /** In every complete interleaving of harmless readers each registered process ends with its calls followed by those
      of its readers, and nothing else changes. */
  lemma HarmlessEnd(start: World, schedule: seq<nat>)
    requires Harmless(start) && Complete(start, schedule)
    ensures var end := RunReaders(start, schedule).shared;
            && end.childLinks == start.shared.childLinks && end.procs.Keys == start.shared.procs.Keys
            && forall p | p in start.shared.procs :: end.procs[p] == Total(start, p)
  {
    RunKeepsTotals(start, schedule);
    var w := RunReaders(start, schedule);
    forall p | p in start.shared.procs ensures w.shared.procs[p] == Total(start, p) {
      NothingPending(w.readers, p);
      NoneThenSame(w.shared.procs[p]);
      assert Total(w, p) == Total(start, p);
    }
  }

  // ----- other readers do not -----

  lemma {:induction false} RunJoin(w: World, a: seq<nat>, b: seq<nat>)
    requires ValidSchedule(a, |w.readers|) && ValidSchedule(b, |w.readers|)
    ensures ValidSchedule(a + b, |w.readers|) && RunReaders(w, a + b) == RunReaders(RunReaders(w, a), b)
  {
    if b == [] {
      assert a + b == a;
    } else {
      var n := |b| - 1;
      RunJoin(w, a, b[..n]);
      assert (a + b)[..|a + b| - 1] == a + b[..n];
    }
  }

  function Solo(i: nat, n: nat): (s: seq<nat>)
    ensures |s| == n && forall k | 0 <= k < n :: s[k] == i
  {
    seq(n, k => i)
  }

  lemma OneOutcome(o: Outcome)
    requires !o.Panics?
    ensures CallsOf([o]) == CallIn(o)
  {
    assert [o][1..] == [] && CallIn(o) + [] == CallIn(o);
  }

  lemma CallsUpTo(os: seq<Outcome>, n: nat)
    requires 0 < n <= |os| && forall k | 0 <= k < n :: !os[k].Panics?
    ensures CallsOf(os[..n]) == CallsOf(os[..n - 1]) + CallIn(os[n - 1])
    ensures os[n - 1..][0] == os[n - 1] && os[n - 1..][1..] == os[n..]
  {
    assert os[..n] == os[..n - 1] + [os[n - 1]];
    CallsConcat(os[..n - 1], [os[n - 1]]);
    OneOutcome(os[n - 1]);
  }

  /** Process `p` shows `calls`. */
  ghost predicate HasCalls(w: World, p: U32, calls: seq<ApiCall>) {
    p in w.shared.procs && w.shared.procs[p].calls == calls
  }

  lemma StepAlone(w: World, i: nat, calls: seq<ApiCall>)
    requires i < |w.readers| && !Stopped(w.readers[i])
    ensures var r := w.readers[i];
            Step(w, i).readers == w.readers[i := r.(left := r.left[1..])]
            && (HasCalls(w, r.pid, calls) ==> HasCalls(Step(w, i), r.pid, calls + CallIn(r.left[0])))
  {
    assert calls + [] == calls;
  }

  /** A reader running alone takes its outcomes in order. */
  lemma {:induction false} SoloRun(w: World, i: nat, n: nat, calls: seq<ApiCall>)
    requires i < |w.readers| && n <= |w.readers[i].left|
    requires forall k | 0 <= k < n :: !w.readers[i].left[k].Panics?
    ensures ValidSchedule(Solo(i, n), |w.readers|)
    ensures var r, v := w.readers[i], RunReaders(w, Solo(i, n));
            && v.readers == w.readers[i := r.(left := r.left[n..])]
            && (HasCalls(w, r.pid, calls) ==> HasCalls(v, r.pid, calls + CallsOf(r.left[..n])))
    decreases n
  {
    var r := w.readers[i];
    if n == 0 {
      assert r.left[0..] == r.left && w.readers[i := r] == w.readers && calls + CallsOf(r.left[..0]) == calls;
    } else {
      SoloRun(w, i, n - 1, calls);
      assert Solo(i, n)[..n - 1] == Solo(i, n - 1);
      CallsUpTo(r.left, n);
      var so := calls + CallsOf(r.left[..n - 1]);
      StepAlone(RunReaders(w, Solo(i, n - 1)), i, so);
      assert so + CallIn(r.left[n - 1]) == calls + CallsOf(r.left[..n]);
    }
  }

  /** How many outcomes give the first `k` calls. */
  lemma {:induction false} OutcomesFor(os: seq<Outcome>, k: nat) returns (n: nat)
    requires k <= |CallsOf(os)|
    ensures n <= |os| && (forall i | 0 <= i < n :: !os[i].Panics?) && CallsOf(os[..n]) == CallsOf(os)[..k]
  {
    if k == 0 {
      return 0;
    }
    var in0 := CallIn(os[0]);
    var m := OutcomesFor(os[1..], k - |in0|);
    n := m + 1;
    assert os[..n] == [os[0]] + os[1..][..m];
    assert os[..n][1..] == os[1..][..m];
    assert CallsOf(os)[..k] == in0 + CallsOf(os[1..])[..k - |in0|];
    assert forall i | 1 <= i < n :: os[i] == os[1..][i - 1];
  }

  /** A reader can push its next `k` calls. */
  lemma PushSome(w: World, i: nat, k: nat) returns (s: seq<nat>)
    requires i < |w.readers| && w.readers[i].pid in w.shared.procs && k <= |CallsOf(w.readers[i].left)|
    ensures ValidSchedule(s, |w.readers|)
    ensures var p, v := w.readers[i].pid, RunReaders(w, s);
            && p in v.shared.procs
            && v.shared.procs[p].calls == w.shared.procs[p].calls + CallsOf(w.readers[i].left)[..k]
            && forall j | 0 <= j < |w.readers| && j != i :: v.readers[j] == w.readers[j]
  {
    var n := OutcomesFor(w.readers[i].left, k);
    SoloRun(w, i, n, w.shared.procs[w.readers[i].pid].calls);
    s := Solo(i, n);
  }

  /** The outcomes a reader gets to. */
  function Reach(os: seq<Outcome>): (n: nat)
    ensures n <= |os| && (forall i | 0 <= i < n :: !os[i].Panics?) && (n < |os| ==> os[n].Panics?)
  {
    if os == [] || os[0].Panics? then 0 else 1 + Reach(os[1..])
  }

  /** Any run can be completed. */
  lemma {:induction false} Completing(w: World, k: nat) returns (s: seq<nat>)
    requires k <= |w.readers|
    ensures ValidSchedule(s, |w.readers|)
    ensures forall i | 0 <= i < k :: Stopped(RunReaders(w, s).readers[i])
    decreases k
  {
    s := [];
    if k > 0 {
      var before := Completing(w, k - 1);
      var v := RunReaders(w, before);
      var n := Reach(v.readers[k - 1].left);
      SoloRun(v, k - 1, n, []);
      RunJoin(w, before, Solo(k - 1, n));
      s := before + Solo(k - 1, n);
    }
  }

  lemma CompletedFrom(w: World, s: seq<nat>) returns (t: seq<nat>)
    requires ValidSchedule(s, |w.readers|)
    ensures Complete(w, t) && ValidSchedule(t, |w.readers|) && |s| <= |t| && t[..|s|] == s
  {
    var v := RunReaders(w, s);
    var more := Completing(v, |v.readers|);
    RunJoin(w, s, more);
    t := s + more;
  }

  /** Calls are only ever added at the end. */
  lemma {:induction false} CallsOnlyGrow(w: World, s: seq<nat>, p: U32)
    requires ValidSchedule(s, |w.readers|) && p in w.shared.procs
    ensures var v := RunReaders(w, s);
            p in v.shared.procs && w.shared.procs[p].calls <= v.shared.procs[p].calls
  {
    if s != [] {
      var n := |s| - 1;
      CallsOnlyGrow(w, s[..n], p);
      var u := RunReaders(w, s[..n]);
      var r := u.readers[s[n]];
      if !Stopped(r) {
        FeedTouchesOne(u.shared, r.pid, r.left[0]);
      }
    }
  }

  /** Some complete interleaving begins with the calls that `s` pushes. */
  lemma EndsWithThose(w: World, s: seq<nat>, p: U32) returns (t: seq<nat>)
    requires ValidSchedule(s, |w.readers|) && p in w.shared.procs
    ensures Complete(w, t) && p in RunReaders(w, s).shared.procs && p in RunReaders(w, t).shared.procs
    ensures RunReaders(w, s).shared.procs[p].calls <= RunReaders(w, t).shared.procs[p].calls
  {
    t := CompletedFrom(w, s);
    CallsOnlyGrow(w, s, p);
    RunJoin(w, s, t[|s|..]);
    assert t == s + t[|s|..];
    CallsOnlyGrow(RunReaders(w, s), t[|s|..], p);
  }

  lemma {:induction false} FirstOther(calls: seq<ApiCall>, b: ApiCall) returns (k: nat)
    requires exists x :: x in calls && x != b
    ensures k < |calls| && calls[k] != b && forall i | 0 <= i < k :: calls[i] == b
  {
    if calls[0] != b {
      return 0;
    }
    assert calls == [calls[0]] + calls[1..];
    k := FirstOther(calls[1..], b);
    k := k + 1;
    assert forall i | 1 <= i < k :: calls[i] == calls[1..][i - 1];
  }

  lemma CallAt(all: seq<ApiCall>, before: seq<ApiCall>, calls: seq<ApiCall>, k: nat)
    requires before + calls <= all && k < |calls|
    ensures |before| + k < |all| && all[|before| + k] == calls[k]
  {
    assert all[|before| + k] == (before + calls)[|before| + k];
  }

  /** After some complete interleaving `call` is the call of `p` at place `k`. */
  ghost predicate EndsWithCallAt(start: World, schedule: seq<nat>, p: U32, k: nat, call: ApiCall) {
    && Complete(start, schedule)
    && p in RunReaders(start, schedule).shared.procs
    && k < |RunReaders(start, schedule).shared.procs[p].calls|
    && RunReaders(start, schedule).shared.procs[p].calls[k] == call
  }

  /** Reader `i` goes first. */
  lemma OneFirst(start: World, i: nat, k: nat) returns (a: seq<nat>)
    requires i < |start.readers| && start.readers[i].pid in start.shared.procs
    requires k < |CallsOf(start.readers[i].left)|
    ensures var p := start.readers[i].pid;
            EndsWithCallAt(start, a, p, |start.shared.procs[p].calls| + k, CallsOf(start.readers[i].left)[k])
  {
    var p, ci := start.readers[i].pid, CallsOf(start.readers[i].left);
    var s := PushSome(start, i, k + 1);
    a := EndsWithThose(start, s, p);
    CallAt(RunReaders(start, a).shared.procs[p].calls, start.shared.procs[p].calls, ci[..k + 1], k);
  }

  /** Reader `j` pushes one call before reader `i` pushes its first `k`, all of them that call. */
  lemma OtherFirst(start: World, i: nat, j: nat, k: nat) returns (b: seq<nat>)
    requires i < |start.readers| && j < |start.readers| && i != j
    requires start.readers[i].pid == start.readers[j].pid && start.readers[i].pid in start.shared.procs
    requires CallsOf(start.readers[j].left) != [] && k <= |CallsOf(start.readers[i].left)|
    requires forall t | 0 <= t < k :: CallsOf(start.readers[i].left)[t] == CallsOf(start.readers[j].left)[0]
    ensures var p := start.readers[i].pid;
            EndsWithCallAt(start, b, p, |start.shared.procs[p].calls| + k, CallsOf(start.readers[j].left)[0])
  {
    var p, ci, first := start.readers[i].pid, CallsOf(start.readers[i].left), CallsOf(start.readers[j].left)[0];
    var before := start.shared.procs[p].calls;
    var s1 := PushSome(start, j, 1);
    var s2 := PushSome(RunReaders(start, s1), i, k);
    RunJoin(start, s1, s2);
    b := EndsWithThose(start, s1 + s2, p);
    assert CallsOf(start.readers[j].left)[..1] == [first];
    assert before + [first] + ci[..k] == before + ([first] + ci[..k]);
    CallAt(RunReaders(start, b).shared.procs[p].calls, before, [first] + ci[..k], k);
  }

  /** If some call of reader `i` is not the first call of reader `j` of the same process, the order shows. */
  lemma OrderShows(start: World, i: nat, j: nat) returns (a: seq<nat>, b: seq<nat>)
    requires i < |start.readers| && j < |start.readers| && i != j
    requires start.readers[i].pid == start.readers[j].pid && start.readers[i].pid in start.shared.procs
    requires CallsOf(start.readers[j].left) != []
    requires exists x :: x in CallsOf(start.readers[i].left) && x != CallsOf(start.readers[j].left)[0]
    ensures Complete(start, a) && Complete(start, b)
    ensures RunReaders(start, a).shared != RunReaders(start, b).shared
  {
    var k := FirstOther(CallsOf(start.readers[i].left), CallsOf(start.readers[j].left)[0]);
    a := OneFirst(start, i, k);
    b := OtherFirst(start, i, j, k);
  }

  lemma HarmfulDiffer(start: World, i: nat, j: nat)
    requires i < |start.readers| && j < |start.readers| && i != j
    requires start.readers[i].pid == start.readers[j].pid && start.readers[i].pid in start.shared.procs
    requires !Compatible(CallsOf(start.readers[i].left), CallsOf(start.readers[j].left))
    ensures !AllEndAlike(start)
  {
    var ci, cj := CallsOf(start.readers[i].left), CallsOf(start.readers[j].left);
    var a, b;
    if x :| x in ci && x != cj[0] {
      a, b := OrderShows(start, i, j);
    } else {
      assert ci[0] in ci;
      var x, y :| x in ci + cj && y in ci + cj && x != y;
      assert (x in cj && x != ci[0]) || (y in cj && y != ci[0]);
      a, b := OrderShows(start, j, i);
    }
  }

  /** All complete interleavings end in the same collector exactly if of every two readers of the same registered
      process one pushes nothing, or all calls of both are one and the same call. */
  lemma ConfluentIff(start: World)
    ensures AllEndAlike(start) <==> Harmless(start)
  {
    if Harmless(start) {
      forall a, b | Complete(start, a) && Complete(start, b)
        ensures RunReaders(start, a).shared == RunReaders(start, b).shared
      {
        HarmlessEnd(start, a);
        HarmlessEnd(start, b);
        assert RunReaders(start, a).shared.procs == RunReaders(start, b).shared.procs;
      }
    } else {
      var i, j :| 0 <= i < |start.readers| && 0 <= j < |start.readers| && i != j
                  && start.readers[i].pid == start.readers[j].pid && start.readers[i].pid in start.shared.procs
                  && !Compatible(CallsOf(start.readers[i].left), CallsOf(start.readers[j].left));
      HarmfulDiffer(start, i, j);
    }
  }
}
