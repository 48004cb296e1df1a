/** Reader threads on whole connections, in any interleaving, and the report built at any moment. */
module Connections {
  import opened Types
  import opened BsonLog
  import opened Collector
  import opened LogServer
  import opened Confluence
  import opened Forest
  import opened Report
  import Framing

  /** What a reader's pipe will bring: whether a client connects, its bytes, and whether it hangs up behind them. */
  datatype Connection = Connection(bytes: seq<Byte>, hangsUp: bool, connects: bool)

  /** A `read_loop` thread: before its header, in its loop with the registry it has built, or at its end. */
  datatype Thread =
    | Waiting(connection: Connection)
    | Reading(pid: U32, reg: Schemas, rest: seq<Byte>, hangsUp: bool)
    | Over

  datatype Threads = Threads(shared: State, threads: seq<Thread>)

  /** Each step is what a thread does up to its next use of the collector: connecting and reading the header, or
      reading, decoding and pushing one document. */
  function NextThread(t: Thread, parse: Parser): Thread {
    match t
    case Waiting(c) =>
      if !c.connects || Framing.SplitHeader(c.bytes).NoHeader? then Over
      else Reading(Framing.SplitHeader(c.bytes).pid, map[], Framing.SplitHeader(c.bytes).rest, c.hangsUp)
    case Reading(pid, reg, rest, hangsUp) =>
      var f := FrontOf(rest, hangsUp, parse);
      if f.Nothing? || OutcomeOf(reg, f.doc).Panics? then Over
      else Reading(pid, SchemasAfter(reg, f.doc), f.after, hangsUp)
    case Over => Over
  }

  function Fed(s: State, t: Thread, parse: Parser): State {
    if t.Reading? && FrontOf(t.rest, t.hangsUp, parse).Front?
    then Feed(s, t.pid, OutcomeOf(t.reg, FrontOf(t.rest, t.hangsUp, parse).doc))
    else s
  }

  function ThreadStep(w: Threads, i: nat, parse: Parser): Threads
    requires i < |w.threads|
  {
    Threads(Fed(w.shared, w.threads[i], parse), w.threads[i := NextThread(w.threads[i], parse)])
  }

  function RunThreads(w: Threads, schedule: seq<nat>, parse: Parser): (r: Threads)
    requires ValidSchedule(schedule, |w.threads|)
    ensures |r.threads| == |w.threads|
  {
    if schedule == [] then w
    else ThreadStep(RunThreads(w, schedule[..|schedule| - 1], parse), schedule[|schedule| - 1], parse)
  }

  function Begun(s: State, connections: seq<Connection>): (w: Threads)
    ensures |w.threads| == |connections|
  {
    Threads(s, seq(|connections|, i requires 0 <= i < |connections| => Waiting(connections[i])))
  }

  ghost predicate AllOver(w: Threads) {
    forall i | 0 <= i < |w.threads| :: w.threads[i].Over?
  }

  /** What a connection brings to the collector: the pid of its header and the calls of its documents. */
  function Brought(c: Connection, parse: Parser): Option<(U32, seq<ApiCall>)> {
    if c.connects then Contribution(c.bytes, c.hangsUp, parse) else None
  }

  // ----- threads are readers -----

  function ReaderFor(c: Connection, parse: Parser): Reader {
    if !c.connects || Framing.SplitHeader(c.bytes).NoHeader? then Reader(0, [])
    else Reader(Framing.SplitHeader(c.bytes).pid,
                Outcomes(map[], Documents(Framing.SplitHeader(c.bytes).rest, c.hangsUp, parse)))
  }

  /** The reader of decoded outcomes that stands for a thread. */
  ghost predicate StandsFor(r: Reader, t: Thread, parse: Parser) {
    match t
    case Waiting(c) => r == ReaderFor(c, parse)
    case Reading(pid, reg, rest, hangsUp) => r == Reader(pid, Outcomes(reg, Documents(rest, hangsUp, parse)))
    case Over => Stopped(r)
  }

  function Advanced(r: Reader): Reader {
    if Stopped(r) then r else r.(left := r.left[1..])
  }

  lemma ReadingAdvances(r: Reader, t: Thread, s: State, parse: Parser)
    requires t.Reading? && StandsFor(r, t, parse)
    ensures StandsFor(Advanced(r), NextThread(t, parse), parse)
    ensures Fed(s, t, parse) == if Stopped(r) then s else Feed(s, r.pid, r.left[0])
  {
    var f := FrontOf(t.rest, t.hangsUp, parse);
    if f.Front? {
      var docs := Documents(f.after, t.hangsUp, parse);
      assert Documents(t.rest, t.hangsUp, parse) == [f.doc] + docs && ([f.doc] + docs)[1..] == docs;
      var os := Outcomes(SchemasAfter(t.reg, f.doc), docs);
      assert r.left == [OutcomeOf(t.reg, f.doc)] + os;
      assert r.left[1..] == os;
    }
  }

  ghost predicate AllStandFor(v: World, w: Threads, parse: Parser) {
    && |v.readers| == |w.threads| && v.shared == w.shared
    && forall i | 0 <= i < |w.threads| :: StandsFor(v.readers[i], w.threads[i], parse)
  }

  function ReadersFor(s: State, connections: seq<Connection>, parse: Parser): (w: World)
    ensures |w.readers| == |connections| && w.shared == s
    ensures forall i | 0 <= i < |connections| :: w.readers[i] == ReaderFor(connections[i], parse)
  {
    World(s, seq(|connections|, i requires 0 <= i < |connections| => ReaderFor(connections[i], parse)))
  }

  /** A thread's step is a step of its reader if the thread is in its loop, and none otherwise. */
  lemma StepStandsFor(v: World, w: Threads, i: nat, parse: Parser)
    requires AllStandFor(v, w, parse) && i < |w.threads|
    ensures AllStandFor(if w.threads[i].Reading? then Step(v, i) else v, ThreadStep(w, i, parse), parse)
  {
    assert StandsFor(v.readers[i], w.threads[i], parse);
    if w.threads[i].Reading? {
      ReadingAdvances(v.readers[i], w.threads[i], w.shared, parse);
      assert Step(v, i).readers == v.readers[i := Advanced(v.readers[i])];
    }
  }

  lemma OneStep(v: World, s: seq<nat>, i: nat)
    requires ValidSchedule(s, |v.readers|) && i < |v.readers|
    ensures ValidSchedule(s + [i], |v.readers|) && RunReaders(v, s + [i]) == Step(RunReaders(v, s), i)
  {
    assert (s + [i])[..|s + [i]| - 1] == s;
  }

  /** Every run of the threads is a run of the readers that stand for them. */
  lemma {:induction false} ThreadsAreReaders(v: World, w: Threads, schedule: seq<nat>, parse: Parser)
    returns (s: seq<nat>)
    requires AllStandFor(v, w, parse) && ValidSchedule(schedule, |w.threads|)
    ensures ValidSchedule(s, |v.readers|) && AllStandFor(RunReaders(v, s), RunThreads(w, schedule, parse), parse)
    decreases |schedule|
  {
    if schedule == [] {
      return [];
    }
    var n := |schedule| - 1;
    s := ThreadsAreReaders(v, w, schedule[..n], parse);
    var i, now := schedule[n], RunThreads(w, schedule[..n], parse);
    StepStandsFor(RunReaders(v, s), now, i, parse);
    if now.threads[i].Reading? {
      OneStep(v, s, i);
      s := s + [i];
    }
  }

  lemma BroughtByReader(c: Connection, parse: Parser)
    ensures Brought(c, parse).None? ==> ReaderFor(c, parse).left == []
    ensures Brought(c, parse).Some? ==>
              ReaderFor(c, parse).pid == Brought(c, parse).value.0
              && CallsOf(ReaderFor(c, parse).left) == Brought(c, parse).value.1
  {
  }

  // ----- readers are threads -----

  /** Each thread once. */
  function Each(n: nat): (s: seq<nat>)
    ensures |s| == n && forall k | 0 <= k < n :: s[k] == k
  {
    seq(n, k => k)
  }

  lemma {:induction false} ThreadsJoin(w: Threads, a: seq<nat>, b: seq<nat>, parse: Parser)
    requires ValidSchedule(a, |w.threads|) && ValidSchedule(b, |w.threads|)
    ensures ValidSchedule(a + b, |w.threads|)
    ensures RunThreads(w, a + b, parse) == RunThreads(RunThreads(w, a, parse), b, parse)
  {
    if b == [] {
      assert a + b == a;
    } else {
      var n := |b| - 1;
      ThreadsJoin(w, a, b[..n], parse);
      assert (a + b)[..|a + b| - 1] == a + b[..n];
    }
  }

  /** When each thread that waits has had one step, every one of them has its header, or is over. */
  lemma {:induction false} HeadersRead(v: World, w: Threads, n: nat, parse: Parser)
    requires AllStandFor(v, w, parse) && n <= |w.threads| && forall i | 0 <= i < |w.threads| :: w.threads[i].Waiting?
    ensures ValidSchedule(Each(n), |w.threads|)
    ensures AllStandFor(v, RunThreads(w, Each(n), parse), parse)
    ensures forall i | 0 <= i < |w.threads| ::
              var t := RunThreads(w, Each(n), parse).threads[i]; if i < n then !t.Waiting? else t == w.threads[i]
    decreases n
  {
    if n > 0 {
      HeadersRead(v, w, n - 1, parse);
      assert Each(n)[..n - 1] == Each(n - 1);
      StepStandsFor(v, RunThreads(w, Each(n - 1), parse), n - 1, parse);
    }
  }

  ghost predicate NoneWaits(w: Threads) {
    forall i | 0 <= i < |w.threads| :: !w.threads[i].Waiting?
  }

  /** Behind their headers, threads and readers go step by step. */
  lemma {:induction false} ReadersAreThreads(v: World, w: Threads, schedule: seq<nat>, parse: Parser)
    requires AllStandFor(v, w, parse) && NoneWaits(w) && ValidSchedule(schedule, |w.threads|)
    ensures AllStandFor(RunReaders(v, schedule), RunThreads(w, schedule, parse), parse)
    ensures NoneWaits(RunThreads(w, schedule, parse))
  {
    if schedule != [] {
      var n := |schedule| - 1;
      ReadersAreThreads(v, w, schedule[..n], parse);
      var u, now := RunReaders(v, schedule[..n]), RunThreads(w, schedule[..n], parse);
      assert StandsFor(u.readers[schedule[n]], now.threads[schedule[n]], parse);
      StepStandsFor(u, now, schedule[n], parse);
    }
  }

  lemma StoppedEnds(r: Reader, t: Thread, s: State, parse: Parser)
    requires StandsFor(r, t, parse) && Stopped(r) && !t.Waiting?
    ensures NextThread(t, parse).Over? && Fed(s, t, parse) == s
  {
    if t.Reading? {
      ReadingAdvances(r, t, s, parse);
      var f := FrontOf(t.rest, t.hangsUp, parse);
      if f.Front? {
        assert r.left[0] == OutcomeOf(t.reg, f.doc);
      }
    }
  }

  /** Threads whose readers have stopped are over after one more step each, and push nothing in it. */
  lemma {:induction false} StoppedAreOver(v: World, w: Threads, n: nat, parse: Parser)
    requires AllStandFor(v, w, parse) && AllStopped(v.readers) && NoneWaits(w) && n <= |w.threads|
    ensures ValidSchedule(Each(n), |w.threads|)
    ensures var u := RunThreads(w, Each(n), parse);
            && u.shared == w.shared
            && forall i | 0 <= i < |w.threads| :: if i < n then u.threads[i].Over? else u.threads[i] == w.threads[i]
    decreases n
  {
    if n > 0 {
      StoppedAreOver(v, w, n - 1, parse);
      assert Each(n)[..n - 1] == Each(n - 1);
      assert StandsFor(v.readers[n - 1], w.threads[n - 1], parse) && Stopped(v.readers[n - 1]);
      StoppedEnds(v.readers[n - 1], w.threads[n - 1], w.shared, parse);
    }
  }

  lemma BeginStandsFor(s: State, connections: seq<Connection>, parse: Parser)
    ensures AllStandFor(ReadersFor(s, connections, parse), Begun(s, connections), parse)
    ensures forall i | 0 <= i < |connections| :: Begun(s, connections).threads[i].Waiting?
  {
  }

  /** A complete interleaving of the threads. */
  ghost predicate ThreadsComplete(s: State, connections: seq<Connection>, schedule: seq<nat>, parse: Parser) {
    ValidSchedule(schedule, |connections|) && AllOver(RunThreads(Begun(s, connections), schedule, parse))
  }

  /** For every complete interleaving of the readers there is one of the threads that ends in the same collector. */
  lemma CompleteForThreads(s: State, connections: seq<Connection>, schedule: seq<nat>, parse: Parser)
    returns (t: seq<nat>)
    requires Complete(ReadersFor(s, connections, parse), schedule)
    ensures ThreadsComplete(s, connections, t, parse)
    ensures RunThreads(Begun(s, connections), t, parse).shared
         == RunReaders(ReadersFor(s, connections, parse), schedule).shared
  {
    var n, v, w := |connections|, ReadersFor(s, connections, parse), Begun(s, connections);
    BeginStandsFor(s, connections, parse);
    HeadersRead(v, w, n, parse);
    var headed := RunThreads(w, Each(n), parse);
    ReadersAreThreads(v, headed, schedule, parse);
    var done := RunThreads(headed, schedule, parse);
    StoppedAreOver(RunReaders(v, schedule), done, n, parse);
    ThreadsJoin(w, Each(n), schedule, parse);
    ThreadsJoin(w, Each(n) + schedule, Each(n), parse);
    t := Each(n) + schedule + Each(n);
  }

  /** And the other way round. */
  lemma CompleteForReaders(s: State, connections: seq<Connection>, schedule: seq<nat>, parse: Parser)
    returns (t: seq<nat>)
    requires ThreadsComplete(s, connections, schedule, parse)
    ensures Complete(ReadersFor(s, connections, parse), t)
    ensures RunThreads(Begun(s, connections), schedule, parse).shared
         == RunReaders(ReadersFor(s, connections, parse), t).shared
  {
    BeginStandsFor(s, connections, parse);
    t := ThreadsAreReaders(ReadersFor(s, connections, parse), Begun(s, connections), schedule, parse);
    var v, w := RunReaders(ReadersFor(s, connections, parse), t), RunThreads(Begun(s, connections), schedule, parse);
    forall i | 0 <= i < |v.readers| ensures Stopped(v.readers[i]) {
      assert StandsFor(v.readers[i], w.threads[i], parse) && w.threads[i].Over?;
    }
  }

  /** All complete interleavings of the threads end in the same collector. */
  ghost predicate ThreadsEndAlike(s: State, connections: seq<Connection>, parse: Parser) {
    forall a, b | ThreadsComplete(s, connections, a, parse) && ThreadsComplete(s, connections, b, parse) ::
      RunThreads(Begun(s, connections), a, parse).shared == RunThreads(Begun(s, connections), b, parse).shared
  }

  /** On any connections: all complete interleavings of the threads end in the same collector exactly if of every two
      that name the same registered process one brings nothing, or both bring one and the same call. */
  lemma ThreadsConfluentIff(s: State, connections: seq<Connection>, parse: Parser)
    ensures ThreadsEndAlike(s, connections, parse) <==> Harmless(ReadersFor(s, connections, parse))
  {
    var v := ReadersFor(s, connections, parse);
    ConfluentIff(v);
    if AllEndAlike(v) {
      forall a, b | ThreadsComplete(s, connections, a, parse) && ThreadsComplete(s, connections, b, parse)
        ensures RunThreads(Begun(s, connections), a, parse).shared == RunThreads(Begun(s, connections), b, parse).shared
      {
        var x := CompleteForReaders(s, connections, a, parse);
        var y := CompleteForReaders(s, connections, b, parse);
        assert RunReaders(v, x).shared == RunReaders(v, y).shared;
      }
    }
    if ThreadsEndAlike(s, connections, parse) {
      forall a, b | Complete(v, a) && Complete(v, b)
        ensures RunReaders(v, a).shared == RunReaders(v, b).shared
      {
        var x := CompleteForThreads(s, connections, a, parse);
        var y := CompleteForThreads(s, connections, b, parse);
        assert RunThreads(Begun(s, connections), x, parse).shared == RunThreads(Begun(s, connections), y, parse).shared;
      }
    }
  }

  // ----- distinct headers -----

  /** No two headers name the same pid. */
  ghost predicate DistinctHeaders(connections: seq<Connection>, parse: Parser) {
    forall i, j | 0 <= i < j < |connections|
                  && Brought(connections[i], parse).Some? && Brought(connections[j], parse).Some? ::
      Brought(connections[i], parse).value.0 != Brought(connections[j], parse).value.0
  }

  /** Connection `i` brings `calls` to `p`. */
  ghost predicate Brings(connections: seq<Connection>, i: int, p: U32, calls: seq<ApiCall>, parse: Parser) {
    0 <= i < |connections| && Brought(connections[i], parse) == Some((p, calls))
  }

  ghost predicate Named(connections: seq<Connection>, p: U32, parse: Parser) {
    exists i, calls :: Brings(connections, i, p, calls, parse)
  }

  lemma DistinctIsHarmless(s: State, connections: seq<Connection>, parse: Parser)
    requires DistinctHeaders(connections, parse)
    ensures Harmless(ReadersFor(s, connections, parse))
  {
    var w := ReadersFor(s, connections, parse);
    forall i, j | 0 <= i < |w.readers| && 0 <= j < |w.readers| && i != j && w.readers[i].pid == w.readers[j].pid
      ensures Compatible(CallsOf(w.readers[i].left), CallsOf(w.readers[j].left))
    {
      BroughtByReader(connections[i], parse);
      BroughtByReader(connections[j], parse);
    }
  }

  lemma {:induction false} PendingNone(readers: seq<Reader>, p: U32)
    requires forall j | 0 <= j < |readers| && readers[j].pid == p :: CallsOf(readers[j].left) == []
    ensures Pending(readers, p) == []
  {
    if readers != [] {
      assert forall j | 0 <= j < |readers[1..]| :: readers[1..][j] == readers[j + 1];
      PendingNone(readers[1..], p);
    }
  }

  lemma PendingOne(readers: seq<Reader>, i: nat, p: U32)
    requires i < |readers| && readers[i].pid == p
    requires forall j | 0 <= j < |readers| && j != i && readers[j].pid == p :: CallsOf(readers[j].left) == []
    ensures Pending(readers, p) == CallsOf(readers[i].left)
  {
    PendingAt(readers, i, readers[i], p);
    assert readers[i := readers[i]] == readers;
    var front, back := readers[..i], readers[i + 1..];
    assert forall j | 0 <= j < |front| :: front[j] == readers[j];
    assert forall j | 0 <= j < |back| :: back[j] == readers[i + 1 + j];
    PendingNone(front, p);
    PendingNone(back, p);
  }

  /** With distinct headers what is to come for a process is what its connection brings. */
  lemma BroughtIsPending(s: State, connections: seq<Connection>, p: U32, parse: Parser)
    requires DistinctHeaders(connections, parse)
    ensures !Named(connections, p, parse) ==> Pending(ReadersFor(s, connections, parse).readers, p) == []
    ensures forall i, calls | Brings(connections, i, p, calls, parse) ::
              Pending(ReadersFor(s, connections, parse).readers, p) == calls
  {
    var readers := ReadersFor(s, connections, parse).readers;
    if !Named(connections, p, parse) {
      forall j | 0 <= j < |readers| && readers[j].pid == p ensures CallsOf(readers[j].left) == [] {
        BroughtByReader(connections[j], parse);
        var b := Brought(connections[j], parse);
        assert b.Some? ==> Brings(connections, j, b.value.0, b.value.1, parse);
      }
      PendingNone(readers, p);
    }
    forall i, calls | Brings(connections, i, p, calls, parse) ensures Pending(readers, p) == calls {
      BroughtByReader(connections[i], parse);
      forall j | 0 <= j < |readers| && j != i && readers[j].pid == p ensures CallsOf(readers[j].left) == [] {
        BroughtByReader(connections[j], parse);
      }
      PendingOne(readers, i, p);
    }
  }

  /** Threads whose headers name distinct pids are confluent: in every complete interleaving each registered process
      ends with its calls followed by what its connection brings, whichever pipe carried it, and the rest of the
      collector is as it was. */
  lemma ThreadsConfluent(s: State, connections: seq<Connection>, schedule: seq<nat>, parse: Parser)
    requires DistinctHeaders(connections, parse) && ValidSchedule(schedule, |connections|)
    requires AllOver(RunThreads(Begun(s, connections), schedule, parse))
    ensures var end := RunThreads(Begun(s, connections), schedule, parse).shared;
            && end.childLinks == s.childLinks && end.procs.Keys == s.procs.Keys
            && (forall p, i, calls | p in s.procs && Brings(connections, i, p, calls, parse) ::
                  end.procs[p] == WithCalls(s.procs[p], calls))
            && (forall p | p in s.procs && !Named(connections, p, parse) :: end.procs[p] == s.procs[p])
  {
    var v := ReadersFor(s, connections, parse);
    var t := ThreadsAreReaders(v, Begun(s, connections), schedule, parse);
    DistinctIsHarmless(s, connections, parse);
    HarmlessEnd(v, t);
    forall p | p in s.procs
      ensures Total(v, p) == WithCalls(s.procs[p], Pending(v.readers, p))
      ensures !Named(connections, p, parse) ==> Total(v, p) == s.procs[p]
      ensures forall i, calls | Brings(connections, i, p, calls, parse) :: Total(v, p) == WithCalls(s.procs[p], calls)
    {
      BroughtIsPending(s, connections, p, parse);
      NoneThenSame(s.procs[p]);
    }
  }

  // ----- the report at any moment -----

  lemma InvStep(s: State, a: Action)
    requires Inv(s)
    ensures Inv(After(s, a))
  {
    OrdersStep(s, a);
    EntriesStep(s, a);
    LinksStep(s, a);
  }

  lemma {:induction false} RunKeepsInv(w: Threads, schedule: seq<nat>, parse: Parser)
    requires Inv(w.shared) && ValidSchedule(schedule, |w.threads|)
    ensures Inv(RunThreads(w, schedule, parse).shared)
  {
    if schedule != [] {
      var n := |schedule| - 1;
      RunKeepsInv(w, schedule[..n], parse);
      var v := RunThreads(w, schedule[..n], parse);
      var t := v.threads[schedule[n]];
      if t.Reading? && FrontOf(t.rest, t.hangsUp, parse).Front? {
        var o := OutcomeOf(t.reg, FrontOf(t.rest, t.hangsUp, parse).doc);
        if o.Emits? { InvStep(v.shared, Push(t.pid, o.call)); }
      }
    }
  }

  ghost predicate HasFirst(now: ProcInfo, before: ProcInfo, calls: seq<ApiCall>, k: int) {
    0 <= k <= |calls| && now == WithCalls(before, calls[..k])
  }

  /** `now` is `before` with some more calls, a prefix of `calls`. */
  ghost predicate HasPrefix(now: ProcInfo, before: ProcInfo, calls: seq<ApiCall>) {
    exists k :: HasFirst(now, before, calls, k)
  }

  lemma PrefixFromTotal(now: ProcInfo, rest: seq<ApiCall>, before: ProcInfo, calls: seq<ApiCall>)
    requires WithCalls(now, rest) == WithCalls(before, calls) && before.calls <= now.calls
    requires now.threadIds == ThreadsOf(now.calls) && before.threadIds == ThreadsOf(before.calls)
    ensures HasPrefix(now, before, calls)
  {
    var k := |now.calls| - |before.calls|;
    var all := before.calls + calls;
    assert now.calls + rest == all && now.calls == all[..|now.calls|];
    assert now.calls == before.calls + calls[..k];
    assert ThreadsOf(before.calls + calls[..k]) == ThreadsOf(before.calls) + ThreadsOf(calls[..k]);
    assert HasFirst(now, before, calls, k);
  }

  /** At any moment of any interleaving each named process has its calls followed by a prefix of what its connection
      brings, and every other process is as it was. */
  lemma MomentShowsPrefixes(s: State, connections: seq<Connection>, schedule: seq<nat>, parse: Parser)
    requires Inv(s) && DistinctHeaders(connections, parse) && ValidSchedule(schedule, |connections|)
    ensures var now := RunThreads(Begun(s, connections), schedule, parse).shared;
            && now.procs.Keys == s.procs.Keys
            && (forall p, i, calls | p in s.procs && Brings(connections, i, p, calls, parse) ::
                  HasPrefix(now.procs[p], s.procs[p], calls))
            && (forall p | p in s.procs && !Named(connections, p, parse) :: now.procs[p] == s.procs[p])
  {
    var v := ReadersFor(s, connections, parse);
    var t := ThreadsAreReaders(v, Begun(s, connections), schedule, parse);
    DistinctIsHarmless(s, connections, parse);
    RunKeepsTotals(v, t);
    RunKeepsInv(Begun(s, connections), schedule, parse);
    var w := RunReaders(v, t);
    forall p | p in s.procs
      ensures forall i, calls | Brings(connections, i, p, calls, parse) ::
                HasPrefix(w.shared.procs[p], s.procs[p], calls)
      ensures !Named(connections, p, parse) ==> w.shared.procs[p] == s.procs[p]
    {
      BroughtIsPending(s, connections, p, parse);
      CallsOnlyGrow(v, t, p);
      assert Total(w, p) == Total(v, p);
      PrefixFromTotal(w.shared.procs[p], Pending(w.readers, p), s.procs[p], Pending(v.readers, p));
      if !Named(connections, p, parse) {
        var k :| HasFirst(w.shared.procs[p], s.procs[p], [], k);
        var none: seq<ApiCall> := [];
        assert none[..k] == none;
        NoneThenSame(s.procs[p]);
      }
    }
  }

  /** The entry of `p` describes `p` with a prefix of what its connection brings, or as it was if none names it. */
  ghost predicate EntryShows(e: ProcessEntry, before: ProcInfo, connections: seq<Connection>, p: U32, parse: Parser) {
    && (forall i, calls | Brings(connections, i, p, calls, parse) ::
          exists now :: HasPrefix(now, before, calls) && Describes(e, now))
    && (!Named(connections, p, parse) ==> Describes(e, before))
  }

  lemma EntryNow(entries: seq<ProcessEntry>, now: Procs, before: Procs, connections: seq<Connection>, p: U32,
                 parse: Parser)
    requires Lists(entries, now) && now.Keys == before.Keys && p in before
    requires forall i, calls | Brings(connections, i, p, calls, parse) :: HasPrefix(now[p], before[p], calls)
    requires !Named(connections, p, parse) ==> now[p] == before[p]
    ensures before[p].firstSeenOrder < |entries|
    ensures EntryShows(entries[before[p].firstSeenOrder], before[p], connections, p, parse)
  {
    assert now[p].firstSeenOrder < |entries| && Describes(entries[now[p].firstSeenOrder], now[p]);
    if i, calls :| Brings(connections, i, p, calls, parse) {
      assert Named(connections, p, parse);
      assert HasPrefix(now[p], before[p], calls);
    }
    assert now[p].firstSeenOrder == before[p].firstSeenOrder;
  }

  /** A report built while the readers of `connections` are anywhere in their streams, as after a drain that timed out,
      lists every process once, in first-seen order, each with a prefix of its own stream's calls. */
  method ReportNow(collector: AnalysisCollector, ghost h: seq<Action>, ghost connections: seq<Connection>,
                   ghost schedule: seq<nat>, ghost parse: Parser, valuesOrder: seq<U32>, rootsOrder: seq<U32>)
    returns (entries: seq<ProcessEntry>, tree: Option<seq<TreeNode>>)
    requires DistinctHeaders(connections, parse) && ValidSchedule(schedule, |connections|)
    requires collector.Value() == RunThreads(Begun(Run(h), connections), schedule, parse).shared
    requires Enumerates(valuesOrder, collector.procs) && Enumerates(rootsOrder, collector.procs)
    ensures |entries| == |Run(h).procs|
    ensures forall p | p in Run(h).procs ::
              Run(h).procs[p].firstSeenOrder < |entries|
              && EntryShows(entries[Run(h).procs[p].firstSeenOrder], Run(h).procs[p], connections, p, parse)
    ensures tree == ForestOf(collector.procs, collector.childLinks, rootsOrder)
  {
    Reachable(h);
    RunKeepsInv(Begun(Run(h), connections), schedule, parse);
    MomentShowsPrefixes(Run(h), connections, schedule, parse);
    entries, tree := Build(collector, valuesOrder, rootsOrder);
    ghost var before, now := Run(h).procs, collector.procs;
    assert |now| == |now.Keys| && |before| == |before.Keys|;
    forall p | p in before
      ensures before[p].firstSeenOrder < |entries|
              && EntryShows(entries[before[p].firstSeenOrder], before[p], connections, p, parse)
    {
      EntryNow(entries, now, before, connections, p, parse);
    }
  }
}
