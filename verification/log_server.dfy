/** The reader thread of one log pipe, and any number of them sharing the collector. */
module LogServer {
  import opened Types
  import opened BsonLog
  import opened Collector
  import opened RawPipe
  import Framing

  /** The bson library's document parser, applied to a whole frame. */
  type Parser = seq<Byte> -> Option<Document>

  // ----- what a stream holds -----

  /** The document at the front of the bytes, and the bytes behind it. */
  datatype FrontResult = Nothing | Front(doc: Document, after: seq<Byte>)

  function FrontOf(rest: seq<Byte>, hangsUp: bool, parse: Parser): (r: FrontResult)
    ensures r.Front? ==> |r.after| < |rest|
  {
    var (f, after) := Framing.NextFrame(rest, hangsUp);
    if f.Frame? && parse(f.bytes).Some? then Front(parse(f.bytes).value, after) else Nothing
  }

  /** The documents of a stream, up to the first bytes that are no frame or do not parse. */
  function Documents(rest: seq<Byte>, hangsUp: bool, parse: Parser): seq<Document>
    decreases |rest|
  {
    match FrontOf(rest, hangsUp, parse)
    case Nothing => []
    case Front(doc, after) => [doc] + Documents(after, hangsUp, parse)
  }

  /** `docs` are the parsed `fs`, in order, up to the first that does not parse. */
  ghost predicate ParsedUpTo(fs: seq<seq<Byte>>, docs: seq<Document>, parse: Parser) {
    && |docs| <= |fs|
    && (forall i | 0 <= i < |docs| :: parse(fs[i]) == Some(docs[i]))
    && (|docs| < |fs| ==> parse(fs[|docs|]).None?)
  }

  lemma OneMoreParsed(f: seq<Byte>, fs: seq<seq<Byte>>, d: Document, docs: seq<Document>, parse: Parser)
    requires ParsedUpTo(fs, docs, parse) && parse(f) == Some(d)
    ensures ParsedUpTo([f] + fs, [d] + docs, parse)
  {
    var gs, es := [f] + fs, [d] + docs;
    forall i | 0 <= i < |es| ensures parse(gs[i]) == Some(es[i]) {
      if i > 0 { assert gs[i] == fs[i - 1] && es[i] == docs[i - 1]; }
    }
  }

  /** The documents of a stream are its frames, parsed, up to the first frame that does not parse. */
  lemma {:induction false} DocumentsAreFrames(rest: seq<Byte>, hangsUp: bool, parse: Parser)
    ensures ParsedUpTo(Framing.Frames(rest, hangsUp).0, Documents(rest, hangsUp, parse), parse)
    decreases |rest|
  {
    var (f, after) := Framing.NextFrame(rest, hangsUp);
    if f.Frame? && parse(f.bytes).Some? {
      DocumentsAreFrames(after, hangsUp, parse);
      OneMoreParsed(f.bytes, Framing.Frames(after, hangsUp).0, parse(f.bytes).value,
                    Documents(after, hangsUp, parse), parse);
    }
  }

  /** What the decoder does with each document in turn, starting from registry `m`. */
  function Outcomes(m: Schemas, docs: seq<Document>): (os: seq<Outcome>)
    ensures |os| == |docs|
    decreases |docs|
  {
    if docs == [] then [] else [OutcomeOf(m, docs[0])] + Outcomes(SchemasAfter(m, docs[0]), docs[1..])
  }

  function CallIn(o: Outcome): seq<ApiCall> {
    if o.Emits? then [o.call] else []
  }

  /** The calls a reader pushes: those of its documents in order, up to the one that makes it panic. */
  function CallsOf(os: seq<Outcome>): seq<ApiCall> {
    if os == [] || os[0].Panics? then []
    else CallIn(os[0]) + CallsOf(os[1..])
  }

  // ----- the declarative meaning of a stream -----

  /** Document `j` is an ingested info document for `idx`. */
  predicate Provides(docs: seq<Document>, j: int, idx: I32) {
    && 0 <= j < |docs| && IsInfo(docs[j])
    && Announced(docs[j]).Some? && Announced(docs[j]).value.0 == idx
  }

  /** Document `j` is the latest one before `i` to provide `idx`. */
  ghost predicate LatestProvider(docs: seq<Document>, i: int, idx: I32, j: int) {
    j < i && Provides(docs, j, idx) && forall k | j < k < i :: !Provides(docs, k, idx)
  }

  /** Document `i` is a call document whose index an earlier document `j` provides last. */
  ghost predicate CallUnder(docs: seq<Document>, i: int, j: int) {
    && 0 <= i < |docs| && !IsInfo(docs[i]) && GetI32(docs[i], "I").Some?
    && LatestProvider(docs, i, GetI32(docs[i], "I").value, j)
  }

  /** Every call document has the shape the decoder indexes, under the schema in force for it. */
  ghost predicate WellFormed(docs: seq<Document>) {
    forall i, j | CallUnder(docs, i, j) :: CallShape(docs[i]) && |Announced(docs[j]).value.1.argNames| >= 2
  }

  function RegistryAfter(docs: seq<Document>): Schemas {
    if docs == [] then map[] else SchemasAfter(RegistryAfter(docs[..|docs| - 1]), docs[|docs| - 1])
  }

  lemma RegistryNext(before: seq<Document>, doc: Document)
    ensures RegistryAfter(before + [doc]) == SchemasAfter(RegistryAfter(before), doc)
  {
    assert (before + [doc])[..|before|] == before;
  }

  lemma Shift(before: seq<Document>, docs: seq<Document>, i: nat)
    requires 0 < i <= |docs|
    ensures before + [docs[0]] + docs[1..][..i - 1] == before + docs[..i]
  {
  }

  lemma {:induction false} OutcomeAt(before: seq<Document>, docs: seq<Document>, i: nat)
    requires i < |docs|
    ensures Outcomes(RegistryAfter(before), docs)[i] == OutcomeOf(RegistryAfter(before + docs[..i]), docs[i])
    decreases |docs|
  {
    if i == 0 {
      assert before + docs[..0] == before;
    } else {
      var next, tail := before + [docs[0]], docs[1..];
      RegistryNext(before, docs[0]);
      Shift(before, docs, i);
      OutcomeAt(next, tail, i - 1);
    }
  }

  /** Looking up the registry is looking for the latest provider. */
  lemma {:induction false} RegistryIsLatest(docs: seq<Document>, i: nat, idx: I32)
    requires i <= |docs|
    ensures var m := RegistryAfter(docs[..i]);
            (idx in m <==> exists j :: LatestProvider(docs, i, idx, j))
            && forall j | LatestProvider(docs, i, idx, j) :: idx in m && m[idx] == Announced(docs[j]).value.1
  {
    if i > 0 {
      var h := i - 1;
      RegistryIsLatest(docs, h, idx);
      assert docs[..i][..h] == docs[..h] && docs[..i][h] == docs[h];
      if Provides(docs, h, idx) {
        assert LatestProvider(docs, i, idx, h);
      } else {
        assert RegistryAfter(docs[..i]) == SchemasAfter(RegistryAfter(docs[..h]), docs[h]);
        if j :| LatestProvider(docs, h, idx, j) {
          assert LatestProvider(docs, i, idx, j);
        }
        assert forall j :: LatestProvider(docs, i, idx, j) ==> LatestProvider(docs, h, idx, j);
      }
    }
  }

  /** What the decoder does with document `i` of a stream: it yields a call iff an earlier ingested info document has
      the same index; the call is the document read under the latest such schema; it panics iff the shape is wrong. */
  lemma OutcomeMeaning(docs: seq<Document>, i: nat)
    requires i < |docs|
    ensures Outcomes(map[], docs)[i].NoCall? <==> !exists j :: CallUnder(docs, i, j)
    ensures forall j | CallUnder(docs, i, j) ::
              var schema, o := Announced(docs[j]).value.1, Outcomes(map[], docs)[i];
              if CallShape(docs[i]) && |schema.argNames| >= 2
              then o.Emits? && Decodes(o.call, schema, docs[i])
              else o.Panics?
  {
    OutcomeAt([], docs, i);
    assert [] + docs[..i] == docs[..i];
    if GetI32(docs[i], "I").Some? {
      var idx := GetI32(docs[i], "I").value;
      RegistryIsLatest(docs, i, idx);
      if !IsInfo(docs[i]) {
        assert forall j :: CallUnder(docs, i, j) <==> LatestProvider(docs, i, idx, j);
      }
    }
  }

  /** A reader panics somewhere in its stream exactly when the stream is not well formed. */
  lemma PanicsIffIllFormed(docs: seq<Document>)
    ensures WellFormed(docs) <==> forall i | 0 <= i < |docs| :: !Outcomes(map[], docs)[i].Panics?
  {
    var os := Outcomes(map[], docs);
    if WellFormed(docs) {
      forall i | 0 <= i < |docs| ensures !os[i].Panics? {
        OutcomeMeaning(docs, i);
        if j :| CallUnder(docs, i, j) {
          assert os[i].Emits?;
        }
      }
    } else {
      var i, j :| CallUnder(docs, i, j) && !(CallShape(docs[i]) && |Announced(docs[j]).value.1.argNames| >= 2);
      OutcomeMeaning(docs, i);
      assert os[i].Panics?;
    }
  }

  lemma {:induction false} CallsConcat(a: seq<Outcome>, b: seq<Outcome>)
    requires forall i | 0 <= i < |a| :: !a[i].Panics?
    ensures CallsOf(a + b) == CallsOf(a) + CallsOf(b)
  {
    if a == [] {
      assert a + b == b;
    } else {
      assert (a + b)[1..] == a[1..] + b;
      CallsConcat(a[1..], b);
    }
  }

  lemma CallsJoin(os: seq<Outcome>, k: nat)
    requires k <= |os| && forall i | 0 <= i < k :: !os[i].Panics?
    ensures CallsOf(os) == CallsOf(os[..k]) + CallsOf(os[k..])
  {
    CallsConcat(os[..k], os[k..]);
    assert os == os[..k] + os[k..];
  }

  /** The pushed calls are the emitted ones in stream order: up to any document `k` the reader gets to, the calls
      of the documents before it come first; and nothing follows a panic. */
  lemma CallsInOrder(os: seq<Outcome>, k: nat)
    requires k <= |os| && forall i | 0 <= i < k :: !os[i].Panics?
    ensures CallsOf(os) == CallsOf(os[..k]) + CallsOf(os[k..])
    ensures k < |os| ==> CallsOf(os[k..]) == if os[k].Panics? then [] else CallIn(os[k]) + CallsOf(os[k + 1..])
  {
    CallsJoin(os, k);
    if k < |os| {
      assert os[k..][1..] == os[k + 1..];
    }
  }

  // ----- one reader -----

  function PushAll(s: State, pid: U32, calls: seq<ApiCall>): State
    decreases |calls|
  {
    if calls == [] then s else PushAll(After(s, Push(pid, calls[0])), pid, calls[1..])
  }

  function WithCalls(p: ProcInfo, calls: seq<ApiCall>): ProcInfo {
    p.(calls := p.calls + calls, threadIds := p.threadIds + ThreadsOf(calls))
  }

  lemma NoneThenSame(p: ProcInfo)
    ensures WithCalls(p, []) == p
  {
    assert p.calls + [] == p.calls && ThreadsOf([]) == {};
  }

  lemma OneThenRest(p: ProcInfo, call: ApiCall, calls: seq<ApiCall>)
    ensures WithCalls(WithCall(p, call), calls) == WithCalls(p, [call] + calls)
  {
    assert (p.calls + [call]) + calls == p.calls + ([call] + calls);
    assert ThreadsOf([call] + calls) == {call.threadId} + ThreadsOf(calls);
  }

  /** Pushing a list of calls appends it to the calls of that process and changes nothing else;
      calls of an unknown process vanish. */
  lemma {:induction false} PushAllAppends(s: State, pid: U32, calls: seq<ApiCall>)
    ensures var t := PushAll(s, pid, calls);
            t.childLinks == s.childLinks
            && t.procs == if pid in s.procs then s.procs[pid := WithCalls(s.procs[pid], calls)] else s.procs
    decreases |calls|
  {
    if calls == [] {
      if pid in s.procs {
        NoneThenSame(s.procs[pid]);
        assert s.procs[pid := s.procs[pid]] == s.procs;
      }
    } else {
      PushAllAppends(After(s, Push(pid, calls[0])), pid, calls[1..]);
      if pid in s.procs {
        OneThenRest(s.procs[pid], calls[0], calls[1..]);
        assert [calls[0]] + calls[1..] == calls;
      }
    }
  }

  /** What a whole connection contributes: the pid its header names and the calls of its documents. */
  function Contribution(bytes: seq<Byte>, hangsUp: bool, parse: Parser): Option<(U32, seq<ApiCall>)> {
    match Framing.SplitHeader(bytes)
    case NoHeader => None
    case Header(_, pid, rest) => Some((pid, CallsOf(Outcomes(map[], Documents(rest, hangsUp, parse)))))
  }

  /** The documents of a stream all of whose frames parse. */
  lemma DocumentsOfFrames(rest: seq<Byte>, hangsUp: bool, parse: Parser, docs: seq<Document>)
    requires |docs| == |Framing.Frames(rest, hangsUp).0|
    requires forall i | 0 <= i < |docs| :: parse(Framing.Frames(rest, hangsUp).0[i]) == Some(docs[i])
    ensures Documents(rest, hangsUp, parse) == docs
  {
    DocumentsAreFrames(rest, hangsUp, parse);
  }

  /** What a written stream contributes, cut anywhere: nothing if the cut is inside the header line, else the calls of
      the documents of the whole frames before the cut, for the pid of the line. */
  lemma WrittenContribution(line: seq<Byte>, fs: seq<seq<Byte>>, docs: seq<Document>, parse: Parser, cut: nat)
    requires Framing.NEWLINE !in line && forall f | f in fs :: Framing.IsFrame(f)
    requires |docs| == |fs| && forall i | 0 <= i < |fs| :: parse(fs[i]) == Some(docs[i])
    requires cut <= |Framing.Stream(line, fs)|
    ensures Contribution(Framing.Stream(line, fs)[..cut], true, parse)
         == if cut <= |line| then None
            else Some((Framing.HeaderOf(Framing.Text(line)).1,
                       CallsOf(Outcomes(map[], docs[..Framing.WholeFrames(fs, cut - |line| - 1)]))))
  {
    Framing.CutStream(line, fs, cut);
    if cut > |line| {
      var rest, j := Framing.Concat(fs)[..cut - |line| - 1], Framing.WholeFrames(fs, cut - |line| - 1);
      assert Framing.Frames(rest, true).0 == fs[..j];
      DocumentsOfFrames(rest, true, parse, docs[..j]);
    }
  }

  lemma FrontOutcome(m: Schemas, rest: seq<Byte>, hangsUp: bool, parse: Parser)
    ensures var f := FrontOf(rest, hangsUp, parse);
            CallsOf(Outcomes(m, Documents(rest, hangsUp, parse)))
            == if f.Nothing? || OutcomeOf(m, f.doc).Panics? then []
               else CallIn(OutcomeOf(m, f.doc))
                    + CallsOf(Outcomes(SchemasAfter(m, f.doc), Documents(f.after, hangsUp, parse)))
  {
    var f := FrontOf(rest, hangsUp, parse);
    if f.Front? {
      var docs := Documents(f.after, hangsUp, parse);
      assert ([f.doc] + docs)[1..] == docs;
      var os := Outcomes(SchemasAfter(m, f.doc), docs);
      assert ([OutcomeOf(m, f.doc)] + os)[1..] == os;
    }
  }

  /** The reader's loop over the frames after the header. What is still to be pushed never changes the total. */
  method ReadDocuments(collector: AnalysisCollector, pid: U32, server: NamedPipe, parse: Parser)
    modifies collector, server`pending
    ensures var docs := Documents(old(server.pending), server.hangsUp, parse);
            collector.Value() == PushAll(old(collector.Value()), pid, CallsOf(Outcomes(map[], docs)))
  {
    var reg := new SchemaRegistry();
    ghost var total := PushAll(collector.Value(), pid,
                               CallsOf(Outcomes(map[], Documents(server.pending, server.hangsUp, parse))));
    ghost var left := CallsOf(Outcomes(map[], Documents(server.pending, server.hangsUp, parse)));
    while true
      invariant left == CallsOf(Outcomes(reg.schemas, Documents(server.pending, server.hangsUp, parse)))
      invariant PushAll(collector.Value(), pid, left) == total
      decreases |server.pending|
    {
      FrontOutcome(reg.schemas, server.pending, server.hangsUp, parse);
      var frame := Framing.ReadFrame(server);
      if !frame.Frame? || parse(frame.bytes).None? {
        break;
      }
      var outcome := ProcessDoc(reg, parse(frame.bytes).value);
      if outcome.Panics? {
        break;
      }
      left := CallsOf(Outcomes(reg.schemas, Documents(server.pending, server.hangsUp, parse)));
      if outcome.Emits? {
        assert ([outcome.call] + left)[1..] == left;
        collector.PushCall(pid, outcome.call);
      } else {
        assert [] + left == left;
      }
    }
  }

  /** The reader thread: header, then frame after frame until the stream ends, breaks or panics the thread.
      The header's pid replaces the one the pipe was made for. */
  method ReadLoop(collector: AnalysisCollector, pipePid: U32, server: NamedPipe, connects: bool, parse: Parser)
    modifies collector, server`pending
    ensures var c := if connects then Contribution(old(server.pending), server.hangsUp, parse) else None;
            collector.Value() == if c.Some? then PushAll(old(collector.Value()), c.value.0, c.value.1)
                                 else old(collector.Value())
  {
    if !connects {
      return;
    }
    var header := Framing.ReadHeader(server);
    if header.Ok? {
      ReadDocuments(collector, header.value.1, server, parse);
    }
  }

  // ----- many readers -----

  /** A reader that has its header: the pid it pushes for and what the documents still to come will do. */
  datatype Reader = Reader(pid: U32, left: seq<Outcome>)

  datatype World = World(shared: State, readers: seq<Reader>)

  function Feed(s: State, pid: U32, o: Outcome): State {
    if o.Emits? then After(s, Push(pid, o.call)) else s
  }

  /** A reader with nothing more to do: at the end of its stream, or panicked. */
  predicate Stopped(r: Reader) {
    r.left == [] || r.left[0].Panics?
  }

  ghost predicate AllStopped(readers: seq<Reader>) {
    forall i | 0 <= i < |readers| :: Stopped(readers[i])
  }

  /** Reader `i` takes its next document. */
  function Step(w: World, i: nat): World
    requires i < |w.readers|
  {
    var r := w.readers[i];
    if Stopped(r) then w
    else World(Feed(w.shared, r.pid, r.left[0]), w.readers[i := r.(left := r.left[1..])])
  }

  ghost predicate ValidSchedule(schedule: seq<nat>, n: nat) {
    forall k | 0 <= k < |schedule| :: schedule[k] < n
  }

  function RunReaders(w: World, schedule: seq<nat>): (r: World)
    requires ValidSchedule(schedule, |w.readers|)
    ensures |r.readers| == |w.readers|
  {
    if schedule == [] then w
    else Step(RunReaders(w, schedule[..|schedule| - 1]), schedule[|schedule| - 1])
  }

  /** Feeding a call to one process leaves the table's keys, the links and every other process alone. */
  lemma FeedTouchesOne(s: State, pid: U32, o: Outcome)
    ensures var t := Feed(s, pid, o);
            t.procs.Keys == s.procs.Keys && t.childLinks == s.childLinks
            && forall p | p in s.procs && p != pid :: t.procs[p] == s.procs[p]
  {
    if o.Emits? && pid in s.procs {
      assert s.procs.Keys + {pid} == s.procs.Keys;
    }
  }

  /** Two readers of one process that begin with different calls: which steps first shows in the collector. */
  lemma SharedPidNotConfluent(w: World, x: ApiCall, y: ApiCall)
    requires |w.readers| == 2 && w.readers[0].pid == w.readers[1].pid && w.readers[0].pid in w.shared.procs
    requires [Emits(x)] <= w.readers[0].left && [Emits(y)] <= w.readers[1].left
    requires x != y
    ensures Step(Step(w, 0), 1).shared != Step(Step(w, 1), 0).shared
  {
    var p := w.readers[0].pid;
    var calls := w.shared.procs[p].calls;
    assert w.readers[0].left[0] == Emits(x) && w.readers[1].left[0] == Emits(y);
    var a, b := Step(Step(w, 0), 1).shared, Step(Step(w, 1), 0).shared;
    assert a.procs[p].calls == calls + [x] + [y] && b.procs[p].calls == calls + [y] + [x];
    assert a.procs[p].calls[|calls|] == x && b.procs[p].calls[|calls|] == y;
  }
}
