/** From the bytes of a log pipe to the entry of its process in the report. */
module Pipeline {
  import opened Types
  import opened BsonLog
  import opened Collector
  import opened LogServer
  import opened Report
  import opened Forest
  import Framing
  import RawPipe

  ghost predicate MeansUnder(docs: seq<Document>, i: nat, j: int, call: ApiCall) {
    && CallUnder(docs, i, j) && CallShape(docs[i]) && |Announced(docs[j]).value.1.argNames| >= 2
    && Decodes(call, Announced(docs[j]).value.1, docs[i])
  }

  ghost predicate MeansCall(docs: seq<Document>, i: nat, call: ApiCall) {
    exists j :: MeansUnder(docs, i, j, call)
  }

  /** `at` lists, in order, exactly the documents that are calls under an earlier schema; `calls` are what they mean
      under the latest such schema. */
  ghost predicate CallsAt(calls: seq<ApiCall>, docs: seq<Document>, at: seq<nat>) {
    && |at| == |calls|
    && (forall k | 0 <= k < |at| :: at[k] < |docs| && MeansCall(docs, at[k], calls[k]))
    && (forall k, l | 0 <= k < l < |at| :: at[k] < at[l])
    && (forall i, j | CallUnder(docs, i, j) :: i in at)
  }

  /** The calls of a well-formed stream: one for each document that yields one. */
  ghost predicate CallsOfDocuments(calls: seq<ApiCall>, docs: seq<Document>) {
    exists at: seq<nat> :: CallsAt(calls, docs, at)
  }

  /** Where the emitted calls of `os` stand. */
  function EmitPlaces(os: seq<Outcome>): seq<nat> {
    if os == [] then []
    else EmitPlaces(os[..|os| - 1]) + if os[|os| - 1].Emits? then [|os| - 1] else []
  }

  lemma CallsSnoc(os: seq<Outcome>)
    requires os != [] && forall i | 0 <= i < |os| :: !os[i].Panics?
    ensures CallsOf(os) == CallsOf(os[..|os| - 1]) + CallIn(os[|os| - 1])
  {
    var n := |os| - 1;
    CallsInOrder(os, n);
    assert os[n + 1..] == [] && CallIn(os[n]) + [] == CallIn(os[n]);
  }

  /** `at` lists the places of the emitted calls. */
  ghost predicate Places(at: seq<nat>, calls: seq<ApiCall>, os: seq<Outcome>) {
    && |at| == |calls|
    && (forall k | 0 <= k < |at| :: at[k] < |os| && os[at[k]] == Emits(calls[k]))
    && (forall k, l | 0 <= k < l < |at| :: at[k] < at[l])
    && (forall i | 0 <= i < |os| && os[i].Emits? :: i in at)
  }

  lemma OnePlaceMore(at: seq<nat>, calls: seq<ApiCall>, os: seq<Outcome>, o: Outcome)
    requires Places(at, calls, os)
    ensures Places(at + if o.Emits? then [|os|] else [], calls + CallIn(o), os + [o])
  {
    var more := at + if o.Emits? then [|os|] else [];
    forall i | 0 <= i < |os + [o]| && (os + [o])[i].Emits? ensures i in more {
      if i < |os| {
        assert os[i].Emits? && i in at;
      }
    }
  }

  lemma {:induction false} PlacesAndCalls(os: seq<Outcome>)
    requires forall i | 0 <= i < |os| :: !os[i].Panics?
    ensures Places(EmitPlaces(os), CallsOf(os), os)
  {
    if os != [] {
      PlacesAndCalls(os[..|os| - 1]);
      CallsSnoc(os);
      OnePlaceMore(EmitPlaces(os[..|os| - 1]), CallsOf(os[..|os| - 1]), os[..|os| - 1], os[|os| - 1]);
      assert os == os[..|os| - 1] + [os[|os| - 1]];
    }
  }

  lemma EmittedMeans(docs: seq<Document>, i: nat, call: ApiCall)
    requires i < |docs| && Outcomes(map[], docs)[i] == Emits(call)
    ensures MeansCall(docs, i, call)
  {
    OutcomeMeaning(docs, i);
    var j :| CallUnder(docs, i, j);
    assert MeansUnder(docs, i, j, call);
  }

  /** The calls a reader pushes for a well-formed stream are the declarative ones. */
  lemma CallsAreDocuments(docs: seq<Document>)
    requires WellFormed(docs)
    ensures CallsOfDocuments(CallsOf(Outcomes(map[], docs)), docs)
  {
    var os := Outcomes(map[], docs);
    forall i | 0 <= i < |os| ensures !os[i].Panics? {
      OutcomeMeaning(docs, i);
      if j :| CallUnder(docs, i, j) {
        assert os[i].Emits?;
      }
    }
    PlacesAndCalls(os);
    var at, calls := EmitPlaces(os), CallsOf(os);
    forall k | 0 <= k < |at| ensures at[k] < |docs| && MeansCall(docs, at[k], calls[k]) {
      EmittedMeans(docs, at[k], calls[k]);
    }
    forall i, j | CallUnder(docs, i, j) ensures i in at {
      OutcomeMeaning(docs, i);
    }
    assert CallsAt(calls, docs, at);
  }

  /** Every process has its entry; that of `pid` has `calls` after what `procs` holds. */
  ghost predicate Shows(entries: seq<ProcessEntry>, procs: Procs, pid: U32, calls: seq<ApiCall>)
    requires pid in procs
  {
    && |entries| == |procs|
    && forall p | p in procs ::
         procs[p].firstSeenOrder < |entries|
         && Describes(entries[procs[p].firstSeenOrder], if p == pid then WithCalls(procs[p], calls) else procs[p])
  }

  lemma PushedShows(h: seq<Action>, pid: U32, calls: seq<ApiCall>)
    requires pid in Run(h).procs
    ensures var after := PushAll(Run(h), pid, calls).procs;
            after.Keys == Run(h).procs.Keys
            && forall entries | Lists(entries, after) :: Shows(entries, Run(h).procs, pid, calls)
  {
    PushAllAppends(Run(h), pid, calls);
    var before, after := Run(h).procs, PushAll(Run(h), pid, calls).procs;
    assert after.Keys == before.Keys;
    assert |after| == |after.Keys| && |before| == |before.Keys|;
    forall entries | Lists(entries, after) ensures Shows(entries, before, pid, calls) {
      forall p | p in before
        ensures before[p].firstSeenOrder < |entries|
                && Describes(entries[before[p].firstSeenOrder],
                             if p == pid then WithCalls(before[p], calls) else before[p])
      {
        assert p in after && after[p].firstSeenOrder == before[p].firstSeenOrder;
      }
    }
  }

  lemma {:induction false} PushedIsReachable(h: seq<Action>, pid: U32, calls: seq<ApiCall>)
    ensures Inv(PushAll(Run(h), pid, calls))
    decreases |calls|
  {
    if calls == [] {
      Reachable(h);
    } else {
      var longer := h + [Push(pid, calls[0])];
      assert longer[..|longer| - 1] == h;
      PushedIsReachable(longer, pid, calls[1..]);
    }
  }

  /** End to end. After any history, the reader of one connection runs and the report is built, for any piecewise
      delivery of the bytes and any map orders. If the header names a registered pid, the entry of that process holds
      its earlier calls followed by those of the stream, which for a well-formed stream are the calls its documents
      mean; every other entry is what it would have been. */
  method ReadAndReport(collector: AnalysisCollector, ghost h: seq<Action>, pipePid: U32, server: RawPipe.NamedPipe,
                       parse: Parser, valuesOrder: seq<U32>, rootsOrder: seq<U32>, ghost pid: U32,
                       ghost calls: seq<ApiCall>)
    returns (entries: seq<ProcessEntry>)
    requires collector.Value() == Run(h)
    requires Enumerates(valuesOrder, collector.procs) && Enumerates(rootsOrder, collector.procs)
    requires Contribution(server.pending, server.hangsUp, parse) == Some((pid, calls)) && pid in collector.procs
    modifies collector, server`pending
    ensures Shows(entries, Run(h).procs, pid, calls)
    ensures Framing.SplitHeader(old(server.pending)).Header?
    ensures var docs := Documents(Framing.SplitHeader(old(server.pending)).rest, server.hangsUp, parse);
            WellFormed(docs) ==> CallsOfDocuments(calls, docs)
  {
    ghost var docs := Documents(Framing.SplitHeader(server.pending).rest, server.hangsUp, parse);
    if WellFormed(docs) {
      CallsAreDocuments(docs);
    }
    ReadLoop(collector, pipePid, server, true, parse);
    PushedIsReachable(h, pid, calls);
    PushedShows(h, pid, calls);
    var tree;
    entries, tree := Build(collector, valuesOrder, rootsOrder);
  }
}
