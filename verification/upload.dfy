/** Uploading the sample: a reader on the controller, a four-slot channel, and a writer in the agent. */
module Upload {
  import opened Types

  datatype Chunk = Chunk(data: seq<Byte>, isFirst: bool, filename: string)

  const CHUNK_MAX: nat := 32 * 1024

  const SLOTS: nat := 4

  /** Why the producer stopped. */
  datatype Stop = EndOfFile | ReadError | SendError

  datatype Producer =
    | Reading
    | Sending(chunk: Chunk)
    | Stopped(why: Stop)

  datatype Consumer =
    | AwaitingFirst
    | Opening(first: Chunk)
    | Receiving
    | Writing(chunk: Chunk)
    | Flushing
    | Accepted
    | Refused(error: string)

  /** `made` and `taken` record the chunks the producer made and the consumer took, in order. */
  datatype State = State(
    unread: seq<Byte>, isFirst: bool, producer: Producer,
    queue: seq<Chunk>,
    consumer: Consumer, written: seq<Byte>,
    made: seq<Chunk>, taken: seq<Chunk>)

  /** One step of a side, with the outcome of the foreign call it waits for. */
  datatype Action =
    | Read(n: nat)                       // `read` returns n
    | ReadFails
    | Send                               // `send` completes
    | Take                               // `message` returns a chunk, or the end of the stream
    | StreamFails                        // `message` fails
    | Open(inside: bool, made: bool)   // the path stays in the directory; directory and file can be made
    | Write(n: nat)                      // `write_all` writes n bytes and fails unless that is all
    | Flush(ok: bool)

  const EMPTY_STREAM := "file stream is empty"
  const EMPTY_NAME := "filename empty"

  /** A name that trims to nothing. */
  predicate Blank(name: string) {
    forall c | c in name :: IsSpace(c)
  }

  function Start(source: seq<Byte>): State {
    State(source, true, Reading, [], AwaitingFirst, [], [], [])
  }

  predicate Gone(c: Consumer) {
    c.Accepted? || c.Refused?
  }

  /** When the call is over the stream is dropped, with what it holds. */
  function Refuse(s: State, error: string): State {
    s.(consumer := Refused(error), queue := [])
  }

  function Chunked(s: State, n: nat, name: string): Chunk
    requires n <= |s.unread|
  {
    Chunk(s.unread[..n], s.isFirst, if s.isFirst then name else "")
  }

  function ProducerStep(s: State, name: string, a: Action): State {
    match a
    case Read(n) =>
      if !s.producer.Reading? || n > CHUNK_MAX || n > |s.unread| || (n == 0 && s.unread != []) then s
      else if n == 0 then s.(producer := Stopped(EndOfFile))
      else
        var c := Chunked(s, n, name);
        s.(producer := Sending(c), unread := s.unread[n..], made := s.made + [c])
    case ReadFails =>
      if s.producer.Reading? then s.(producer := Stopped(ReadError)) else s
    case Send =>
      if !s.producer.Sending? then s
      else if Gone(s.consumer) then s.(producer := Stopped(SendError))
      else if |s.queue| < SLOTS then s.(producer := Reading, queue := s.queue + [s.producer.chunk], isFirst := false)
      else s
    case _ => s
  }

  function TakeStep(s: State): State {
    if !s.consumer.AwaitingFirst? && !s.consumer.Receiving? then s
    else if s.queue != [] then
      var c := s.queue[0];
      s.(queue := s.queue[1..], taken := s.taken + [c],
         consumer := if s.consumer.AwaitingFirst? then Opening(c) else Writing(c))
    else if !s.producer.Stopped? then s
    else if s.consumer.AwaitingFirst? then Refuse(s, EMPTY_STREAM)
    else s.(consumer := Flushing)
  }

  function ConsumerStep(s: State, a: Action): State {
    match a
    case Take => TakeStep(s)
    case StreamFails =>
      if s.consumer.AwaitingFirst? || s.consumer.Receiving? then Refuse(s, "stream error") else s
    case Open(inside, made) =>
      if !s.consumer.Opening? then s
      else if Blank(s.consumer.first.filename) then Refuse(s, EMPTY_NAME)
      else if !inside then Refuse(s, "filename invalid")
      else if !made then Refuse(s, "file error")
      else s.(consumer := Writing(s.consumer.first))
    case Write(n) =>
      if !s.consumer.Writing? || n > |s.consumer.chunk.data| then s
      else if n == |s.consumer.chunk.data|
      then s.(written := s.written + s.consumer.chunk.data, consumer := Receiving)
      else Refuse(s.(written := s.written + s.consumer.chunk.data[..n]), "write error")
    case Flush(ok) =>
      if !s.consumer.Flushing? then s
      else if ok then s.(consumer := Accepted)
      else Refuse(s, "flush error")
    case _ => s
  }

  function Step(s: State, name: string, a: Action): State {
    if a.Read? || a.ReadFails? || a.Send? then ProducerStep(s, name, a) else ConsumerStep(s, a)
  }

  function Run(s: State, name: string, actions: seq<Action>): State
    decreases |actions|
  {
    if actions == [] then s else Run(Step(s, name, actions[0]), name, actions[1..])
  }

  lemma {:induction false} RunJoin(s: State, name: string, a: seq<Action>, b: seq<Action>)
    ensures Run(s, name, a + b) == Run(Run(s, name, a), name, b)
    decreases |a|
  {
    if a == [] {
      assert a + b == b;
    } else {
      assert (a + b)[0] == a[0] && (a + b)[1..] == a[1..] + b;
      RunJoin(Step(s, name, a[0]), name, a[1..], b);
    }
  }

  // ----- conservation -----

  function Data(chunks: seq<Chunk>): seq<Byte> {
    if chunks == [] then [] else Data(chunks[..|chunks| - 1]) + chunks[|chunks| - 1].data
  }

  function SendingChunks(p: Producer): seq<Chunk> {
    if p.Sending? then [p.chunk] else []
  }

  /** The chunk the consumer has taken and not written. */
  function InHand(c: Consumer): seq<Chunk> {
    match c
    case Opening(first) => [first]
    case Writing(chunk) => [chunk]
    case _ => []
  }

  predicate ChunkFit(c: Chunk, i: nat, name: string) {
    && 0 < |c.data| <= CHUNK_MAX
    && c.isFirst == (i == 0)
    && c.filename == if i == 0 then name else ""
  }

  ghost predicate ChunksFit(made: seq<Chunk>, name: string) {
    forall i | 0 <= i < |made| :: ChunkFit(made[i], i, name)
  }

  /** What the producer side keeps whatever happens to the consumer. */
  ghost predicate ProducerInv(s: State, source: seq<Byte>, name: string) {
    && ChunksFit(s.made, name)
    && Data(s.made) + s.unread == source
    && (!s.producer.Stopped? ==> s.isFirst == (|s.made| == |SendingChunks(s.producer)|))
    && (s.producer.Sending? ==> |s.made| > 0 && s.made[|s.made| - 1] == s.producer.chunk)
    && (s.producer == Stopped(EndOfFile) ==> s.unread == [])
    && |s.queue| <= SLOTS
  }

  /** The chunks lie, in order, with the consumer, in the channel and with the producer. */
  ghost predicate InOrder(s: State) {
    && s.made == s.taken + s.queue + SendingChunks(s.producer)
    && s.producer != Stopped(SendError)
    && Data(s.taken) == s.written + Data(InHand(s.consumer))
  }

  /** What the consumer side keeps. */
  ghost predicate ConsumerInv(s: State, name: string) {
    && (!Gone(s.consumer) ==> InOrder(s))
    && (s.consumer.AwaitingFirst? ==> s.taken == [])
    && (s.consumer.Opening? ==> s.taken == [s.consumer.first] && s.written == [])
    && (s.consumer.Receiving? || s.consumer.Writing? || s.consumer.Flushing? || s.consumer.Accepted?
        ==> s.taken != [] && !Blank(name))
    && (s.consumer.Flushing? || s.consumer.Accepted? ==>
          s.producer.Stopped? && s.producer.why != SendError && s.taken == s.made && s.written == Data(s.made))
    && (s.consumer.Flushing? || Gone(s.consumer) ==> s.queue == [])
    && s.taken <= s.made && s.written <= Data(s.taken)
    && (s.consumer == Refused(EMPTY_STREAM) ==> s.made == [] && s.producer.Stopped?)
    && (Blank(name) ==> s.written == [])
  }

  ghost predicate Inv(s: State, source: seq<Byte>, name: string) {
    ProducerInv(s, source, name) && ConsumerInv(s, name)
  }

  lemma {:induction false} DataConcat(a: seq<Chunk>, b: seq<Chunk>)
    ensures Data(a + b) == Data(a) + Data(b)
  {
    if b == [] {
      assert a + b == a;
    } else {
      DataConcat(a, b[..|b| - 1]);
      var d := b[|b| - 1].data;
      assert (a + b)[..|a + b| - 1] == a + b[..|b| - 1] && (a + b)[|a + b| - 1].data == d;
      assert Data(b) == Data(b[..|b| - 1]) + d;
    }
  }

  lemma DataOne(c: Chunk)
    ensures Data([c]) == c.data
  {
    assert [c][..0] == [];
  }

  predicate CanRead(s: State, n: nat) {
    s.producer.Reading? && 0 < n <= CHUNK_MAX && n <= |s.unread|
  }

  lemma AppendData(made: seq<Chunk>, c: Chunk)
    ensures Data(made + [c]) == Data(made) + c.data
  {
    assert (made + [c])[..|made|] == made;
  }

  lemma CutUnread(made: seq<Chunk>, unread: seq<Byte>, c: Chunk)
    requires |c.data| <= |unread| && c.data == unread[..|c.data|]
    ensures Data(made + [c]) + unread[|c.data|..] == Data(made) + unread
    ensures Data(made) <= Data(made + [c])
  {
    AppendData(made, c);
    assert unread == c.data + unread[|c.data|..];
  }

  lemma FitChunksAppend(made: seq<Chunk>, c: Chunk, name: string)
    requires ChunksFit(made, name) && ChunkFit(c, |made|, name)
    ensures ChunksFit(made + [c], name)
  {
  }

  lemma ReadKeepsProducer(s: State, source: seq<Byte>, name: string, n: nat)
    requires ProducerInv(s, source, name) && CanRead(s, n)
    ensures ProducerInv(ProducerStep(s, name, Read(n)), source, name)
  {
    var c := Chunked(s, n, name);
    CutUnread(s.made, s.unread, c);
    assert ChunkFit(c, |s.made|, name);
    FitChunksAppend(s.made, c, name);
    assert SendingChunks(Sending(c)) == [c] && SendingChunks(s.producer) == [];
  }

  lemma ReadKeepsConsumer(s: State, name: string, n: nat)
    requires ConsumerInv(s, name) && CanRead(s, n)
    ensures ConsumerInv(ProducerStep(s, name, Read(n)), name)
  {
    var v := ProducerStep(s, name, Read(n));
    if !Gone(s.consumer) {
      assert s.made == s.taken + s.queue;
      assert v.made == v.taken + v.queue + SendingChunks(v.producer);
    }
  }

  lemma ReadKeeps(s: State, source: seq<Byte>, name: string, n: nat)
    requires Inv(s, source, name) && CanRead(s, n)
    ensures Inv(ProducerStep(s, name, Read(n)), source, name)
  {
    ReadKeepsProducer(s, source, name, n);
    ReadKeepsConsumer(s, name, n);
  }

  predicate CanSend(s: State) {
    s.producer.Sending? && !Gone(s.consumer) && |s.queue| < SLOTS
  }

  lemma SendKeepsProducer(s: State, source: seq<Byte>, name: string)
    requires ProducerInv(s, source, name) && CanSend(s)
    ensures ProducerInv(ProducerStep(s, name, Send), source, name)
  {
  }

  lemma MoveToQueue(taken: seq<Chunk>, queue: seq<Chunk>, c: Chunk)
    ensures taken + queue + [c] == taken + (queue + [c]) + []
  {
  }

  lemma SendKeepsOrder(s: State, name: string)
    requires InOrder(s) && CanSend(s)
    ensures InOrder(ProducerStep(s, name, Send))
  {
    MoveToQueue(s.taken, s.queue, s.producer.chunk);
  }

  lemma SendKeepsConsumer(s: State, name: string)
    requires ConsumerInv(s, name) && CanSend(s)
    ensures ConsumerInv(ProducerStep(s, name, Send), name)
  {
    SendKeepsOrder(s, name);
  }

  lemma SendKeeps(s: State, source: seq<Byte>, name: string)
    requires Inv(s, source, name)
    ensures Inv(ProducerStep(s, name, Send), source, name)
  {
    if CanSend(s) {
      SendKeepsProducer(s, source, name);
      SendKeepsConsumer(s, name);
    }
  }

  lemma StopKeeps(s: State, source: seq<Byte>, name: string, a: Action)
    requires Inv(s, source, name) && (a == Read(0) || a.ReadFails?)
    ensures Inv(ProducerStep(s, name, a), source, name)
  {
  }

  lemma RefusalKeeps(s: State, source: seq<Byte>, name: string, error: string)
    requires ProducerInv(s, source, name) && s.taken <= s.made && s.written <= Data(s.taken)
    requires error == EMPTY_STREAM ==> s.made == [] && s.producer.Stopped?
    requires Blank(name) ==> s.written == []
    ensures Inv(Refuse(s, error), source, name)
  {
  }

  lemma Taking(taken: seq<Chunk>, queue: seq<Chunk>, rest: seq<Chunk>)
    requires queue != []
    ensures taken + queue + rest == taken + [queue[0]] + queue[1..] + rest
    ensures Data(taken + [queue[0]]) == Data(taken) + queue[0].data && Data([queue[0]]) == queue[0].data
  {
    assert taken + queue == taken + [queue[0]] + queue[1..];
    DataConcat(taken, [queue[0]]);
    DataOne(queue[0]);
  }

  predicate Ready(s: State) {
    (s.consumer.AwaitingFirst? || s.consumer.Receiving?) && s.queue != []
  }

  lemma TakeKeepsOrder(s: State)
    requires InOrder(s) && Ready(s)
    ensures InOrder(TakeStep(s)) && TakeStep(s).taken <= s.made
    ensures TakeStep(s).written <= Data(TakeStep(s).taken)
  {
    Taking(s.taken, s.queue, SendingChunks(s.producer));
    assert Data(s.taken) == s.written;
  }

  lemma TakeKeepsProducer(s: State, source: seq<Byte>, name: string)
    requires ProducerInv(s, source, name) && Ready(s)
    ensures ProducerInv(TakeStep(s), source, name)
  {
  }

  lemma TakeChunkKeeps(s: State, source: seq<Byte>, name: string)
    requires Inv(s, source, name) && Ready(s)
    ensures Inv(TakeStep(s), source, name)
  {
    TakeKeepsProducer(s, source, name);
    TakeKeepsOrder(s);
    if s.consumer.AwaitingFirst? {
      assert TakeStep(s).taken == [s.queue[0]];
      assert Data(s.taken) == [];
    }
  }

  lemma TakeKeeps(s: State, source: seq<Byte>, name: string)
    requires Inv(s, source, name)
    ensures Inv(TakeStep(s), source, name)
  {
    if s.consumer.AwaitingFirst? || s.consumer.Receiving? {
      if s.queue != [] {
        TakeChunkKeeps(s, source, name);
      } else if s.producer.Stopped? {
        assert s.made == s.taken;
        if s.consumer.AwaitingFirst? {
          RefusalKeeps(s, source, name, EMPTY_STREAM);
        }
      }
    }
  }

  lemma OpenKeeps(s: State, source: seq<Byte>, name: string, inside: bool, made: bool)
    requires Inv(s, source, name)
    ensures Inv(ConsumerStep(s, Open(inside, made)), source, name)
  {
    if s.consumer.Opening? {
      assert s.made[0] == s.consumer.first;
      assert ChunkFit(s.made[0], 0, name);
      DataOne(s.consumer.first);
    }
  }

  lemma WriteKeeps(s: State, source: seq<Byte>, name: string, n: nat)
    requires Inv(s, source, name)
    ensures Inv(ConsumerStep(s, Write(n)), source, name)
  {
    if s.consumer.Writing? && n <= |s.consumer.chunk.data| {
      var d := s.consumer.chunk.data;
      DataOne(s.consumer.chunk);
      assert d[..|d|] == d && Data(s.taken) == s.written + d;
      assert d == d[..n] + d[n..];
      assert s.written + d == s.written + d[..n] + d[n..];
      if n < |d| {
        RefusalKeeps(s.(written := s.written + d[..n]), source, name, "write error");
      }
    }
  }

  lemma StepKeeps(s: State, source: seq<Byte>, name: string, a: Action)
    requires Inv(s, source, name)
    ensures Inv(Step(s, name, a), source, name)
  {
    match a {
      case Read(n) =>
        if n == 0 {
          StopKeeps(s, source, name, a);
        } else if s.producer.Reading? && n <= CHUNK_MAX && n <= |s.unread| {
          ReadKeeps(s, source, name, n);
        }
      case ReadFails => StopKeeps(s, source, name, a);
      case Send => SendKeeps(s, source, name);
      case Take => TakeKeeps(s, source, name);
      case StreamFails => RefusalKeeps(s, source, name, "stream error");
      case Open(inside, made) => OpenKeeps(s, source, name, inside, made);
      case Write(n) => WriteKeeps(s, source, name, n);
      case Flush(ok) => if !ok { RefusalKeeps(s, source, name, "flush error"); }
    }
  }

  lemma {:induction false} RunKeeps(s: State, source: seq<Byte>, name: string, actions: seq<Action>)
    requires Inv(s, source, name)
    ensures Inv(Run(s, name, actions), source, name)
    decreases |actions|
  {
    if actions != [] {
      StepKeeps(s, source, name, actions[0]);
      RunKeeps(Step(s, name, actions[0]), source, name, actions[1..]);
    }
  }

  lemma ChunksHoldData(made: seq<Chunk>, name: string)
    requires ChunksFit(made, name) && made != []
    ensures Data(made) != []
  {
    assert ChunkFit(made[|made| - 1], |made| - 1, name);
  }

  lemma Reachable(source: seq<Byte>, name: string, actions: seq<Action>)
    ensures Inv(Run(Start(source), name, actions), source, name)
  {
    RunKeeps(Start(source), source, name, actions);
  }

  lemma FilePrefix(s: State, source: seq<Byte>, name: string)
    requires Inv(s, source, name)
    ensures s.written <= source
  {
    var rest := s.made[|s.taken|..];
    assert s.made == s.taken + rest;
    DataConcat(s.taken, rest);
    assert s.written <= Data(s.taken) <= Data(s.made) <= source;
  }

  lemma SourceParts(s: State, source: seq<Byte>, name: string)
    requires Inv(s, source, name) && !Gone(s.consumer)
    ensures s.written + Data(InHand(s.consumer)) + Data(s.queue) + Data(SendingChunks(s.producer)) + s.unread == source
  {
    DataConcat(s.taken, s.queue);
    DataConcat(s.taken + s.queue, SendingChunks(s.producer));
  }

  /** In every run, until the consumer ends, what is written, in its hand, in the channel, in the producer's hand and
      unread make up the source; and at any time the file holds a prefix of it. */
  lemma UploadConserves(source: seq<Byte>, name: string, actions: seq<Action>)
    ensures var s := Run(Start(source), name, actions);
            && (!Gone(s.consumer) ==>
                  s.written + Data(InHand(s.consumer)) + Data(s.queue) + Data(SendingChunks(s.producer)) + s.unread
                  == source)
            && s.written <= source
            && |s.queue| <= SLOTS
            && ChunksFit(s.made, name)
  {
    Reachable(source, name, actions);
    var s := Run(Start(source), name, actions);
    FilePrefix(s, source, name);
    if !Gone(s.consumer) {
      SourceParts(s, source, name);
    }
  }

  /** An accepted upload is the whole source, unless a read error cut it, and then it is what had been read. */
  lemma AcceptedIsComplete(source: seq<Byte>, name: string, actions: seq<Action>)
    requires Run(Start(source), name, actions).consumer.Accepted?
    ensures var s := Run(Start(source), name, actions);
            && !Blank(name) && source != []
            && (s.producer == Stopped(EndOfFile) || s.producer == Stopped(ReadError))
            && (s.producer == Stopped(EndOfFile) ==> s.written == source)
            && s.written + s.unread == source && s.written != []
            && (s.written == source <==> s.unread == [])
  {
    Reachable(source, name, actions);
    var s := Run(Start(source), name, actions);
    ChunksHoldData(s.made, name);
  }

  ghost predicate EndsHonestly(s: State) {
    Gone(s.consumer) ==> s.taken != [] || s.consumer == Refused(EMPTY_STREAM)
  }

  lemma HonestStep(s: State, source: seq<Byte>, name: string, a: Action)
    requires Inv(s, source, name) && EndsHonestly(s) && a != StreamFails
    ensures EndsHonestly(Step(s, name, a))
  {
  }

  lemma {:induction false} NoStreamFailure(s: State, source: seq<Byte>, name: string, actions: seq<Action>)
    requires Inv(s, source, name) && EndsHonestly(s)
    requires forall i | 0 <= i < |actions| :: actions[i] != StreamFails
    ensures EndsHonestly(Run(s, name, actions))
    decreases |actions|
  {
    if actions != [] {
      StepKeeps(s, source, name, actions[0]);
      HonestStep(s, source, name, actions[0]);
      NoStreamFailure(Step(s, name, actions[0]), source, name, actions[1..]);
    }
  }

  /** When the stream itself does not fail: the call ends with "file stream is empty" exactly if it ends and no chunk
      was ever made, as for every empty source. */
  lemma EmptyStream(source: seq<Byte>, name: string, actions: seq<Action>)
    requires forall i | 0 <= i < |actions| :: actions[i] != StreamFails
    ensures var s := Run(Start(source), name, actions);
            && (s.consumer == Refused(EMPTY_STREAM) <==> Gone(s.consumer) && s.made == [])
            && (source == [] ==> s.made == [])
  {
    Reachable(source, name, actions);
    NoStreamFailure(Start(source), source, name, actions);
    var s := Run(Start(source), name, actions);
    if s.made != [] {
      ChunksHoldData(s.made, name);
    }
  }

  lemma FourSteps(s: State, name: string, a: Action, b: Action, c: Action, d: Action)
    ensures Run(s, name, [a, b, c, d]) == Step(Step(Step(Step(s, name, a), name, b), name, c), name, d)
  {
    assert [a, b, c, d][1..] == [b, c, d] && [b, c, d][1..] == [c, d] && [c, d][1..] == [d] && [d][1..] == [];
    var v := Step(Step(s, name, a), name, b);
    assert Run(s, name, [a, b, c, d]) == Run(v, name, [c, d]);
    assert Run(Step(v, name, c), name, [d]) == Run(Step(Step(v, name, c), name, d), name, []);
  }

  /** The first byte of two is on its way when the next read fails, and is taken. */
  lemma CutShort(a: Byte, b: Byte, name: string)
    ensures Run(Start([a, b]), name, [Read(1), Send, ReadFails, Take])
         == State([b], false, Stopped(ReadError), [], Opening(Chunk([a], true, name)), [],
                  [Chunk([a], true, name)], [Chunk([a], true, name)])
  {
    FourSteps(Start([a, b]), name, Read(1), Send, ReadFails, Take);
    assert [a, b][..1] == [a] && [a, b][1..] == [b];
    var c := Chunk([a], true, name);
    assert [] + [c] == [c] && [c][1..] == [];
  }

  lemma ShortIsWritten(s: State, name: string)
    requires s.consumer.Opening? && s.queue == [] && s.producer.Stopped? && s.written == []
    requires |s.consumer.first.data| == 1 && !Blank(s.consumer.first.filename)
    ensures var v := Run(s, name, [Open(true, true), Write(1), Take, Flush(true)]);
            v.consumer.Accepted? && v.written == s.consumer.first.data && v.unread == s.unread
  {
    FourSteps(s, name, Open(true, true), Write(1), Take, Flush(true));
    assert [] + s.consumer.first.data == s.consumer.first.data;
  }

  /** A run whose producer fails to read after the first byte of two: the agent accepts the one byte. */
  lemma TruncatedIsAccepted(a: Byte, b: Byte, name: string)
    requires !Blank(name)
    ensures var actions := [Read(1), Send, ReadFails, Take] + [Open(true, true), Write(1), Take, Flush(true)];
            var s := Run(Start([a, b]), name, actions);
            s.consumer.Accepted? && s.written == [a] && s.unread == [b]
  {
    RunJoin(Start([a, b]), name, [Read(1), Send, ReadFails, Take], [Open(true, true), Write(1), Take, Flush(true)]);
    CutShort(a, b, name);
    ShortIsWritten(Run(Start([a, b]), name, [Read(1), Send, ReadFails, Take]), name);
  }

  // ----- progress -----

  function ProducerRank(p: Producer): nat {
    match p
    case Reading => 1
    case Sending(_) => 5
    case Stopped(_) => 0
  }

  function ConsumerRank(c: Consumer): nat {
    match c
    case AwaitingFirst => 2
    case Opening(_) => 4
    case Receiving => 2
    case Writing(_) => 3
    case Flushing => 1
    case Accepted => 0
    case Refused(_) => 0
  }

  function Rank(s: State): nat {
    5 * |s.unread| + ProducerRank(s.producer) + 3 * |s.queue| + ConsumerRank(s.consumer)
  }

  lemma StepsDescend(s: State, name: string, a: Action)
    ensures Step(s, name, a) == s || Rank(Step(s, name, a)) < Rank(s)
  {
  }

  /** How many steps of a run do something. */
  function Moves(s: State, name: string, actions: seq<Action>): nat
    decreases |actions|
  {
    if actions == [] then 0
    else (if Step(s, name, actions[0]) == s then 0 else 1) + Moves(Step(s, name, actions[0]), name, actions[1..])
  }

  /** No run does more than a bounded number of steps. */
  lemma {:induction false} MovesBounded(s: State, name: string, actions: seq<Action>)
    ensures Moves(s, name, actions) + Rank(Run(s, name, actions)) <= Rank(s)
    decreases |actions|
  {
    if actions != [] {
      StepsDescend(s, name, actions[0]);
      MovesBounded(Step(s, name, actions[0]), name, actions[1..]);
    }
  }

  /** The step can happen without a failure of the file systems or the stream. */
  predicate Healthy(s: State, a: Action) {
    match a
    case ReadFails => false
    case StreamFails => false
    case Open(inside, made) => inside && made
    case Write(n) => s.consumer.Writing? && n == |s.consumer.chunk.data|
    case Flush(ok) => ok
    case _ => true
  }

  ghost predicate Stuck(s: State, name: string) {
    forall a | Healthy(s, a) :: Step(s, name, a) == s
  }

  lemma SomeStep(s: State, name: string)
    ensures Stuck(s, name) <==> s.producer.Stopped? && Gone(s.consumer)
  {
    if !s.producer.Stopped? || !Gone(s.consumer) {
      var a :=
        if s.producer.Reading? then Read(if |s.unread| <= CHUNK_MAX then |s.unread| else CHUNK_MAX)
        else if s.producer.Sending? && (Gone(s.consumer) || |s.queue| < SLOTS) then Send
        else match s.consumer
          case Opening(_) => Open(true, true)
          case Writing(c) => Write(|c.data|)
          case Flushing => Flush(true)
          case _ => Take;
      assert Healthy(s, a) && Step(s, name, a) != s;
    }
  }

  /** The two sides are never both blocked: without any failure something more can happen until both have ended; and
      every run gets there within `5 * |source| + 3` steps that do something. */
  lemma NeverBothBlocked(source: seq<Byte>, name: string, actions: seq<Action>)
    ensures var s := Run(Start(source), name, actions);
            && (Stuck(s, name) <==> s.producer.Stopped? && Gone(s.consumer))
            && Moves(Start(source), name, actions) <= 5 * |source| + 3
  {
    MovesBounded(Start(source), name, actions);
    SomeStep(Run(Start(source), name, actions), name);
  }

  ghost predicate HealthyRun(s: State, name: string, actions: seq<Action>)
    decreases |actions|
  {
    actions == [] || (Healthy(s, actions[0]) && HealthyRun(Step(s, name, actions[0]), name, actions[1..]))
  }

  ghost predicate Unfailed(s: State) {
    !s.consumer.Refused? && (s.producer.Stopped? ==> s.producer.why == EndOfFile)
  }

  /** The stream of a non-empty source that was read to its end is not empty. */
  lemma SomethingQueued(s: State, source: seq<Byte>, name: string)
    requires Inv(s, source, name) && source != []
    requires s.consumer.AwaitingFirst? && s.producer == Stopped(EndOfFile)
    ensures s.queue != []
  {
    assert Data(s.made) == Data(s.made) + s.unread == source;
    assert s.made == s.taken + s.queue + [] == s.queue;
  }

  /** A healthy file is opened. */
  lemma OpenGoesOn(s: State, source: seq<Byte>, name: string)
    requires Inv(s, source, name) && s.consumer.Opening? && !Blank(name)
    ensures ConsumerStep(s, Open(true, true)).consumer == Writing(s.consumer.first)
  {
    assert s.made[0] == s.consumer.first && ChunkFit(s.made[0], 0, name);
  }

  lemma HealthyStepStays(s: State, source: seq<Byte>, name: string, a: Action)
    requires Inv(s, source, name) && Unfailed(s) && Healthy(s, a) && source != [] && !Blank(name)
    ensures Unfailed(Step(s, name, a))
  {
    if a.Open? && s.consumer.Opening? {
      OpenGoesOn(s, source, name);
    }
    if a.Take? && s.consumer.AwaitingFirst? && s.producer.Stopped? {
      SomethingQueued(s, source, name);
    }
  }

  lemma {:induction false} HealthyRunStays(s: State, source: seq<Byte>, name: string, actions: seq<Action>)
    requires Inv(s, source, name) && Unfailed(s) && source != [] && !Blank(name)
    requires HealthyRun(s, name, actions)
    ensures Unfailed(Run(s, name, actions))
    decreases |actions|
  {
    if actions != [] {
      StepKeeps(s, source, name, actions[0]);
      HealthyStepStays(s, source, name, actions[0]);
      HealthyRunStays(Step(s, name, actions[0]), source, name, actions[1..]);
    }
  }

  /** Without failures, a non-empty sample with a name arrives whole, whatever the sizes of the reads and whoever
      moves first. */
  lemma HealthyUploadDelivers(source: seq<Byte>, name: string, actions: seq<Action>)
    requires source != [] && !Blank(name) && HealthyRun(Start(source), name, actions)
    ensures var s := Run(Start(source), name, actions);
            Stuck(s, name) <==> s.consumer.Accepted? && s.written == source
  {
    Reachable(source, name, actions);
    HealthyRunStays(Start(source), source, name, actions);
    SomeStep(Run(Start(source), name, actions), name);
  }

  // ----- the two loops, each while the other side goes on -----

  predicate ForProducer(a: Action) {
    a.Read? || a.ReadFails? || a.Send?
  }

  /** Steps of the producer only, or of the consumer only. */
  predicate Only(actions: seq<Action>, producer: bool) {
    forall k | 0 <= k < |actions| :: ForProducer(actions[k]) == producer
  }

  lemma {:induction false} ConsumerAlone(s: State, name: string, actions: seq<Action>)
    requires Only(actions, false)
    ensures var v := Run(s, name, actions);
            v.unread == s.unread && v.isFirst == s.isFirst && v.producer == s.producer && v.made == s.made
    decreases |actions|
  {
    if actions != [] {
      assert forall k | 0 <= k < |actions[1..]| :: actions[1..][k] == actions[k + 1];
      ConsumerAlone(Step(s, name, actions[0]), name, actions[1..]);
    }
  }

  lemma {:induction false} ProducerAlone(s: State, name: string, actions: seq<Action>)
    requires Only(actions, true)
    ensures var v := Run(s, name, actions);
            v.consumer == s.consumer && v.written == s.written && v.taken == s.taken
    decreases |actions|
  {
    if actions != [] {
      assert forall k | 0 <= k < |actions[1..]| :: actions[1..][k] == actions[k + 1];
      ProducerAlone(Step(s, name, actions[0]), name, actions[1..]);
    }
  }

  /** What a read that would return `wish` bytes returns: zero only at the end of the file, never more than the
      buffer or the file holds. */
  function ReadSize(wish: nat, left: nat): nat {
    var limit := if left <= CHUNK_MAX then left else CHUNK_MAX;
    if wish == 0 || limit < wish then limit else wish
  }

  /** The send of the producer waits for ever. */
  predicate SendWaits(s: State) {
    s.producer.Sending? && !Gone(s.consumer) && |s.queue| >= SLOTS
  }

  /** The next message does not come, and the stream does not end. */
  predicate MessageWaits(s: State) {
    (s.consumer.AwaitingFirst? || s.consumer.Receiving?) && s.queue == [] && !s.producer.Stopped?
  }

  /** One of the two sides, and how its calls turn out. The i-th read would return `wishes[i]` bytes and the read after
      them fails. The path is `inside`, the file can be `made`, the i-th write writes at most `writes[i]` bytes, and the
      stream fails after as many messages. */
  datatype Side =
    | Sender(wishes: seq<nat>)
    | Receiver(inside: bool, made: bool, writes: seq<nat>, flushed: bool)

  /** The next step of the side. */
  function Act(side: Side, s: State): Action {
    match side
    case Sender(wishes) =>
      if s.producer.Sending? then Send
      else if wishes == [] then ReadFails
      else Read(ReadSize(wishes[0], |s.unread|))
    case Receiver(inside, made, writes, flushed) =>
      match s.consumer
      case Opening(_) => Open(inside, made)
      case Writing(c) => Write(if writes == [] || |c.data| < writes[0] then |c.data| else writes[0])
      case Flushing => Flush(flushed)
      case _ => if writes == [] then StreamFails else Take
  }

  /** What is left of the side's outcomes after the step. */
  function Used(side: Side, a: Action): Side {
    if side.Sender? && a.Read? && side.wishes != [] then Sender(side.wishes[1..])
    else if side.Receiver? && a.Write? && side.writes != [] then side.(writes := side.writes[1..])
    else side
  }

  predicate Over(side: Side, s: State) {
    if side.Sender? then s.producer.Stopped? else Gone(s.consumer)
  }

  predicate Waits(side: Side, s: State) {
    if side.Sender? then SendWaits(s) else MessageWaits(s) && side.writes != []
  }

  predicate Others(side: Side, env: seq<seq<Action>>) {
    forall i | 0 <= i < |env| :: Only(env[i], !side.Sender?)
  }

  /** The steps of both sides, in order, from `s` on, while this side runs its code: before each step of its own the
      other side's next stretch of `env`; until it is over, waits for ever, or `env` is used up. */
  function Script(s: State, name: string, side: Side, env: seq<seq<Action>>): seq<Action>
    decreases |env|
  {
    if Over(side, s) || env == [] then []
    else
      var v := Run(s, name, env[0]);
      if Waits(side, v) then env[0]
      else
        var a := Act(side, v);
        env[0] + [a] + Script(Step(v, name, a), name, Used(side, a), env[1..])
  }

  /** After `actions` the two sides are at `s`, and what follows until the end of `whole` is the script of `side`. */
  ghost predicate OnScript(source: seq<Byte>, name: string, s: State, side: Side, env: seq<seq<Action>>,
                           actions: seq<Action>, whole: seq<Action>) {
    && s == Run(Start(source), name, actions) && Others(side, env)
    && whole == actions + Script(s, name, side, env)
  }

  /** The other side's stretch, and one step. */
  lemma Behind(source: seq<Byte>, name: string, s: State, actions: seq<Action>, others: seq<Action>, a: Action)
    requires s == Run(Start(source), name, actions)
    ensures Run(Start(source), name, actions + others) == Run(s, name, others)
    ensures Run(Start(source), name, actions + others + [a]) == Step(Run(s, name, others), name, a)
  {
    RunJoin(Start(source), name, actions, others);
    RunJoin(Start(source), name, actions + others, [a]);
    var v := Run(s, name, others);
    assert Run(v, name, [a]) == Run(Step(v, name, a), name, [a][1..]);
  }

  lemma Regroup(a: seq<Action>, b: seq<Action>, c: Action, d: seq<Action>)
    ensures a + (b + [c] + d) == a + b + [c] + d
  {
  }

  lemma OthersLater(side: Side, later: Side, env: seq<seq<Action>>)
    requires Others(side, env) && env != [] && later.Sender? == side.Sender?
    ensures Others(later, env[1..])
  {
    assert forall i | 0 <= i < |env[1..]| :: env[1..][i] == env[i + 1];
  }

  /** The script goes on behind a step of the side. */
  lemma Follow(source: seq<Byte>, name: string, s: State, side: Side, env: seq<seq<Action>>, actions: seq<Action>,
               whole: seq<Action>)
    requires OnScript(source, name, s, side, env, actions, whole) && env != [] && !Over(side, s)
    ensures var v := Run(s, name, env[0]);
            var a := Act(side, v);
            var all := actions + env[0] + [a];
            if Waits(side, v) then whole == actions + env[0] && Run(Start(source), name, whole) == v
            else OnScript(source, name, Step(v, name, a), Used(side, a), env[1..], all, whole)
  {
    var v := Run(s, name, env[0]);
    var a := Act(side, v);
    Behind(source, name, s, actions, env[0], a);
    if !Waits(side, v) {
      OthersLater(side, Used(side, a), env);
      Regroup(actions, env[0], a, Script(Step(v, name, a), name, Used(side, a), env[1..]));
    }
  }

  lemma ScriptOver(source: seq<Byte>, name: string, s: State, side: Side, env: seq<seq<Action>>, actions: seq<Action>,
                   whole: seq<Action>)
    requires OnScript(source, name, s, side, env, actions, whole) && (env == [] || Over(side, s))
    ensures whole == actions && Run(Start(source), name, whole) == s
  {
  }

  /** The channel between the two sides. */
  class Channel {
    var queue: seq<Chunk>
    var senderGone: bool
    var receiverGone: bool

    constructor (source: seq<Byte>)
      ensures Holds(Start(source))
    {
      queue, senderGone, receiverGone := [], false, false;
    }

    predicate Holds(s: State)
      reads this
    {
      queue == s.queue && senderGone == s.producer.Stopped? && receiverGone == Gone(s.consumer)
    }

    predicate Full()
      reads this
    {
      !receiverGone && |queue| >= SLOTS
    }

    method Send(c: Chunk) returns (ok: bool)
      requires !Full()
      modifies `queue
      ensures ok == !receiverGone && queue == if ok then old(queue) + [c] else old(queue)
    {
      ok := !receiverGone;
      if ok {
        queue := queue + [c];
      }
    }

    predicate Silent()
      reads this
    {
      queue == [] && !senderGone
    }

    method Message() returns (m: Option<Chunk>)
      requires !Silent()
      modifies `queue
      ensures if old(queue) == [] then m == None && queue == []
              else m == Some(old(queue)[0]) && queue == old(queue)[1..]
    {
      if queue == [] {
        return None;
      }
      m, queue := Some(queue[0]), queue[1..];
    }

    method DropSender()
      modifies `senderGone
      ensures senderGone
    {
      senderGone := true;
    }

    method DropReceiver()
      modifies `receiverGone, `queue
      ensures receiverGone && queue == []
    {
      receiverGone, queue := true, [];
    }

    /** The other side has its turn. */
    method Elapse(s: State, name: string, others: seq<Action>) returns (v: State)
      requires Holds(s)
      modifies this
      ensures v == Run(s, name, others) && Holds(v)
    {
      v := Run(s, name, others);
      queue, senderGone, receiverGone := v.queue, v.producer.Stopped?, Gone(v.consumer);
    }
  }

  /** The read: a chunk to send, or the end of the loop. */
  method ReadOne(ch: Channel, source: seq<Byte>, name: string, s: State, side: Side, env: seq<seq<Action>>,
                 unread: seq<Byte>, isFirst: bool, ghost actions: seq<Action>, ghost whole: seq<Action>)
    returns (v: State, chunk: Option<Chunk>, ghost all: seq<Action>)
    requires ch.Holds(s) && OnScript(source, name, s, side, env, actions, whole) && env != [] && side.Sender?
    requires s.producer.Reading? && s.unread == unread && s.isFirst == isFirst
    modifies ch
    ensures ch.Holds(v) && v.isFirst == isFirst
    ensures if chunk.Some?
            then v.producer == Sending(chunk.value) && unread == chunk.value.data + v.unread && side.wishes != []
                 && OnScript(source, name, v, Sender(side.wishes[1..]), env[1..], all, whole)
            else v.producer.Stopped? && v.unread == unread && v == Run(Start(source), name, whole)
  {
    v := ch.Elapse(s, name, env[0]);
    ConsumerAlone(s, name, env[0]);
    Follow(source, name, s, side, env, actions, whole);
    if side.wishes == [] {
      all := actions + env[0] + [ReadFails];
      v := Step(v, name, ReadFails);
      ch.DropSender();
      ScriptOver(source, name, v, side, env[1..], all, whole);
      return v, None, all;
    }
    var n := ReadSize(side.wishes[0], |unread|);
    all := actions + env[0] + [Read(n)];
    v := Step(v, name, Read(n));
    if n == 0 {
      ch.DropSender();
      ScriptOver(source, name, v, Sender(side.wishes[1..]), env[1..], all, whole);
      return v, None, all;
    }
    chunk := Some(Chunk(unread[..n], isFirst, if isFirst then name else ""));
  }

  /** A chunk on its way, unless the channel stays full or the receiver is gone. */
  method SendOne(ch: Channel, source: seq<Byte>, name: string, s: State, side: Side, env: seq<seq<Action>>,
                 chunk: Chunk, ghost actions: seq<Action>, ghost whole: seq<Action>)
    returns (v: State, sent: bool, ghost all: seq<Action>)
    requires ch.Holds(s) && OnScript(source, name, s, side, env, actions, whole) && env != [] && side.Sender?
    requires s.producer == Sending(chunk)
    modifies ch
    ensures ch.Holds(v) && v.unread == s.unread
    ensures if sent
            then v.producer.Reading? && !v.isFirst && OnScript(source, name, v, side, env[1..], all, whole)
            else (v.producer.Stopped? || SendWaits(v)) && v == Run(Start(source), name, whole)
  {
    v := ch.Elapse(s, name, env[0]);
    ConsumerAlone(s, name, env[0]);
    Follow(source, name, s, side, env, actions, whole);
    all := actions + env[0] + [Send];
    if ch.Full() {
      return v, false, all;
    }
    sent := ch.Send(chunk);
    v := Step(v, name, Send);
    if !sent {
      ch.DropSender();
      ScriptOver(source, name, v, side, env[1..], all, whole);
    }
  }

  method ProduceLoop(ch: Channel, source: seq<Byte>, name: string, wishes: seq<nat>, env: seq<seq<Action>>)
    returns (s: State, ghost actions: seq<Action>)
    requires ch.Holds(Start(source)) && |env| == 2 * |wishes| + 1 && Others(Sender(wishes), env)
    modifies ch
    ensures actions == Script(Start(source), name, Sender(wishes), env) && s == Run(Start(source), name, actions)
    ensures ch.Holds(s) && (s.producer.Stopped? || SendWaits(s))
  {
    actions := Script(Start(source), name, Sender(wishes), env);
    s := Start(source);
    var unread, isFirst := source, true;
    ghost var sofar := [];
    assert sofar + actions == actions;
    var i := 0;
    while true
      invariant i <= |wishes| && ch.Holds(s)
      invariant OnScript(source, name, s, Sender(wishes[i..]), env[2 * i..], sofar, actions)
      invariant s.producer.Reading? && s.unread == unread && s.isFirst == isFirst
      decreases |wishes| - i
    {
      var chunk, sent;
      s, chunk, sofar :=
        ReadOne(ch, source, name, s, Sender(wishes[i..]), env[2 * i..], unread, isFirst, sofar, actions);
      if chunk.None? {
        return;
      }
      unread := unread[|chunk.value.data|..];
      assert wishes[i..][1..] == wishes[i + 1..] && env[2 * i..][1..] == env[2 * i + 1..];
      s, sent, sofar :=
        SendOne(ch, source, name, s, Sender(wishes[i + 1..]), env[2 * i + 1..], chunk.value, sofar, actions);
      if !sent {
        return;
      }
      assert env[2 * i + 1..][1..] == env[2 * (i + 1)..];
      isFirst := false;
      i := i + 1;
    }
  }

  /** The loop of the producer, while the consumer does the next stretch of `env` before each of its steps. It follows
      its script to its end, or until a send waits for ever, and it has cut the source into fit chunks and lost
      nothing. */
  method Produce(ch: Channel, source: seq<Byte>, name: string, wishes: seq<nat>, env: seq<seq<Action>>)
    returns (s: State, ghost actions: seq<Action>)
    requires ch.Holds(Start(source)) && |env| == 2 * |wishes| + 1 && Others(Sender(wishes), env)
    modifies ch
    ensures actions == Script(Start(source), name, Sender(wishes), env) && s == Run(Start(source), name, actions)
    ensures ch.Holds(s) && (s.producer.Stopped? || SendWaits(s))
    ensures ChunksFit(s.made, name) && Data(s.made) + s.unread == source
  {
    s, actions := ProduceLoop(ch, source, name, wishes, env);
    Reachable(source, name, actions);
  }

  /** A message, the end of the stream, or neither. */
  method Next(ch: Channel, source: seq<Byte>, name: string, s: State, side: Side, env: seq<seq<Action>>,
              ghost actions: seq<Action>, ghost whole: seq<Action>)
    returns (v: State, left: bool, m: Option<Chunk>, ghost all: seq<Action>)
    requires ch.Holds(s) && OnScript(source, name, s, side, env, actions, whole) && env != [] && side.Receiver?
    requires s.consumer.AwaitingFirst? || s.consumer.Receiving?
    modifies ch
    ensures ch.Holds(v) && v.written == s.written
    ensures left ==> v == Run(Start(source), name, whole) && (v.consumer.Refused? || MessageWaits(v))
    ensures !left ==> OnScript(source, name, v, side, env[1..], all, whole) && side.writes != []
    ensures !left && m.None? ==> s.consumer.Receiving? && v.consumer.Flushing?
    ensures m.Some? ==> v.consumer == if s.consumer.AwaitingFirst? then Opening(m.value) else Writing(m.value)
  {
    v := ch.Elapse(s, name, env[0]);
    ProducerAlone(s, name, env[0]);
    Follow(source, name, s, side, env, actions, whole);
    m, left := None, side.writes == [];
    if left {
      all := actions + env[0] + [StreamFails];
      v := Step(v, name, StreamFails);
      ch.DropReceiver();
      ScriptOver(source, name, v, side, env[1..], all, whole);
      return;
    }
    all := actions + env[0] + [Take];
    if ch.Silent() {
      left := true;
      return;
    }
    m := ch.Message();
    v := Step(v, name, Take);
    if m.None? && s.consumer.AwaitingFirst? {
      left := true;
      ch.DropReceiver();
      ScriptOver(source, name, v, side, env[1..], all, whole);
    }
  }

  /** The first message: the checks on its name, and the file. */
  method OpenFirst(ch: Channel, source: seq<Byte>, name: string, s: State, side: Side, env: seq<seq<Action>>,
                   first: Chunk, ghost actions: seq<Action>, ghost whole: seq<Action>)
    returns (v: State, made: bool, ghost all: seq<Action>)
    requires ch.Holds(s) && OnScript(source, name, s, side, env, actions, whole) && env != [] && side.Receiver?
    requires s.consumer == Opening(first)
    modifies ch
    ensures ch.Holds(v) && v.written == s.written
    ensures made == (!Blank(first.filename) && side.inside && side.made)
    ensures if made then v.consumer == Writing(first) && OnScript(source, name, v, side, env[1..], all, whole)
            else v.consumer.Refused? && v == Run(Start(source), name, whole)
  {
    v := ch.Elapse(s, name, env[0]);
    ProducerAlone(s, name, env[0]);
    Follow(source, name, s, side, env, actions, whole);
    all := actions + env[0] + [Open(side.inside, side.made)];
    v := Step(v, name, Open(side.inside, side.made));
    made := !Blank(first.filename) && side.inside && side.made;
    if !made {
      ch.DropReceiver();
      ScriptOver(source, name, v, side, env[1..], all, whole);
    }
  }

  method WriteOne(ch: Channel, source: seq<Byte>, name: string, s: State, side: Side, env: seq<seq<Action>>,
                  chunk: Chunk, file: seq<Byte>, ghost actions: seq<Action>, ghost whole: seq<Action>)
    returns (v: State, grown: seq<Byte>, wrote: bool, ghost all: seq<Action>)
    requires ch.Holds(s) && OnScript(source, name, s, side, env, actions, whole) && env != [] && side.Receiver?
    requires s.consumer == Writing(chunk) && s.written == file && side.writes != []
    modifies ch
    ensures ch.Holds(v) && v.written == grown
    ensures wrote == (|chunk.data| <= side.writes[0])
    ensures if wrote
            then v.consumer.Receiving? && grown == file + chunk.data
                 && OnScript(source, name, v, side.(writes := side.writes[1..]), env[1..], all, whole)
            else v.consumer.Refused? && v == Run(Start(source), name, whole)
  {
    v := ch.Elapse(s, name, env[0]);
    ProducerAlone(s, name, env[0]);
    Follow(source, name, s, side, env, actions, whole);
    wrote := |chunk.data| <= side.writes[0];
    var n := if wrote then |chunk.data| else side.writes[0];
    grown := file + chunk.data[..n];
    all := actions + env[0] + [Write(n)];
    v := Step(v, name, Write(n));
    assert chunk.data[..|chunk.data|] == chunk.data;
    if !wrote {
      ch.DropReceiver();
      ScriptOver(source, name, v, side.(writes := side.writes[1..]), env[1..], all, whole);
    }
  }

  method Finish(ch: Channel, source: seq<Byte>, name: string, s: State, side: Side, env: seq<seq<Action>>,
                ghost actions: seq<Action>, ghost whole: seq<Action>)
    returns (v: State)
    requires ch.Holds(s) && OnScript(source, name, s, side, env, actions, whole) && env != [] && side.Receiver?
    requires s.consumer.Flushing?
    modifies ch
    ensures ch.Holds(v) && v.written == s.written && v == Run(Start(source), name, whole)
    ensures if side.flushed then v.consumer.Accepted? else v.consumer.Refused?
  {
    v := ch.Elapse(s, name, env[0]);
    ProducerAlone(s, name, env[0]);
    Follow(source, name, s, side, env, actions, whole);
    v := Step(v, name, Flush(side.flushed));
    ch.DropReceiver();
    ScriptOver(source, name, v, side, env[1..], actions + env[0] + [Flush(side.flushed)], whole);
    Reachable(source, name, whole);
  }

  method ReceiveLoop(ch: Channel, source: seq<Byte>, name: string, side: Side, env: seq<seq<Action>>)
    returns (s: State, file: seq<Byte>, total: nat, ghost actions: seq<Action>)
    requires ch.Holds(Start(source)) && side.Receiver? && |env| == 2 * |side.writes| + 2 && Others(side, env)
    modifies ch
    ensures actions == Script(Start(source), name, side, env) && s == Run(Start(source), name, actions)
    ensures ch.Holds(s) && s.written == file && (Gone(s.consumer) || MessageWaits(s))
    ensures s.consumer.Accepted? ==> total == |file| && side.inside && side.made && side.flushed
  {
    actions := Script(Start(source), name, side, env);
    s, file, total := Start(source), [], 0;
    var left, isFirst, rest := side, true, env;
    ghost var sofar := [];
    assert sofar + actions == actions;
    while true
      invariant ch.Holds(s) && OnScript(source, name, s, left, rest, sofar, actions)
      invariant left.Receiver? && left == side.(writes := left.writes)
      invariant |rest| == 2 * |left.writes| + (if isFirst then 2 else 1)
      invariant s.consumer == (if isFirst then AwaitingFirst else Receiving) && s.written == file
      invariant total == |file| && (!isFirst ==> side.inside && side.made)
      decreases |left.writes|
    {
      var over, m, ok;
      s, over, m, sofar := Next(ch, source, name, s, left, rest, sofar, actions);
      if over {
        return;
      }
      rest := rest[1..];
      if m.None? {
        s := Finish(ch, source, name, s, left, rest, sofar, actions);
        return;
      }
      if isFirst {
        s, ok, sofar := OpenFirst(ch, source, name, s, left, rest, m.value, sofar, actions);
        if !ok {
          return;
        }
        rest, isFirst := rest[1..], false;
      }
      s, file, ok, sofar := WriteOne(ch, source, name, s, left, rest, m.value, file, sofar, actions);
      if !ok {
        return;
      }
      rest, left := rest[1..], left.(writes := left.writes[1..]);
      total := total + |m.value.data|;
    }
  }

  /** The agent's side, while the producer does the next stretch of `env` before each of its steps. It follows its
      script until the call is over or a message never comes. If it accepts, it has counted what it wrote, which is all
      that was ever made of the source. */
  method Receive(ch: Channel, source: seq<Byte>, name: string, side: Side, env: seq<seq<Action>>)
    returns (s: State, file: seq<Byte>, total: nat, ghost actions: seq<Action>)
    requires ch.Holds(Start(source)) && side.Receiver? && |env| == 2 * |side.writes| + 2 && Others(side, env)
    modifies ch
    ensures actions == Script(Start(source), name, side, env) && s == Run(Start(source), name, actions)
    ensures ch.Holds(s) && s.written == file && (Gone(s.consumer) || MessageWaits(s))
    ensures s.consumer.Accepted? ==>
              total == |file| && file == Data(s.made) && !Blank(name) && side.inside && side.made && side.flushed
    ensures s.consumer == Refused(EMPTY_STREAM) ==> s.made == []
  {
    s, file, total, actions := ReceiveLoop(ch, source, name, side, env);
    Reachable(source, name, actions);
  }
}
