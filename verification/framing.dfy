/** The byte layer of a log stream: one header line, then length-prefixed frames. */
module Framing {
  import opened Types
  import opened RawPipe
  import BsonLog

  // ----- header -----

  function WordEnd(s: string): (k: nat)
    ensures k <= |s| && (forall i | 0 <= i < k :: !IsSpace(s[i])) && (k < |s| ==> IsSpace(s[k]))
  {
    if s == "" || IsSpace(s[0]) then 0 else 1 + WordEnd(s[1..])
  }

  function Words(s: string): seq<string>
    decreases |s|
  {
    if s == "" then []
    else if IsSpace(s[0]) then Words(s[1..])
    else [s[..WordEnd(s)]] + Words(s[WordEnd(s)..])
  }

  function Digits(s: string): Option<nat> {
    if s == "" then Some(0)
    else if !('0' <= s[|s| - 1] <= '9') then None
    else match Digits(s[..|s| - 1])
      case None => None
      case Some(n) => Some(10 * n + (s[|s| - 1] - '0') as nat)
  }

  /** Parsing an unsigned 32-bit number: an optional plus sign, at least one digit, no overflow. */
  function ParseU32(s: string): Option<U32> {
    var t := if s != "" && s[0] == '+' then s[1..] else s;
    if t != "" && Digits(t).Some? && Digits(t).value < 0x1_0000_0000 then Some(Digits(t).value) else None
  }

  function HeaderOf(line: string): (string, U32) {
    var parts := Words(line);
    (if |parts| > 0 then parts[0] else "",
     if |parts| > 1 && ParseU32(parts[1]).Some? then ParseU32(parts[1]).value else 0)
  }

  function Text(bytes: seq<Byte>): (s: string)
    ensures |s| == |bytes|
    ensures forall i | 0 <= i < |s| :: s[i] == bytes[i] as char
  {
    if bytes == [] then "" else [bytes[0] as char] + Text(bytes[1..])
  }

  const NEWLINE: Byte := 10

  /** The position of the first newline, or the length when there is none. */
  function LineEnd(bytes: seq<Byte>): (k: nat)
    ensures k <= |bytes| && NEWLINE !in bytes[..k] && (k < |bytes| ==> bytes[k] == NEWLINE)
  {
    if bytes == [] || bytes[0] == NEWLINE then 0 else
      var k := 1 + LineEnd(bytes[1..]);
      assert bytes[..k] == [bytes[0]] + bytes[1..][..k - 1];
      k
  }

  datatype Split = NoHeader | Header(proto: string, pid: U32, rest: seq<Byte>)

  /** The header of a stream and the bytes after it; a stream without a newline has none. */
  function SplitHeader(bytes: seq<Byte>): Split {
    var k := LineEnd(bytes);
    if k == |bytes| then NoHeader
    else
      var (proto, pid) := HeaderOf(Text(bytes[..k]));
      Header(proto, pid, bytes[k + 1..])
  }

  /** Reads the header one byte at a time. */
  method ReadHeader(pipe: NamedPipe) returns (r: IoResult<(string, U32)>)
    modifies pipe`pending
    ensures match SplitHeader(old(pipe.pending))
            case NoHeader => !r.Ok?
            case Header(proto, pid, rest) => r == Ok((proto, pid)) && pipe.pending == rest
  {
    var header := "";
    ghost var all, k := pipe.pending, 0;
    ghost var n := LineEnd(all);
    while true
      invariant 0 <= k <= n && pipe.pending == all[k..]
      invariant header == Text(all[..k])
      decreases n - k
    {
      var b := pipe.ReadExact(1);
      match b {
        case Eof => return Eof;
        case Failed => return Failed;
        case Ok(buf) =>
          assert buf[0] == all[k];
          if buf[0] == NEWLINE {
            break;
          }
          assert k < n;
          header := header + [buf[0] as char];
          assert header == Text(all[..k + 1]);
          k := k + 1;
      }
    }
    return Ok(HeaderOf(header));
  }

  lemma {:induction false} DecimalReadsBack(n: nat)
    ensures Digits(BsonLog.Decimal(n)) == Some(n)
  {
    var s := BsonLog.Decimal(n);
    if n < 10 {
      assert s[..|s| - 1] == "";
    } else {
      assert s[..|s| - 1] == BsonLog.Decimal(n / 10);
      DecimalReadsBack(n / 10);
    }
  }

  lemma FirstWord(w: string, tail: string)
    requires w != "" && forall c | c in w :: !IsSpace(c)
    requires tail != "" ==> IsSpace(tail[0])
    ensures Words(w + tail) == [w] + Words(tail)
  {
    var s := w + tail;
    var k := WordEnd(s);
    assert forall i | 0 <= i < |w| :: s[i] == w[i] && w[i] in w;
    assert tail != "" ==> s[|w|] == tail[0];
    assert s[..|w|] == w && s[|w|..] == tail;
  }

  /** The header line a monitored process writes names its own pid, and that is the pid the reader gets. */
  lemma HeaderNamesPid(proto: string, pid: U32)
    requires proto != "" && forall c | c in proto :: !IsSpace(c)
    ensures HeaderOf(proto + (" " + BsonLog.Decimal(pid))) == (proto, pid)
  {
    var d := BsonLog.Decimal(pid);
    FirstWord(proto, " " + d);
    FirstWord(d, "");
    assert (" " + d)[1..] == d && d + "" == d;
    assert d[0] in d;
    DecimalReadsBack(pid);
  }

  // ----- frames -----

  const MAX_FRAME: nat := 20 * 1024 * 1024

  function LittleEndian(b: seq<Byte>): (n: nat)
    requires |b| == 4
  {
    var b0: int, b1: int, b2: int, b3: int := b[0], b[1], b[2], b[3];
    b0 + 0x100 * b1 + 0x1_0000 * b2 + 0x100_0000 * b3
  }

  /** A frame as the writer makes it: its own length in the first four bytes, within the limits. */
  predicate IsFrame(f: seq<Byte>) {
    5 <= |f| <= MAX_FRAME && LittleEndian(f[..4]) == |f|
  }

  datatype FrameResult = Frame(bytes: seq<Byte>) | EndOfStream | Error

  /** The next frame of a stream, and the bytes after it. */
  function NextFrame(rest: seq<Byte>, hangsUp: bool): (r: (FrameResult, seq<Byte>))
    ensures r.0.Frame? ==> IsFrame(r.0.bytes) && rest == r.0.bytes + r.1
  {
    if |rest| < 4 then (if hangsUp then EndOfStream else Error, [])
    else
      var len := LittleEndian(rest[..4]);
      if len < 5 || len > MAX_FRAME then (Error, rest[4..])
      else if |rest| < len then (Error, [])
      else
        assert rest[..len][..4] == rest[..4];
        (Frame(rest[..len]), rest[len..])
  }

  /** `read_bson_frame` up to the document parser. */
  method ReadFrame(pipe: NamedPipe) returns (r: FrameResult)
    modifies pipe`pending
    ensures (r, pipe.pending) == NextFrame(old(pipe.pending), pipe.hangsUp)
  {
    ghost var all := pipe.pending;
    var prefix := pipe.ReadExact(4);
    match prefix {
      case Eof => return EndOfStream;
      case Failed => return Error;
      case Ok(lenBuf) =>
        var len := LittleEndian(lenBuf);
        if len < 5 || len > MAX_FRAME {
          return Error;
        }
        var body := pipe.ReadExact(len - 4);
        if !body.Ok? {
          return Error;
        }
        assert lenBuf + body.value == all[..len];
        return Frame(lenBuf + body.value);
    }
  }

  /** All frames of a stream, and whether it ended cleanly. The bytes left shrink with every frame. */
  function Frames(rest: seq<Byte>, hangsUp: bool): (seq<seq<Byte>>, FrameResult)
    decreases |rest|
  {
    var (f, after) := NextFrame(rest, hangsUp);
    if f.Frame? then
      var (fs, end) := Frames(after, hangsUp);
      ([f.bytes] + fs, end)
    else ([], f)
  }

  function Concat(fs: seq<seq<Byte>>): seq<Byte> {
    if fs == [] then [] else fs[0] + Concat(fs[1..])
  }

  lemma FrameThenRest(f: seq<Byte>, tail: seq<Byte>, hangsUp: bool)
    requires IsFrame(f)
    ensures Frames(f + tail, hangsUp) == ([f] + Frames(tail, hangsUp).0, Frames(tail, hangsUp).1)
  {
    var s := f + tail;
    assert s[..4] == f[..4] && s[..|f|] == f && s[|f|..] == tail;
  }

  /** Writing any frames and reading them back gives the same frames, then the end of the stream. */
  lemma {:induction false} RoundTrip(fs: seq<seq<Byte>>)
    requires forall f | f in fs :: IsFrame(f)
    ensures Frames(Concat(fs), true) == (fs, EndOfStream)
  {
    if fs != [] {
      FrameThenRest(fs[0], Concat(fs[1..]), true);
      RoundTrip(fs[1..]);
      assert fs == [fs[0]] + fs[1..];
    }
  }

  /** The number of frames that end at or before byte `cut`. */
  function WholeFrames(fs: seq<seq<Byte>>, cut: nat): (j: nat)
    ensures j <= |fs|
  {
    if fs == [] || cut < |fs[0]| then 0 else 1 + WholeFrames(fs[1..], cut - |fs[0]|)
  }

  lemma {:induction false} WholeFramesMeaning(fs: seq<seq<Byte>>, cut: nat)
    ensures var j := WholeFrames(fs, cut);
            |Concat(fs[..j])| <= cut && (j < |fs| ==> cut < |Concat(fs[..j + 1])|)
  {
    var j := WholeFrames(fs, cut);
    if fs != [] {
      if j == 0 {
        assert fs[..1][1..] == [];
      } else {
        WholeFramesMeaning(fs[1..], cut - |fs[0]|);
        assert fs[..j][1..] == fs[1..][..j - 1];
        if j < |fs| {
          assert fs[..j + 1][1..] == fs[1..][..j];
        }
      }
    }
  }

  /** The reader of the first `cut` bytes of a stream, `s`, sees the frames `kept`. The cut reads as the end of the
      stream when it falls on a frame boundary or inside a length prefix, and as an error inside a body. */
  ghost predicate Sees(s: seq<Byte>, kept: seq<seq<Byte>>, cut: nat) {
    && |Concat(kept)| <= cut
    && Frames(s, true) == (kept, if cut - |Concat(kept)| < 4 then EndOfStream else Error)
  }

  /** Of the stream of `fs` cut after `cut` bytes the reader sees the whole frames before the cut. */
  ghost predicate CutReads(fs: seq<seq<Byte>>, cut: nat)
    requires cut <= |Concat(fs)|
  {
    Sees(Concat(fs)[..cut], fs[..WholeFrames(fs, cut)], cut)
  }

  lemma SeesBehind(f: seq<Byte>, s: seq<Byte>, kept: seq<seq<Byte>>, cut: nat)
    requires IsFrame(f) && Sees(s, kept, cut)
    ensures Sees(f + s, [f] + kept, |f| + cut)
  {
    FrameThenRest(f, s, true);
    assert ([f] + kept)[1..] == kept;
  }

  lemma PrefixOfConcat(a: seq<Byte>, b: seq<Byte>, cut: nat)
    requires |a| <= cut <= |a + b|
    ensures (a + b)[..cut] == a + b[..cut - |a|]
  {
  }

  lemma FirstAndPrefix(fs: seq<seq<Byte>>, j: nat)
    requires j < |fs|
    ensures fs[..j + 1] == [fs[0]] + fs[1..][..j]
  {
  }

  lemma CutBehindFrame(fs: seq<seq<Byte>>, cut: nat)
    requires fs != [] && IsFrame(fs[0]) && |fs[0]| <= cut <= |Concat(fs)|
    requires CutReads(fs[1..], cut - |fs[0]|)
    ensures CutReads(fs, cut)
  {
    var rest := cut - |fs[0]|;
    var j := WholeFrames(fs[1..], rest);
    SeesBehind(fs[0], Concat(fs[1..])[..rest], fs[1..][..j], rest);
    PrefixOfConcat(fs[0], Concat(fs[1..]), cut);
    FirstAndPrefix(fs, j);
  }

  /** The beginning of a frame is no frame. */
  lemma PartOfFrame(f: seq<Byte>, cut: nat)
    requires IsFrame(f) && cut < |f|
    ensures Frames(f[..cut], true) == ([], if cut < 4 then EndOfStream else Error)
  {
    if 4 <= cut {
      assert f[..cut][..4] == f[..4];
    }
  }

  /** Cutting the stream anywhere keeps exactly the whole frames before the cut. */
  lemma {:induction false} Truncation(fs: seq<seq<Byte>>, cut: nat)
    requires forall f | f in fs :: IsFrame(f)
    requires cut <= |Concat(fs)|
    ensures CutReads(fs, cut)
  {
    if fs != [] {
      assert fs[0] in fs && forall f | f in fs[1..] :: f in fs;
      if cut < |fs[0]| {
        assert Concat(fs)[..cut] == fs[0][..cut] && fs[..0] == [];
        PartOfFrame(fs[0], cut);
      } else {
        Truncation(fs[1..], cut - |fs[0]|);
        CutBehindFrame(fs, cut);
      }
    }
  }

  /** When a pipe fails instead of closing, the same frames arrive and only the ending differs. */
  lemma {:induction false} FailingPipe(rest: seq<Byte>)
    ensures Frames(rest, false) == (Frames(rest, true).0, Error)
    decreases |rest|
  {
    var (f, after) := NextFrame(rest, true);
    if f.Frame? {
      FailingPipe(after);
    }
  }

  // ----- whole streams: header line and frames -----

  function Stream(line: seq<Byte>, fs: seq<seq<Byte>>): seq<Byte> {
    line + ([NEWLINE] + Concat(fs))
  }

  lemma {:induction false} LineEndAt(line: seq<Byte>, body: seq<Byte>)
    requires NEWLINE !in line
    ensures LineEnd(line + ([NEWLINE] + body)) == |line|
  {
    var s := line + ([NEWLINE] + body);
    if line == [] {
      assert s[0] == NEWLINE;
    } else {
      assert s[0] == line[0] && line[0] in line && s[1..] == line[1..] + ([NEWLINE] + body);
      LineEndAt(line[1..], body);
    }
  }

  lemma WrittenHeader(line: seq<Byte>, body: seq<Byte>)
    requires NEWLINE !in line
    ensures SplitHeader(line + ([NEWLINE] + body)) == Header(HeaderOf(Text(line)).0, HeaderOf(Text(line)).1, body)
  {
    var s := line + ([NEWLINE] + body);
    LineEndAt(line, body);
    assert s[..|line|] == line && s[|line| + 1..] == body;
  }

  /** Any header line and any frames, written one behind the other, split back into the words of that line and those
      frames, then the end of the stream. */
  lemma WholeStream(line: seq<Byte>, fs: seq<seq<Byte>>)
    requires NEWLINE !in line && forall f | f in fs :: IsFrame(f)
    ensures var s := SplitHeader(Stream(line, fs));
            s.Header? && (s.proto, s.pid) == HeaderOf(Text(line)) && Frames(s.rest, true) == (fs, EndOfStream)
  {
    WrittenHeader(line, Concat(fs));
    RoundTrip(fs);
  }

  /** A stream cut inside its header line has no header; cut behind it, it has the same header and the whole frames
      before the cut. */
  lemma CutStream(line: seq<Byte>, fs: seq<seq<Byte>>, cut: nat)
    requires NEWLINE !in line && forall f | f in fs :: IsFrame(f)
    requires cut <= |Stream(line, fs)|
    ensures var s := SplitHeader(Stream(line, fs)[..cut]);
            if cut <= |line| then s.NoHeader?
            else s.Header? && (s.proto, s.pid) == HeaderOf(Text(line))
                 && s.rest == Concat(fs)[..cut - |line| - 1] && CutReads(fs, cut - |line| - 1)
  {
    var s := Stream(line, fs)[..cut];
    if cut <= |line| {
      assert s == line[..cut];
      assert forall b | b in s :: b in line;
    } else {
      var rest := cut - |line| - 1;
      assert s == line + ([NEWLINE] + Concat(fs)[..rest]);
      WrittenHeader(line, Concat(fs)[..rest]);
      Truncation(fs, rest);
    }
  }
}
