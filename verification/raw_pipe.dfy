/** The server end of a named pipe: how the outcomes of the operating system's read map to a reader's. */
module RawPipe {
  import opened Types

  /** `Eof` is the reader's "unexpected end of file"; `Failed` is any other error. */
  datatype IoResult<+T> = Ok(value: T) | Eof | Failed

  datatype Win32Error = BrokenPipe | MoreData | OtherError

  /** The peer's bytes still to come. The peer hangs up after them (`hangsUp`) or the pipe then fails. */
  class NamedPipe {
    var pending: seq<Byte>
    const hangsUp: bool

    constructor (bytes: seq<Byte>, hangsUp: bool)
      ensures pending == bytes && this.hangsUp == hangsUp
    {
      pending, this.hangsUp := bytes, hangsUp;
    }

    /** `ReadFile`: the system delivers any non-empty piece that fits, and may report a partial one as an error. */
    method ReadFile(len: nat) returns (error: Option<Win32Error>, piece: seq<Byte>)
      modifies this`pending
      ensures |piece| <= len && old(pending) == piece + pending
      ensures old(pending) != [] && len > 0 ==> piece != [] && (error.None? || error == Some(MoreData))
      ensures old(pending) == [] ==> error == Some(if hangsUp then BrokenPipe else OtherError)
      ensures old(pending) != [] && len == 0 ==> error.None? || error == Some(MoreData)
    {
      if pending == [] {
        return Some(if hangsUp then BrokenPipe else OtherError), [];
      }
      var n: nat := 0;
      if len > 0 {
        n :| 1 <= n <= len && n <= |pending| by { assert 1 <= 1 <= len && 1 <= |pending|; }
      }
      piece, pending := pending[..n], pending[n..];
      var partial: bool := *;
      error := if partial then Some(MoreData) else None;
    }

    /** `Read for NamedPipe`: a broken pipe is end of file, a partial message is an ordinary read. */
    method Read(len: nat) returns (r: IoResult<seq<Byte>>)
      modifies this`pending
      ensures !r.Eof?
      ensures r.Ok? ==> |r.value| <= len && old(pending) == r.value + pending
      ensures old(pending) != [] ==> r.Ok? && (len > 0 ==> r.value != [])
      ensures old(pending) == [] ==> pending == [] && (r == if hangsUp then Ok([]) else Failed)
    {
      var error, piece := ReadFile(len);
      match error {
        case None => return Ok(piece);
        case Some(BrokenPipe) => return Ok([]);
        case Some(MoreData) => return Ok(piece);
        case Some(OtherError) => return Failed;
      }
    }

    /** `read_exact`: reads until `len` bytes are there; an empty read before that is an unexpected end of file.
        The contract does not mention the pieces: the outcome is the same however the reads split the bytes. */
    method ReadExact(len: nat) returns (r: IoResult<seq<Byte>>)
      modifies this`pending
      ensures len <= |old(pending)| ==> r == Ok(old(pending)[..len]) && pending == old(pending)[len..]
      ensures len > |old(pending)| ==> r == (if hangsUp then Eof else Failed) && pending == []
    {
      var got := [];
      while |got| < len
        invariant |got| <= len
        invariant old(pending) == got + pending
        decreases len - |got|
      {
        var piece := Read(len - |got|);
        if !piece.Ok? {
          return Failed;
        }
        if piece.value == [] {
          return Eof;
        }
        got := got + piece.value;
      }
      return Ok(got);
    }
  }
}
