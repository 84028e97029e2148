/** The two kinds of byte stream the core is handed by Go's io package: a
    readable, closable upstream body (io.ReadCloser) and the writing end of an
    in-memory pipe (io.Pipe), whose reading end is the bytes written to it. */
module Streams {
  import opened Base

  /** Reading up to n bytes from a buffer: the bytes taken, the bytes left,
      and whether the read reports the end (an empty buffer read into a
      non-empty slice). */
  function Take(data: Bytes, n: nat): (r: (Bytes, Bytes, bool))
    ensures r.0 + r.1 == data
    ensures |r.0| == (if n < |data| then n else |data|)
    ensures r.2 <==> |data| == 0 && n > 0
  {
    var k := if n < |data| then n else |data|;
    (data[..k], data[k..], |data| == 0 && n > 0)
  }

  /** What io.ReadAll returns for a stream holding content that ends with
      fault (None for io.EOF, which io.ReadAll does not report). */
  function AllOf(content: Bytes, fault: Option<Error>): (r: Result<Bytes>)
    ensures r.Ok? <==> fault.None?
    ensures r.Ok? ==> r.value == content
  {
    if fault.None? then Ok(content) else Err(fault.value)
  }

  /** An upstream body: the bytes not yet read, the error the stream ends
      with once they are read (None stands for io.EOF), and what Close reports. */
  class Source {
    var rest: Bytes
    const fault: Option<Error>
    const closeFault: Option<Error>
    var closed: bool

    constructor (content: Bytes, fault: Option<Error>, closeFault: Option<Error>)
      ensures rest == content && this.fault == fault && this.closeFault == closeFault && !closed
    {
      rest := content;
      this.fault := fault;
      this.closeFault := closeFault;
      closed := false;
    }

    /** The error a read reports at the end of the stream. */
    function EndError(): Error {
      if fault.Some? then fault.value else EOF
    }

    /** Read into a slice of n bytes. */
    method Read(n: nat) returns (chunk: Bytes, err: Option<Error>)
      modifies this`rest
      ensures (chunk, rest, err.Some?) == Take(old(rest), n)
      ensures err.Some? ==> err.value == EndError()
    {
      var t := Take(rest, n);
      chunk, rest := t.0, t.1;
      err := if t.2 then Some(EndError()) else None;
    }

    /** io.ReadAll: every byte up to io.EOF, or the error the stream ends with. */
    method ReadAll() returns (r: Result<Bytes>)
      modifies this`rest
      ensures rest == []
      ensures r == AllOf(old(rest), fault)
    {
      r := AllOf(rest, fault);
      rest := [];
    }

    method Close() returns (err: Option<Error>)
      modifies this`closed
      ensures closed && err == closeFault
    {
      closed := true;
      err := closeFault;
    }
  }

  /** An io.Pipe seen from its writer: written is every byte handed to the
      reading end, in order. */
  class Pipe {
    var written: Bytes
    var writerClosed: bool
    var readerClosed: bool

    constructor ()
      ensures written == [] && !writerClosed && !readerClosed
    {
      written, writerClosed, readerClosed := [], false, false;
    }

    /** PipeWriter.Write: io.ErrClosedPipe once either end is closed. */
    method Write(p: Bytes) returns (n: nat, err: Option<Error>)
      modifies this`written
      ensures writerClosed || readerClosed ==> n == 0 && err == Some(ErrClosedPipe) && written == old(written)
      ensures !(writerClosed || readerClosed) ==> n == |p| && err.None? && written == old(written) + p
    {
      if writerClosed || readerClosed {
        n, err := 0, Some(ErrClosedPipe);
      } else {
        written := written + p;
        n, err := |p|, None;
      }
    }

    /** PipeWriter.Close, which never reports an error. */
    method CloseWriter()
      modifies this`writerClosed
      ensures writerClosed
    {
      writerClosed := true;
    }

    /** PipeReader.Close, done by the background consumer. */
    method CloseReader()
      modifies this`readerClosed
      ensures readerClosed
    {
      readerClosed := true;
    }
  }
}
