/** pkg/util/util.go: cache keys, request descriptions, the tee reader that
    copies a body into a pipe, and the lazy gzip reader. */
module Util {
  import opened Base
  import opened Strs
  import opened Kube
  import opened Streams

  /** KeyFunc: comp and resource are required; the four parts are joined as a path. */
  function KeyFunc(comp: string, resource: string, ns: string, name: string): (r: Result<string>)
    ensures r.Err? <==> comp == "" || resource == ""
  {
    if comp == "" || resource == "" then Err(Message("createKey: comp, resource can not be empty"))
    else Ok(JoinPath([comp, resource, ns, name]))
  }

  /** SplitKey: the fields of a key, assigned by how many '/'-separated parts it has. */
  function SplitKey(key: string): (string, string, string, string)
  {
    if |key| == 0 then ("", "", "", "")
    else
      var parts := Split(key, '/');
      if |parts| == 1 then (parts[0], "", "", "")
      else if |parts| == 2 then (parts[0], parts[1], "", "")
      else if |parts| == 3 then (parts[0], parts[1], "", parts[2])
      else if |parts| == 4 then (parts[0], parts[1], parts[2], parts[3])
      else ("", "", "", "")
  }

  lemma SplitKeyEmpty()
    ensures SplitKey("") == ("", "", "", "")
  {
  }

  /** A key with more than four parts splits into four empty fields. */
  lemma SplitKeyTooManyParts(key: string)
    requires |Split(key, '/')| > 4
    ensures SplitKey(key) == ("", "", "", "")
  {
  }

  /** SplitKey undoes KeyFunc for parts that are path elements, when comp and
      resource are given and a namespace only comes with a name. */
  lemma {:induction false} SplitKeyOfKeyFunc(comp: string, resource: string, ns: string, name: string)
    requires comp != "" && resource != ""
    requires PathElement(comp) && PathElement(resource) && PathElement(ns) && PathElement(name)
    requires ns != "" ==> name != ""
    ensures SplitKey(KeyFunc(comp, resource, ns, name).value) == (comp, resource, ns, name)
  {
    var parts := NonEmptyOfFour(comp, resource, ns, name);
    SplitJoin(parts, '/');
  }

  /** filepath.Join drops the empty namespace and name of a key. */
  lemma NonEmptyOfFour(comp: string, resource: string, ns: string, name: string)
    returns (parts: seq<string>)
    requires comp != "" && resource != ""
    ensures parts == NonEmpty([comp, resource, ns, name])
    ensures parts == [comp, resource] + (if ns == "" then [] else [ns]) + (if name == "" then [] else [name])
  {
    var elems := [comp, resource, ns, name];
    assert elems[1..] == [resource, ns, name];
    assert elems[1..][1..] == [ns, name];
    assert elems[1..][1..][1..] == [name];
    assert elems[1..][1..][1..][1..] == [];
    assert NonEmpty([name]) == (if name == "" then [] else [name]);
    assert NonEmpty([ns, name]) == (if ns == "" then [] else [ns]) + NonEmpty([name]);
    parts := NonEmpty(elems);
  }

  /** A namespace given without a name comes back as the name. */
  lemma SplitKeyLosesNamespaceWithoutName(comp: string, resource: string, ns: string)
    requires comp != "" && resource != "" && ns != ""
    requires PathElement(comp) && PathElement(resource) && PathElement(ns)
    ensures SplitKey(KeyFunc(comp, resource, ns, "").value) == (comp, resource, "", ns)
  {
    var parts := NonEmptyOfFour(comp, resource, ns, "");
    SplitJoin(parts, '/');
  }

  /** ReqInfoString: "verb resource for path", or "" without request info. */
  function ReqInfoString(info: Option<RequestInfo>): (s: string)
    ensures info.None? <==> s == ""
    ensures info.Some? ==> HasPrefix(s, info.value.verb + " " + info.value.resource + " for ")
  {
    match info
    case None => ""
    case Some(i) => i.verb + " " + i.resource + " for " + i.path
  }

  /** ReqString: "verb resource: url" when the request carries request info, else the url. */
  function ReqString(url: string, info: Option<RequestInfo>): (s: string)
    ensures info.None? ==> s == url
    ensures info.Some? ==> |s| > |url| && s[|s| - |url|..] == url
    ensures info.Some? ==> HasPrefix(s, info.value.verb + " " + info.value.resource + ": ")
  {
    match info
    case None => url
    case Some(i) => i.verb + " " + i.resource + ": " + url
  }

  /** dualReadCloser: every byte read from rc is also written to the pipe pw,
      whose reading end is the background consumer. delivered is what the
      foreground reader has been handed so far. */
  class DualReadCloser {
    const rc: Source
    const pw: Pipe
    const isRespBody: bool
    ghost var delivered: Bytes

    /** Both consumers have seen the same bytes, in the same order. */
    ghost predicate Valid()
      reads this, pw
    {
      pw.written == delivered
    }

    /** NewDualReadCloser: a fresh pipe, nothing delivered yet. */
    constructor (rc: Source, isRespBody: bool)
      ensures Valid() && fresh(pw)
      ensures this.rc == rc && this.isRespBody == isRespBody
      ensures delivered == [] && !pw.writerClosed && !pw.readerClosed
    {
      this.rc := rc;
      this.isRespBody := isRespBody;
      pw := new Pipe();
      delivered := [];
    }

    /** Read: whatever rc yields is written to the pipe before it is returned;
        when the pipe refuses the bytes, the read returns none of them and the
        pipe's error. */
    method Read(n: nat) returns (got: Bytes, err: Option<Error>)
      requires Valid()
      modifies rc`rest, pw`written, this`delivered
      ensures Valid()
      ensures delivered == old(delivered) + got
      ensures var t := Take(old(rc.rest), n);
        && rc.rest == t.1
        && (if |t.0| > 0 && (pw.writerClosed || pw.readerClosed)
            then got == [] && err == Some(ErrClosedPipe)
            else got == t.0 && err == (if t.2 then Some(rc.EndError()) else None))
    {
      var chunk;
      chunk, err := rc.Read(n);
      got := chunk;
      if |chunk| > 0 {
        var written, werr := pw.Write(chunk);
        if werr.Some? {
          got, err := chunk[..written], werr;
        }
      }
      delivered := delivered + got;
    }

    /** Close: closes rc only when it is a response body, always closes the
        pipe's writer, and fails when a close failed. */
    method Close() returns (err: Option<Error>)
      modifies rc`closed, pw`writerClosed
      ensures rc.closed == (old(rc.closed) || isRespBody)
      ensures pw.writerClosed
      ensures err.Some? <==> isRespBody && rc.closeFault.Some?
    {
      var errs: seq<Error> := [];
      if isRespBody {
        var e := rc.Close();
        if e.Some? {
          errs := errs + [e.value];
        }
      }
      pw.CloseWriter();
      err := if |errs| != 0 then Some(CloseFailed("failed to close dualReader")) else None;
    }
  }

  /** gzipReaderCloser: the decoder is built on the first Read; a failure to
      build it is kept and returned by every later Read. */
  class GzipReaderCloser {
    const body: Source
    /** gzip.NewReader over the whole compressed body and its decompression
        (RFC 1952), outside the model. */
    const gunzip: Bytes -> Result<Bytes>
    /** The decoder once built: the decompressed bytes not yet returned. */
    var zr: Option<Bytes>
    var zerr: Option<Error>

    constructor (body: Source, gunzip: Bytes -> Result<Bytes>)
      ensures this.body == body && this.gunzip == gunzip
      ensures zr.None? && zerr.None?
    {
      this.body := body;
      this.gunzip := gunzip;
      zr, zerr := None, None;
    }

    /** Building the decoder from the compressed bytes rest. */
    function Build(rest: Bytes): Result<Bytes> {
      if body.fault.Some? then Err(body.fault.value) else gunzip(rest)
    }

    method Read(n: nat) returns (got: Bytes, err: Option<Error>)
      modifies this`zr, this`zerr, body`rest
      ensures old(zerr).Some? ==>
        got == [] && err == old(zerr) && zerr == old(zerr) && zr == old(zr) && body.rest == old(body.rest)
      ensures old(zerr).None? && old(zr).None? && Build(old(body.rest)).Err? ==>
        got == [] && err == Some(Build(old(body.rest)).error) && zerr == err && zr.None? && body.rest == []
      ensures old(zerr).None? && (old(zr).Some? || Build(old(body.rest)).Ok?) ==>
        var data := if old(zr).Some? then old(zr).value else Build(old(body.rest)).value;
        var t := Take(data, n);
        && got == t.0 && zr == Some(t.1) && zerr.None?
        && err == (if t.2 then Some(EOF) else None)
        && body.rest == (if old(zr).Some? then old(body.rest) else [])
    {
      if zerr.Some? {
        return [], zerr;
      }
      if zr.None? {
        var raw := body.ReadAll();
        var built := if raw.Err? then Err(raw.error) else gunzip(raw.value);
        if built.Err? {
          zerr := Some(built.error);
          return [], zerr;
        }
        zr := Some(built.value);
      }
      var t := Take(zr.value, n);
      got, zr := t.0, Some(t.1);
      err := if t.2 then Some(EOF) else None;
    }

    /** Close closes the compressed body. */
    method Close() returns (err: Option<Error>)
      modifies body`closed
      ensures body.closed && err == body.closeFault
    {
      err := body.Close();
    }
  }

  /** NewGZipReaderCloser: a lazy gzip reader over body exactly when
      Content-Encoding is "gzip"; otherwise the body itself is used. */
  method NewGZipReaderCloser(header: Header, body: Source, gunzip: Bytes -> Result<Bytes>)
    returns (wrapped: GzipReaderCloser?, needUncompressed: bool)
    ensures needUncompressed <==> HeaderGet(header, "Content-Encoding") == "gzip"
    ensures needUncompressed <==> wrapped != null
    ensures wrapped != null ==> fresh(wrapped) && wrapped.body == body && wrapped.zr.None? && wrapped.zerr.None?
  {
    if HeaderGet(header, "Content-Encoding") != "gzip" {
      return null, false;
    }
    wrapped := new GzipReaderCloser(body, gunzip);
    needUncompressed := true;
  }
}
