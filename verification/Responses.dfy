/** The response writers that the middleware stacks on a connection: logging, over it compression, over it signing
    (internal/middleware/logging.go, internal/middleware/gzip.go, internal/middleware/hash.go). A handler sees the
    topmost one. The request side of the middleware is not part of this model. */
module Responses {
  import opened Metrics

  type Bytes = seq<bv8>

  type Header = map<string, string>

  const OK: nat := 200
  const CONTENT_TYPE: string := "Content-Type"
  const CONTENT_ENCODING: string := "Content-Encoding"
  const SIGNATURE: string := "HashSHA256"

  /** gzip.Writer: the bytes it passes on for one more chunk after those written before, those it passes on when it is
      closed, and what a client's decoder makes of them. */
  datatype Codec = Codec(emit: (seq<Bytes>, Bytes) -> Bytes, finish: seq<Bytes> -> Bytes, decode: Bytes -> Bytes)

  function Emitted(codec: Codec, chunks: seq<Bytes>): Bytes {
    if chunks == [] then []
    else
      var init := chunks[..|chunks| - 1];
      Emitted(codec, init) + codec.emit(init, chunks[|chunks| - 1])
  }

  function Flat(chunks: seq<Bytes>): Bytes {
    if chunks == [] then [] else Flat(chunks[..|chunks| - 1]) + chunks[|chunks| - 1]
  }

  lemma Append(codec: Codec, chunks: seq<Bytes>, p: Bytes)
    ensures Flat(chunks + [p]) == Flat(chunks) + p
    ensures Emitted(codec, chunks + [p]) == Emitted(codec, chunks) + codec.emit(chunks, p)
  {
    assert (chunks + [p])[..|chunks|] == chunks;
  }

  /** Compression loses nothing. */
  ghost predicate Lossless(codec: Codec) {
    forall chunks :: codec.decode(Emitted(codec, chunks) + codec.finish(chunks)) == Flat(chunks)
  }

  predicate CanCompress(contentType: string) { "application/json" <= contentType || "text/html" <= contentType }

  // ---------------------------------------------------------------- what a handler does, and a plain recorder of it

  datatype Call = SetType(contentType: string) | WriteHeader(status: nat) | Write(p: Bytes)

  /** The status that counts: the first one, or 200 when a write comes before it. */
  function FirstStatus(calls: seq<Call>): Option<nat> {
    if calls == [] then None
    else
      var r, call := FirstStatus(calls[..|calls| - 1]), calls[|calls| - 1];
      if r.Some? then r else
        match call
        case SetType(_) => None
        case WriteHeader(status) => Some(status)
        case Write(_) => Some(OK)
  }

  function Body(calls: seq<Call>): Bytes {
    if calls == [] then []
    else Body(calls[..|calls| - 1]) + if calls[|calls| - 1].Write? then calls[|calls| - 1].p else []
  }

  function TypeOf(calls: seq<Call>): string {
    if calls == [] then ""
    else if calls[|calls| - 1].SetType? then calls[|calls| - 1].contentType else TypeOf(calls[..|calls| - 1])
  }

  /** The content type when the status was decided. */
  function TypeAtStatus(calls: seq<Call>): string
    requires FirstStatus(calls).Some?
  {
    var init := calls[..|calls| - 1];
    if FirstStatus(init).Some? then TypeAtStatus(init) else TypeOf(init)
  }

  lemma {:induction false} NothingButTypes(calls: seq<Call>)
    requires forall j | 0 <= j < |calls| :: calls[j].SetType?
    ensures FirstStatus(calls) == None && Body(calls) == []
  {
    if calls != [] {
      NothingButTypes(calls[..|calls| - 1]);
    }
  }

  /** The first call that is no SetType decides the status, and the type that counts is the one set before it. */
  lemma {:induction false} FirstDecides(calls: seq<Call>, i: nat)
    requires i < |calls| && !calls[i].SetType? && forall j | 0 <= j < i :: calls[j].SetType?
    ensures FirstStatus(calls) == Some(if calls[i].WriteHeader? then calls[i].status else 200)
    ensures TypeAtStatus(calls) == TypeOf(calls[..i])
  {
    var init := calls[..|calls| - 1];
    if i == |calls| - 1 {
      NothingButTypes(init);
    } else {
      FirstDecides(init, i);
      assert init[..i] == calls[..i];
    }
  }

  /** The last type set is the type, and there is none before. */
  lemma {:induction false} LastTypeCounts(calls: seq<Call>, i: nat)
    requires i <= |calls| && (i > 0 ==> calls[i - 1].SetType?) && forall j | i <= j < |calls| :: !calls[j].SetType?
    ensures TypeOf(calls) == if i > 0 then calls[i - 1].contentType else ""
  {
    if i < |calls| {
      LastTypeCounts(calls[..|calls| - 1], i);
    }
  }

  // ---------------------------------------------------------------- the writers

  datatype Sent = Sent(status: nat, header: Header)

  /** The writer of net/http: the first status, given or implied, goes out with the header as it then is; statuses
      counts the calls of WriteHeader. */
  class Connection {
    var header: Header
    var sent: Option<Sent>
    var body: Bytes
    var statuses: nat

    constructor ()
      ensures header == map[] && sent == None && body == [] && statuses == 0
    {
      header, sent, body, statuses := map[], None, [], 0;
    }

    method WriteHeader(status: nat)
      modifies this`sent, this`statuses
      ensures statuses == old(statuses) + 1
      ensures sent == if old(sent).Some? then old(sent) else Some(Sent(status, header))
    {
      if sent.None? {
        sent := Some(Sent(status, header));
      }
      statuses := statuses + 1;
    }

    method Write(p: Bytes)
      modifies this`sent, this`body
      ensures body == old(body) + p
      ensures sent == if old(sent).Some? then old(sent) else Some(Sent(OK, header))
    {
      if sent.None? {
        sent := Some(Sent(OK, header));
      }
      body := body + p;
    }
  }

  class LoggingWriter {
    const inner: Connection
    var statusCode: nat
    var size: nat
    var wroteHeader: bool

    constructor (inner: Connection)
      requires inner.sent == None && inner.body == [] && inner.statuses == 0
      ensures this.inner == inner && Valid() && !wroteHeader
    {
      this.inner, statusCode, size, wroteHeader := inner, OK, 0, false;
    }

    /** What is logged is what went out. */
    predicate Valid()
      reads this, inner
    {
      && inner.statuses <= 1
      && size == |inner.body|
      && (wroteHeader <==> inner.sent.Some?)
      && (if wroteHeader then statusCode == inner.sent.value.status
          else statusCode == OK && inner.statuses == 0 && inner.body == [])
    }

    method WriteHeader(status: nat)
      requires Valid()
      modifies this, inner`sent, inner`statuses
      ensures Valid() && wroteHeader
      ensures inner.sent == if old(wroteHeader) then old(inner.sent) else Some(Sent(status, inner.header))
      ensures inner.statuses == if old(wroteHeader) then old(inner.statuses) else 1
    {
      if wroteHeader {
        return;
      }
      wroteHeader, statusCode := true, status;
      inner.WriteHeader(status);
    }

    method Write(p: Bytes)
      requires Valid()
      modifies this, inner`sent, inner`body
      ensures Valid() && wroteHeader
      ensures inner.sent == if old(wroteHeader) then old(inner.sent) else Some(Sent(OK, inner.header))
      ensures inner.body == old(inner.body) + p
    {
      if !wroteHeader {
        wroteHeader, statusCode := true, OK;
      }
      inner.Write(p);
      size := size + |p|;
    }
  }

  class GzipWriter {
    const inner: LoggingWriter
    const codec: Codec
    const acceptsGzip: bool
    var wroteHeader: bool
    var compressing: bool
    var chunks: seq<Bytes>
    var closed: bool
    ghost var written: Bytes

    constructor (inner: LoggingWriter, codec: Codec, acceptsGzip: bool)
      requires inner.Valid() && !inner.wroteHeader && CONTENT_ENCODING !in inner.inner.header
      ensures this.inner == inner && this.codec == codec && this.acceptsGzip == acceptsGzip
      ensures Valid() && !wroteHeader && !closed && written == []
    {
      this.inner, this.codec, this.acceptsGzip := inner, codec, acceptsGzip;
      wroteHeader, compressing, chunks, closed, written := false, false, [], false, [];
    }

    /** The bytes below stand for what was written here, compressed exactly if the header that went out says so. */
    ghost predicate Valid()
      reads this, inner, inner.inner
    {
      var base := inner.inner;
      && inner.Valid()
      && (wroteHeader <==> inner.wroteHeader)
      && base.statuses == (if wroteHeader then 1 else 0)
      && (!wroteHeader ==> !compressing && written == [] && CONTENT_ENCODING !in base.header)
      && (wroteHeader ==> (compressing <==> CONTENT_ENCODING in base.sent.value.header))
      && (if compressing
          then written == Flat(chunks) && base.body == Emitted(codec, chunks) + (if closed then codec.finish(chunks) else [])
          else base.body == written)
    }

    method WriteHeader(status: nat)
      requires Valid() && !closed
      modifies this, inner, inner.inner`header, inner.inner`sent, inner.inner`statuses
      ensures Valid() && wroteHeader && !closed && written == old(written)
      ensures old(wroteHeader) ==>
        && compressing == old(compressing)
        && inner.inner.sent == old(inner.inner.sent) && inner.inner.header == old(inner.inner.header)
      ensures !old(wroteHeader) ==>
        && compressing == (acceptsGzip && CanCompress(Type(old(inner.inner.header))))
        && inner.inner.sent == Some(Sent(status, inner.inner.header))
        && inner.inner.header == if compressing then Compressed(old(inner.inner.header)) else old(inner.inner.header)
    {
      if wroteHeader {
        return;
      }
      wroteHeader := true;
      if acceptsGzip && CanCompress(Type(inner.inner.header)) {
        compressing := true;
        inner.inner.header := Compressed(inner.inner.header);
        chunks := [];
      }
      inner.WriteHeader(status);
    }

    method Write(p: Bytes)
      requires Valid() && !closed
      modifies this, inner, inner.inner
      ensures Valid() && wroteHeader && !closed && written == old(written) + p
      ensures old(wroteHeader) ==>
        && compressing == old(compressing)
        && inner.inner.sent == old(inner.inner.sent) && inner.inner.header == old(inner.inner.header)
      ensures !old(wroteHeader) ==>
        && compressing == (acceptsGzip && CanCompress(Type(old(inner.inner.header))))
        && inner.inner.sent == Some(Sent(OK, inner.inner.header))
        && inner.inner.header == if compressing then Compressed(old(inner.inner.header)) else old(inner.inner.header)
    {
      if !wroteHeader {
        WriteHeader(OK);
      }
      Pass(p);
    }

    /** The second half of Write. */
    method Pass(p: Bytes)
      requires Valid() && !closed && wroteHeader
      modifies this`chunks, this`written, inner, inner.inner`body, inner.inner`sent
      ensures Valid() && written == old(written) + p
      ensures inner.inner.sent == old(inner.inner.sent)
    {
      if compressing {
        Append(codec, chunks, p);
        inner.Write(codec.emit(chunks, p));
        chunks := chunks + [p];
      } else {
        inner.Write(p);
      }
      written := written + p;
    }

    method Close()
      requires Valid() && !closed
      modifies this, inner, inner.inner`sent, inner.inner`body
      ensures Valid() && closed && wroteHeader == old(wroteHeader) && written == old(written)
      ensures compressing == old(compressing) && inner.inner.sent == old(inner.inner.sent)
    {
      if compressing {
        inner.Write(codec.finish(chunks));
      }
      closed := true;
    }
  }

  function Type(header: Header): string { if CONTENT_TYPE in header then header[CONTENT_TYPE] else "" }

  function Compressed(header: Header): Header {
    (header - {"Content-Length"})[CONTENT_ENCODING := "gzip"]["Vary" := "Accept-Encoding"]
  }

  class HashWriter {
    const inner: GzipWriter
    var body: Bytes
    var statusCode: nat
    var wroteHeader: bool

    constructor (inner: GzipWriter)
      ensures this.inner == inner && body == [] && statusCode == OK && !wroteHeader
    {
      this.inner, body, statusCode, wroteHeader := inner, [], OK, false;
    }

    method WriteHeader(status: nat)
      modifies this
      ensures wroteHeader && body == old(body) && statusCode == if old(wroteHeader) then old(statusCode) else status
    {
      if wroteHeader {
        return;
      }
      wroteHeader, statusCode := true, status;
    }

    method Write(p: Bytes)
      modifies this
      ensures wroteHeader && body == old(body) + p && statusCode == if old(wroteHeader) then old(statusCode) else OK
    {
      if !wroteHeader {
        wroteHeader, statusCode := true, OK;
      }
      body := body + p;
    }

    method Flush(sign: Bytes -> string)
      requires inner.Valid() && !inner.wroteHeader && !inner.closed && inner.inner.inner.sent.None?
      modifies inner, inner.inner, inner.inner.inner
      ensures inner.Valid() && inner.wroteHeader && !inner.closed && inner.written == body
      ensures var base, before := inner.inner.inner, old(inner.inner.inner.header)[SIGNATURE := sign(body)];
        && inner.compressing == (inner.acceptsGzip && CanCompress(Type(before)))
        && base.sent == Some(Sent(statusCode, if inner.compressing then Compressed(before) else before))
    {
      inner.inner.inner.header := inner.inner.inner.header[SIGNATURE := sign(body)];
      inner.WriteHeader(statusCode);
      inner.Write(body);
    }
  }

  // ---------------------------------------------------------------- whole responses

  /** The client's view of the body. */
  function Received(connection: Connection, codec: Codec): Bytes
    reads connection
  {
    if connection.sent.Some? && CONTENT_ENCODING in connection.sent.value.header
    then codec.decode(connection.body) else connection.body
  }

  /** The header names the type, and declares gzip exactly for JSON and HTML and a client that takes it. */
  predicate HeaderTells(header: Header, acceptsGzip: bool, contentType: string) {
    && (contentType == if "Content-Type" in header then header["Content-Type"] else "")
    && if acceptsGzip && ("application/json" <= contentType || "text/html" <= contentType)
       then {"Content-Encoding", "Vary"} <= header.Keys && header["Content-Encoding"] == "gzip"
            && header["Vary"] == "Accept-Encoding" && "Content-Length" !in header
       else "Content-Encoding" !in header
  }

  lemma HeaderAfter(header: Header, acceptsGzip: bool)
    requires CONTENT_ENCODING !in header
    ensures HeaderTells(if acceptsGzip && CanCompress(Type(header)) then Compressed(header) else header, acceptsGzip,
                        Type(header))
  {
  }

  /** A handler below RequestLogger, Gzip and HashSHA256: whatever it calls, the connection sees one status, the
      client decodes exactly what was written, the signature is over exactly that, compression is declared when it is
      used, and the log tells what went out. */
  method ServeSigned(calls: seq<Call>, connection: Connection, codec: Codec, acceptsGzip: bool, sign: Bytes -> string)
      returns (logged: nat, size: nat)
    requires Lossless(codec)
    requires connection.header == map[] && connection.sent == None && connection.body == [] && connection.statuses == 0
    modifies connection
    ensures connection.statuses == 1 && connection.sent.Some?
    ensures connection.sent.value.status == if FirstStatus(calls).Some? then FirstStatus(calls).value else OK
    ensures Received(connection, codec) == Body(calls)
    ensures SIGNATURE in connection.sent.value.header && connection.sent.value.header[SIGNATURE] == sign(Body(calls))
    ensures CONTENT_ENCODING in connection.sent.value.header <==> acceptsGzip && CanCompress(TypeOf(calls))
    ensures HeaderTells(connection.sent.value.header, acceptsGzip, TypeOf(calls))
    ensures connection.sent.value.header["HashSHA256"] == sign(Body(calls))
    ensures logged == connection.sent.value.status && size == |connection.body|
  {
    var logging := new LoggingWriter(connection);
    var gzip := new GzipWriter(logging, codec, acceptsGzip);
    var w := new HashWriter(gzip);
    HandleSigned(calls, w);
    HeaderAfter(connection.header[SIGNATURE := sign(w.body)], acceptsGzip);
    w.Flush(sign);
    gzip.Close();
    return logging.statusCode, logging.size;
  }

  /** The handler's calls on a signing writer; only the header reaches the connection. */
  method HandleSigned(calls: seq<Call>, w: HashWriter)
    requires w.inner.inner.inner.header == map[] && w.body == [] && w.statusCode == OK && !w.wroteHeader
    modifies w, w.inner.inner.inner`header
    ensures w.inner.inner.inner.header.Keys <= {CONTENT_TYPE} && Type(w.inner.inner.inner.header) == TypeOf(calls)
    ensures w.body == Body(calls)
    ensures w.statusCode == if FirstStatus(calls).Some? then FirstStatus(calls).value else OK
  {
    var connection := w.inner.inner.inner;
    var i := 0;
    while i < |calls|
      invariant 0 <= i <= |calls|
      invariant connection.header.Keys <= {CONTENT_TYPE} && Type(connection.header) == TypeOf(calls[..i])
      invariant w.body == Body(calls[..i]) && w.wroteHeader == FirstStatus(calls[..i]).Some?
      invariant w.statusCode == if FirstStatus(calls[..i]).Some? then FirstStatus(calls[..i]).value else OK
    {
      assert calls[..i + 1][..i] == calls[..i];
      match calls[i] {
        case SetType(contentType) => connection.header := connection.header[CONTENT_TYPE := contentType];
        case WriteHeader(status) => w.WriteHeader(status);
        case Write(p) => w.Write(p);
      }
      i := i + 1;
    }
    assert calls[..i] == calls;
  }

  /** The same without a signing key, where the handler writes to the compressing writer directly; a handler that
      neither writes nor sets a status leaves both to net/http. */
  method ServeUnsigned(calls: seq<Call>, connection: Connection, codec: Codec, acceptsGzip: bool)
      returns (logged: nat, size: nat)
    requires Lossless(codec)
    requires connection.header == map[] && connection.sent == None && connection.body == [] && connection.statuses == 0
    modifies connection
    ensures connection.statuses == (if connection.sent.Some? then 1 else 0)
    ensures connection.sent.Some? <==> FirstStatus(calls).Some?
    ensures connection.sent.Some? ==>
      && connection.sent.value.status == FirstStatus(calls).value
      && (CONTENT_ENCODING in connection.sent.value.header <==> acceptsGzip && CanCompress(TypeAtStatus(calls)))
      && HeaderTells(connection.sent.value.header, acceptsGzip, TypeAtStatus(calls))
    ensures Received(connection, codec) == Body(calls)
    ensures logged == (if connection.sent.Some? then connection.sent.value.status else OK) && size == |connection.body|
  {
    var logging := new LoggingWriter(connection);
    var w := new GzipWriter(logging, codec, acceptsGzip);
    HandleUnsigned(calls, w);
    w.Close();
    return logging.statusCode, logging.size;
  }

  /** What the calls so far have done to a compressing writer on a connection without a header. */
  ghost predicate Reflects(w: GzipWriter, calls: seq<Call>)
    reads w, w.inner, w.inner.inner
  {
    var connection := w.inner.inner;
    && w.Valid() && !w.closed && w.written == Body(calls) && w.wroteHeader == FirstStatus(calls).Some?
    && (if w.wroteHeader then
          && connection.sent.value.status == FirstStatus(calls).value
          && w.compressing == (w.acceptsGzip && CanCompress(TypeAtStatus(calls)))
          && HeaderTells(connection.sent.value.header, w.acceptsGzip, TypeAtStatus(calls))
        else connection.header.Keys <= {CONTENT_TYPE} && Type(connection.header) == TypeOf(calls))
  }

  /** The handler's calls on a compressing writer. */
  method HandleUnsigned(calls: seq<Call>, w: GzipWriter)
    requires w.Valid() && !w.closed && !w.wroteHeader && w.inner.inner.header == map[]
    modifies w, w.inner, w.inner.inner
    ensures Reflects(w, calls)
  {
    var i := 0;
    while i < |calls|
      invariant 0 <= i <= |calls| && Reflects(w, calls[..i])
    {
      assert calls[..i + 1] == calls[..i] + [calls[i]];
      HandleOne(calls[i], w, calls[..i]);
      i := i + 1;
    }
    assert calls[..i] == calls;
  }

  method HandleOne(call: Call, w: GzipWriter, ghost before: seq<Call>)
    requires Reflects(w, before)
    modifies w, w.inner, w.inner.inner
    ensures Reflects(w, before + [call])
  {
    var connection := w.inner.inner;
    assert (before + [call])[..|before|] == before;
    if !w.wroteHeader {
      HeaderAfter(connection.header, w.acceptsGzip);
    }
    match call {
      case SetType(contentType) => connection.header := connection.header[CONTENT_TYPE := contentType];
      case WriteHeader(status) => w.WriteHeader(status);
      case Write(p) => w.Write(p);
    }
  }
}
