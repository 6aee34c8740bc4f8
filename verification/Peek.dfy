/** Peeking at a TLS ClientHello: the handshake reads through a tee, its writes are discarded, and
    the returned connection replays what was read before reading on. */
module Peek {
  import opened Wrappers

  type byte = bv8

  datatype ReadError = NoError | Eof | Failed

  /** What the network does with one read: how many bytes it is willing to hand over, and the error
      it reports with them. The end of the stream is only reported at the end of the stream. */
  datatype Grant = Grant(upTo: nat, error: ReadError)

  function Min(a: nat, b: nat): nat {
    if a < b then a else b
  }

  /** Every read asks for and is granted at least one byte. */
  predicate Eager(sizes: seq<nat>, grants: seq<Grant>)
    requires |sizes| == |grants|
  {
    forall k :: 0 <= k < |sizes| ==> sizes[k] > 0 && grants[k].upTo > 0
  }

  /** A network connection: the bytes the client sends, how many have been read, and what was
      written back to the client. */
  class NetConn {
    const stream: seq<byte>
    var pos: nat
    var sent: seq<byte>

    constructor (stream: seq<byte>)
      ensures this.stream == stream && pos == 0 && sent == [] && Valid()
    {
      this.stream, pos, sent := stream, 0, [];
    }

    ghost predicate Valid()
      reads this
    {
      pos <= |stream|
    }

    method Read(size: nat, grant: Grant) returns (data: seq<byte>, error: ReadError)
      requires Valid()
      modifies this`pos
      ensures Valid() && pos == old(pos) + |data| && data == stream[old(pos)..pos] && |data| <= size
      ensures error == Eof ==> pos == |stream|
      ensures |data| == Min(Min(size, grant.upTo), |stream| - old(pos))
    {
      var n := Min(Min(size, grant.upTo), |stream| - pos);
      data := stream[pos..pos + n];
      pos := pos + n;
      error := if grant.error == Eof && pos < |stream| then NoError else grant.error;
    }

    method Write(p: seq<byte>) returns (n: nat)
      modifies this`sent
      ensures sent == old(sent) + p && n == |p|
    {
      sent := sent + p;
      n := |p|;
    }
  }

  /** readWriteConn over io.TeeReader and io.Discard. */
  class PeekConn {
    const conn: NetConn
    var replay: seq<byte>

    constructor (conn: NetConn)
      ensures this.conn == conn && replay == []
    {
      this.conn, replay := conn, [];
    }

    method Read(size: nat, grant: Grant) returns (data: seq<byte>, error: ReadError)
      requires conn.Valid()
      modifies this, conn`pos
      ensures conn.Valid() && replay == old(replay) + data
      ensures conn.pos == old(conn.pos) + |data| && data == conn.stream[old(conn.pos)..conn.pos]
    {
      data, error := conn.Read(size, grant);
      if |data| > 0 {
        replay := replay + data;
      }
    }

    method Write(p: seq<byte>) returns (n: nat)
      ensures n == |p|
    {
      n := |p|;
    }
  }

  /** prefixConn over io.MultiReader(prefix, conn). readers counts the readers not yet exhausted. */
  class ReplayConn {
    const conn: NetConn
    const prefix: seq<byte>
    var offset: nat
    var readers: nat

    constructor (conn: NetConn, prefix: seq<byte>)
      requires conn.Valid()
      ensures this.conn == conn && this.prefix == prefix
      ensures Valid() && Remaining() == prefix + conn.stream[conn.pos..]
    {
      this.conn, this.prefix, offset, readers := conn, prefix, 0, 2;
    }

    ghost predicate Valid()
      reads this, conn
    {
      && conn.Valid() && offset <= |prefix| && readers <= 2
      && (readers < 2 ==> offset == |prefix|)
      && (readers == 0 ==> conn.pos == |conn.stream|)
    }

    /** The bytes still to be read from this connection. */
    ghost function Remaining(): seq<byte>
      requires Valid()
      reads this, conn
    {
      prefix[offset..] + conn.stream[conn.pos..]
    }

    /** Nothing the client sent is missing. */
    ghost predicate Whole()
      reads this, conn
    {
      Valid() && Remaining() == conn.stream
    }

    method Read(size: nat, grant: Grant) returns (data: seq<byte>, error: ReadError)
      requires Valid()
      modifies this, conn`pos
      ensures Valid() && conn.sent == old(conn.sent)
      ensures old(Remaining()) == data + Remaining() && |data| <= size
      ensures error == Eof ==> Remaining() == []
      ensures old(Remaining()) != [] && size > 0 && grant.upTo > 0 ==> data != []
    {
      if readers == 2 {
        if offset < |prefix| {
          var n := Min(size, |prefix| - offset);
          data, error := prefix[offset..offset + n], NoError;
          offset := offset + n;
          return;
        }
        readers := 1;
      }
      if readers == 1 {
        data, error := conn.Read(size, grant);
        if error == Eof {
          readers := 0;
        }
        return;
      }
      data, error := [], Eof;
    }

    /** Reads with any sizes, however the network grants them. */
    method ReadAll(sizes: seq<nat>, grants: seq<Grant>) returns (out: seq<byte>, sawEof: bool)
      requires Valid() && |sizes| == |grants|
      modifies this, conn`pos
      ensures Valid() && conn.sent == old(conn.sent)
      ensures old(Remaining()) == out + Remaining()
      ensures sawEof ==> out == old(Remaining())
      ensures Eager(sizes, grants) && |sizes| >= |old(Remaining())| ==>
                out == old(Remaining())
    {
      out, sawEof := [], false;
      for i := 0 to |sizes|
        invariant Valid() && conn.sent == old(conn.sent)
        invariant old(Remaining()) == out + Remaining()
        invariant sawEof ==> Remaining() == []
        invariant Eager(sizes, grants) ==> |out| >= i || Remaining() == []
      {
        ghost var before := out;
        var data, error := Read(sizes[i], grants[i]);
        out := out + data;
        assert before + (data + Remaining()) == out + Remaining();
        sawEof := sawEof || error == Eof;
      }
    }
  }

  /** One thing the TLS handshake does on the connection it was given. */
  datatype HandshakeAction = HandshakeRead(size: nat, grant: Grant) | HandshakeWrite(p: seq<byte>)

  datatype HandshakeError = NoHandshakeError | ClientHelloParsed | OtherError

  /** How the handshake ends: the name the callback saw, if it was called, and the error. */
  datatype HandshakeEnd = HandshakeEnd(helloName: Option<string>, error: HandshakeError)

  /** Whatever the handshake reads and writes and however it ends, the returned connection reads as
      the original did from where it stood, and nothing was written to the client. */
  method PeekClientHelloServerName(conn: NetConn, actions: seq<HandshakeAction>, end: HandshakeEnd)
    returns (serverName: Result<string, ()>, replayConn: ReplayConn)
    requires conn.Valid()
    modifies conn`pos
    ensures fresh(replayConn) && replayConn.conn == conn && replayConn.Valid()
    ensures replayConn.Remaining() == old(conn.stream[conn.pos..])
    ensures conn.sent == old(conn.sent)
    ensures serverName.Err? <==> end.error == OtherError
    ensures serverName.Ok? ==> serverName.value == (if end.helloName.Some? then end.helloName.value else "")
  {
    var peekConn := new PeekConn(conn);
    for i := 0 to |actions|
      invariant conn.Valid() && peekConn.conn == conn && fresh(peekConn)
      invariant peekConn.replay + conn.stream[conn.pos..] == old(conn.stream[conn.pos..])
    {
      match actions[i] {
        case HandshakeRead(size, grant) =>
          ghost var tee, at := peekConn.replay, conn.pos;
          var data, _ := peekConn.Read(size, grant);
          assert conn.stream[at..] == data + conn.stream[conn.pos..];
          assert tee + (data + conn.stream[conn.pos..]) == (tee + data) + conn.stream[conn.pos..];
        case HandshakeWrite(p) =>
          var _ := peekConn.Write(p);
      }
    }
    replayConn := new ReplayConn(conn, peekConn.replay);
    if end.error == OtherError {
      serverName := Err(());
    } else {
      serverName := Ok(match end.helloName case Some(name) => name case None => "");
    }
  }

  /** From a fresh connection: everything the client sent is read back, from its first byte, by any
      reads long enough to reach the end. */
  method PeekThenRead(conn: NetConn, actions: seq<HandshakeAction>, end: HandshakeEnd, sizes: seq<nat>,
                      grants: seq<Grant>)
    returns (out: seq<byte>, sawEof: bool)
    requires conn.Valid() && conn.pos == 0 && |sizes| == |grants|
    modifies conn
    ensures out <= conn.stream && conn.sent == old(conn.sent)
    ensures sawEof ==> out == conn.stream
    ensures Eager(sizes, grants) && |sizes| >= |conn.stream| ==>
              out == conn.stream
  {
    var _, replayConn := PeekClientHelloServerName(conn, actions, end);
    out, sawEof := replayConn.ReadAll(sizes, grants);
  }
}
