/** Consecutive binary WebSocket messages presented as one byte stream. A message is sent as the
  * binary data frames of section 5.6 of RFC 6455; how they are fragmented does not matter here. */
module WebSocketStream {
  import opened Prelude

  datatype Kind = Binary | Text

  datatype Message = Message(kind: Kind, payload: seq<byte>)

  /** What the WebSocket library reports: the peer's close frame, or any other failure. */
  datatype LibraryError = CloseFrame(code: nat) | Transport

  datatype Error = Library(error: LibraryError) | NonBinaryMessage | ConnClosed | ShortWrite

  /** What the library does on one turn of the read loop: the next message may fail to open, and the
    * message reader hands out up to `n` bytes, may report the end together with the last of them or
    * alone once there are none left, and may fail. */
  datatype ReadTurn = ReadTurn(
    openFails: Option<LibraryError>,
    n: nat,
    eofWithData: bool,
    eofAlone: bool,
    readFails: Option<LibraryError>)

  /** What the message writer does with one piece: how much it takes, and whether it fails. */
  datatype WriteTurn = WriteTurn(n: nat, fails: Option<LibraryError>)

  /** The bytes of the binary messages, in order. */
  function Payload(ms: seq<Message>): seq<byte> {
    if ms == [] then [] else (if ms[0].kind.Binary? then ms[0].payload else []) + Payload(ms[1..])
  }

  predicate AllBinary(ms: seq<Message>) { forall i :: 0 <= i < |ms| ==> ms[i].kind.Binary? }

  /** A library that fails nowhere, hands out some byte when there is one, and reports the end of a
    * message at the latest when nothing of it is left. */
  ghost predicate Prompt(turns: nat -> ReadTurn) {
    forall i: nat :: turns(i).openFails.None? && turns(i).readFails.None? && turns(i).n > 0 && turns(i).eofAlone
  }

  /** A message writer that fails nowhere and takes some byte each time. */
  ghost predicate Willing(turns: nat -> WriteTurn) {
    forall i: nat :: turns(i).fails.None? && turns(i).n > 0
  }

  lemma {:induction false} PayloadSnoc(ms: seq<Message>, m: Message)
    ensures Payload(ms + [m]) == Payload(ms) + if m.kind.Binary? then m.payload else []
  {
    if ms == [] {
      assert ms + [m] == [m];
      assert Payload([m][1..]) == [];
    } else {
      assert (ms + [m])[1..] == ms[1..] + [m];
      PayloadSnoc(ms[1..], m);
    }
  }

  function Flatten(chunks: seq<seq<byte>>): seq<byte> {
    if chunks == [] then [] else Flatten(chunks[..|chunks| - 1]) + chunks[|chunks| - 1]
  }

  function OpenError(turn: ReadTurn): LibraryError {
    if turn.openFails.Some? then turn.openFails.value else Transport
  }

  class WebSocketConn {
    // Messages that have arrived and are not open yet, and what is left of the open one.
    var incoming: seq<Message>
    var reader: Option<seq<byte>>
    // Messages sent in full, and the start of one that was cut off.
    var sent: seq<Message>
    var torn: seq<byte>
    var closed: bool
    var remoteCloseCode: nat

    constructor (arrived: seq<Message>)
      ensures incoming == arrived && reader == None && sent == [] && torn == [] && !closed && remoteCloseCode == 0
    {
      incoming, reader, sent, torn, closed, remoteCloseCode := arrived, None, [], [], false, 0;
    }

    /** The bytes still to be read. */
    function Pending(): seq<byte>
      reads this
    {
      (if reader.Some? then reader.value else []) + Payload(incoming)
    }

    /** The bytes the peer may have been given. */
    function Out(): seq<byte>
      reads this
    {
      Payload(sent) + torn
    }

    /** A cut-off message is the last thing a connection writes. */
    predicate Valid()
      reads this
    {
      torn != [] ==> closed
    }

    method Abort()
      modifies this`closed
      ensures closed
    {
      closed := true;
    }

    /** The first close code the peer sent is kept. */
    method RecordRemoteClose(e: LibraryError)
      modifies this`remoteCloseCode
      ensures remoteCloseCode == if old(remoteCloseCode) == 0 && e.CloseFrame? then e.code else old(remoteCloseCode)
    {
      if e.CloseFrame? && remoteCloseCode == 0 {
        remoteCloseCode := e.code;
      }
    }

    /** The next message becomes the open one; a message that is not binary ends the connection. */
    method Open(turn: ReadTurn) returns (err: Option<Error>)
      requires reader.None?
      modifies this`incoming, this`reader, this`closed, this`remoteCloseCode
      ensures Pending() == old(Pending())
      ensures err.None? ==> reader.Some? && |incoming| < |old(incoming)| && closed == old(closed)
      ensures err.Some? ==> reader.None? && closed && err.value in {NonBinaryMessage, Library(OpenError(turn))}
      ensures err == Some(NonBinaryMessage) ==> old(incoming) != [] && old(incoming)[0].kind.Text?
      ensures err.Some? && err != Some(NonBinaryMessage) ==>
        incoming == old(incoming) && (incoming == [] || turn.openFails.Some?)
      ensures err.None? ==> incoming == old(incoming)[1..]
      ensures old(remoteCloseCode) != 0 || err.None? ==> remoteCloseCode == old(remoteCloseCode)
      ensures old(remoteCloseCode) == 0 && err == Some(Library(OpenError(turn))) && OpenError(turn).CloseFrame? ==>
        remoteCloseCode == OpenError(turn).code
    {
      if incoming == [] || turn.openFails.Some? {
        RecordRemoteClose(OpenError(turn));
        Abort();
        return Some(Library(OpenError(turn)));
      }
      var m := incoming[0];
      incoming := incoming[1..];
      if !m.kind.Binary? {
        Abort();
        return Some(NonBinaryMessage);
      }
      reader := Some(m.payload);
      return None;
    }

    /** The reader of the open message fills the front of `p`; at its end the message is forgotten. */
    method ReadMessage(p: array<byte>, turn: ReadTurn) returns (n: nat, eof: bool)
      requires reader.Some?
      modifies p, this`reader
      ensures n <= p.Length && n <= turn.n
      ensures p[..n] + Pending() == old(Pending())
      ensures eof <==> reader.None?
      ensures p.Length > 0 && turn.n > 0 && turn.eofAlone ==> n > 0 || eof
    {
      var left := reader.value;
      n := turn.n;
      if n > |left| { n := |left|; }
      if n > p.Length { n := p.Length; }
      forall i | 0 <= i < n {
        p[i] := left[i];
      }
      assert p[..n] + left[n..] == left;
      eof := n == |left| && if left == [] then turn.eofAlone else turn.eofWithData;
      reader := if eof then None else Some(left[n..]);
      assert p[..n] + Pending() == p[..n] + left[n..] + Payload(incoming);
    }

    /** Whatever the chunking, the bytes read are the next ones of the stream: none is lost, repeated
      * or reordered, and the end of a message never shows. A read that leaves its message open, made on
      * turn `last`, reports exactly what the message's reader does. */
    method Read(p: array<byte>, turns: nat -> ReadTurn) returns (n: nat, err: Option<Error>, ghost last: nat)
      modifies this, p
      ensures n <= p.Length && p[..n] + Pending() == old(Pending())
      ensures p.Length == 0 ==> n == 0 && err.None?
      ensures err.Some? ==> closed
      ensures err == Some(NonBinaryMessage) ==> n == 0 && reader.None?
      ensures p.Length > 0 && reader.Some? ==>
        err == if turns(last).readFails.Some? then Some(Library(turns(last).readFails.value)) else None
      ensures old(remoteCloseCode) == 0 && err.Some? && err.value.Library? && err.value.error.CloseFrame? ==>
        remoteCloseCode == err.value.error.code
      ensures old(closed) ==> closed
      ensures old(remoteCloseCode) != 0 ==> remoteCloseCode == old(remoteCloseCode)
      ensures sent == old(sent) && torn == old(torn)
      ensures AllBinary(old(incoming)) ==> AllBinary(incoming)
      ensures Prompt(turns) && p.Length > 0 && AllBinary(old(incoming)) && old(Pending()) != [] ==> err.None? && n > 0
    {
      if p.Length == 0 {
        assert p[..0] == [];
        return 0, None, 0;
      }
      var i: nat := 0;
      while true
        invariant Pending() == old(Pending()) && p.Length > 0
        invariant old(closed) ==> closed
        invariant remoteCloseCode == old(remoteCloseCode)
        invariant sent == old(sent) && torn == old(torn)
        invariant AllBinary(old(incoming)) ==> AllBinary(incoming)
        decreases |incoming|, if reader.Some? then 1 else 0
      {
        var turn := turns(i);
        i := i + 1;
        assert p[..0] == [];
        if reader.None? {
          err := Open(turn);
          if err.Some? {
            return 0, err, i - 1;
          }
        }
        var eof;
        n, eof := ReadMessage(p, turn);
        if eof {
          if n > 0 {
            return n, None, i - 1;
          }
          assert p[..n] + Pending() == Pending();
          continue;
        }
        if turn.readFails.Some? {
          RecordRemoteClose(turn.readFails.value);
          Abort();
          return n, Some(Library(turn.readFails.value)), i - 1;
        }
        return n, None, i - 1;
      }
    }

    /** Write one whole message: no error means exactly one binary message, equal to the input; an
      * error closes the connection with a prefix of the input, of the reported length, behind what
      * was sent before. */
    method Write(p: seq<byte>, openFails: Option<LibraryError>, turns: nat -> WriteTurn,
                 closeFails: Option<LibraryError>)
      returns (n: nat, err: Option<Error>)
      requires Valid()
      modifies this`sent, this`torn, this`closed
      ensures Valid() && n <= |p|
      ensures p == [] ==> err.None?
      ensures err.None? && p != [] ==>
        n == |p| && sent == old(sent) + [Message(Binary, p)] && torn == old(torn) == [] && !closed
      ensures err.Some? ==> closed && Out() == old(Out()) + p[..n]
      ensures p == [] || old(closed) ==> n == 0 && sent == old(sent) && torn == old(torn) && closed == old(closed)
      ensures p != [] && old(closed) ==> err == Some(ConnClosed)
      ensures AllBinary(old(sent)) ==> AllBinary(sent)
      ensures !old(closed) && openFails.None? && Willing(turns) && closeFails.None? ==> err.None?
      ensures p != [] && !old(closed) && openFails.Some? ==> n == 0 && err == Some(Library(openFails.value))
      ensures p != [] && !old(closed) && openFails.None? ==>
        var (took, failed) := Taken(|p|, turns, 0);
        && n == took
        && err == (if failed.Some? || closeFails.None? then failed else Some(Library(closeFails.value)))
        && (if closeFails.None? then sent == old(sent) + [Message(Binary, p[..n])] && torn == old(torn)
            else sent == old(sent) && torn == p[..n])
    {
      if p == [] {
        return 0, None;
      }
      if closed {
        return 0, Some(ConnClosed);
      }
      if openFails.Some? {
        Abort();
        return 0, Some(Library(openFails.value));
      }
      var writeErr;
      n, writeErr := WriteAll(p, turns);
      if closeFails.None? {
        PayloadSnoc(sent, Message(Binary, p[..n]));
        sent := sent + [Message(Binary, p[..n])];
      } else {
        torn := p[..n];
      }
      if writeErr.Some? {
        Abort();
        return n, writeErr;
      }
      assert p[..n] == p;
      if closeFails.Some? {
        Abort();
        return n, Some(Library(closeFails.value));
      }
      return n, None;
    }
  }

  /** How much of `left` bytes the message writer takes from turn `i` on, and with which error: it is asked
    * until all is taken, it fails, or it takes nothing. */
  function Taken(left: nat, turns: nat -> WriteTurn, i: nat): (nat, Option<Error>)
    decreases left
  {
    if left == 0 then (0, None)
    else
      var n := if turns(i).n > left then left else turns(i).n;
      if turns(i).fails.Some? then (n, Some(Library(turns(i).fails.value)))
      else if n == 0 then (0, Some(ShortWrite))
      else
        var (took, failed) := Taken(left - n, turns, i + 1);
        (n + took, failed)
  }

  /** The message writer is given what it has not taken yet until it has it all, fails, or stalls. */
  method WriteAll(p: seq<byte>, turns: nat -> WriteTurn) returns (written: nat, err: Option<Error>)
    ensures written <= |p|
    ensures err.None? ==> written == |p|
    ensures err == Some(ShortWrite) ==> written < |p|
    ensures Willing(turns) ==> err.None?
    ensures (written, err) == Taken(|p|, turns, 0)
  {
    written := 0;
    var data := p;
    var i: nat := 0;
    while |data| > 0
      invariant written <= |p| && data == p[written..]
      invariant var (took, failed) := Taken(|data|, turns, i); Taken(|p|, turns, 0) == (written + took, failed)
      decreases |data|
    {
      var turn := turns(i);
      i := i + 1;
      var n := if turn.n > |data| then |data| else turn.n;
      written := written + n;
      data := data[n..];
      if turn.fails.Some? {
        return written, Some(Library(turn.fails.value));
      }
      if n == 0 {
        return written, Some(ShortWrite);
      }
    }
    err := None;
  }

  // ---- Streams ----

  /** Reads into real buffers that nothing hinders. */
  ghost predicate Unhindered(sizes: seq<nat>, turns: (nat, nat) -> ReadTurn) {
    forall i: nat :: i < |sizes| ==> sizes[i] > 0 && Prompt((k: nat) => turns(i, k))
  }

  /** Writes that nothing hinders. */
  ghost predicate Unfailing(openFails: nat -> Option<LibraryError>, turns: (nat, nat) -> WriteTurn,
                            closeFails: nat -> Option<LibraryError>) {
    forall i: nat :: openFails(i).None? && closeFails(i).None? && Willing((k: nat) => turns(i, k))
  }

  /** Successive reads: together they return a prefix of the stream, and what is left is the rest. */
  method ReadAll(conn: WebSocketConn, sizes: seq<nat>, turns: (nat, nat) -> ReadTurn)
    returns (delivered: seq<byte>, errors: seq<Option<Error>>)
    modifies conn
    ensures delivered + conn.Pending() == old(conn.Pending())
    ensures |errors| == |sizes|
    ensures AllBinary(old(conn.incoming)) && Unhindered(sizes, turns) ==> conn.Pending() == [] || |delivered| >= |sizes|
  {
    delivered, errors := [], [];
    for i := 0 to |sizes|
      invariant |errors| == i
      invariant delivered + conn.Pending() == old(conn.Pending())
      invariant AllBinary(old(conn.incoming)) ==> AllBinary(conn.incoming)
      invariant AllBinary(old(conn.incoming)) && Unhindered(sizes, turns) ==> conn.Pending() == [] || |delivered| >= i
    {
      var p := new byte[sizes[i]];
      ghost var before := conn.Pending();
      var n, err, _ := conn.Read(p, (k: nat) => turns(i, k));
      assert |before| == n + |conn.Pending()|;
      assert delivered + (p[..n] + conn.Pending()) == (delivered + p[..n]) + conn.Pending();
      delivered, errors := delivered + p[..n], errors + [err];
    }
  }

  /** Successive writes of a byte stream cut into chunks: the peer is given a prefix of the stream,
    * all of it if no write failed, in messages sent whole if so. */
  method WriteChunks(conn: WebSocketConn, chunks: seq<seq<byte>>, openFails: nat -> Option<LibraryError>,
                     turns: (nat, nat) -> WriteTurn, closeFails: nat -> Option<LibraryError>)
    returns (failed: bool)
    requires conn.Valid() && conn.sent == [] && conn.torn == []
    modifies conn
    ensures conn.Valid() && AllBinary(conn.sent)
    ensures !old(conn.closed) && Unfailing(openFails, turns, closeFails) ==> !failed
    ensures conn.Out() <= Flatten(chunks)
    ensures !failed ==> Payload(conn.sent) == Flatten(chunks) && conn.torn == []
    ensures conn.incoming == old(conn.incoming) && conn.reader == old(conn.reader)
  {
    failed := false;
    for i := 0 to |chunks|
      invariant conn.Valid() && conn.torn == [] && AllBinary(conn.sent)
      invariant !old(conn.closed) ==> !conn.closed
      invariant Payload(conn.sent) == Flatten(chunks[..i])
      invariant conn.incoming == old(conn.incoming) && conn.reader == old(conn.reader)
    {
      ghost var before := conn.sent;
      assert chunks[..i + 1][..i] == chunks[..i];
      var n, err := conn.Write(chunks[i], openFails(i), (k: nat) => turns(i, k), closeFails(i));
      if err.Some? {
        assert conn.Out() == Flatten(chunks[..i]) + chunks[i][..n] <= Flatten(chunks[..i + 1]);
        FlattenPrefix(chunks, i + 1);
        return true;
      }
      PayloadSnoc(before, Message(Binary, chunks[i]));
    }
    assert chunks[..|chunks|] == chunks;
  }

  lemma {:induction false} FlattenPrefix(chunks: seq<seq<byte>>, i: nat)
    requires i <= |chunks|
    ensures Flatten(chunks[..i]) <= Flatten(chunks)
    decreases |chunks|
  {
    if i == |chunks| {
      assert chunks[..i] == chunks;
    } else {
      FlattenPrefix(chunks[..|chunks| - 1], i);
      assert chunks[..|chunks| - 1][..i] == chunks[..i];
    }
  }

  /** One side writes, the other reads the messages sent whole: the reader never gets anything but a
    * prefix of what was written; once it has drained the messages of writes that all succeeded it has
    * got exactly what was written, and unhindered it gets there within a read per byte. */
  method Transfer(chunks: seq<seq<byte>>, openFails: nat -> Option<LibraryError>, writes: (nat, nat) -> WriteTurn,
                  closeFails: nat -> Option<LibraryError>, sizes: seq<nat>, turns: (nat, nat) -> ReadTurn)
    returns (delivered: seq<byte>, failed: bool, drained: bool)
    ensures delivered <= Flatten(chunks)
    ensures !failed && drained ==> delivered == Flatten(chunks)
    ensures Unfailing(openFails, writes, closeFails) && Unhindered(sizes, turns) && |sizes| >= |Flatten(chunks)| ==>
      delivered == Flatten(chunks)
  {
    var writer := new WebSocketConn([]);
    failed := WriteChunks(writer, chunks, openFails, writes, closeFails);
    var reader := new WebSocketConn(writer.sent);
    var errors;
    delivered, errors := ReadAll(reader, sizes, turns);
    drained := reader.Pending() == [];
    assert delivered + reader.Pending() == Payload(writer.sent) <= writer.Out();
  }
}
