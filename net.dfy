/** The connection adapter: one QUIC session plus one of its streams behind
    the generic connection interface. Bytes and deadlines go to the stream;
    addresses come from the session; closing closes both. */
module Net {
  import opened External

  /** The operations of a connection that reach a collaborator. */
  datatype ConnOp =
    | ReadOp(buffer: Bytes)
    | WriteOp(buffer: Bytes)
    | CloseOp
    | SetDeadLineOp(t: Time)
    | SetReadDeadLineOp(t: Time)
    | SetWriteDeadLineOp(t: Time)

  /** The calls that one operation on the connection made of `sess` and
      `stream` issues, in order. */
  function Issued(sess: Session, stream: Stream, op: ConnOp): seq<Call>
  {
    match op
    case ReadOp(b) => [StreamRead(stream, b)]
    case WriteOp(b) => [StreamWrite(stream, b)]
    case CloseOp => [StreamClose(stream), SessionClose(sess)]
    case SetDeadLineOp(t) => [StreamSetDeadline(stream, t)]
    case SetReadDeadLineOp(t) => [StreamSetReadDeadline(stream, t)]
    case SetWriteDeadLineOp(t) => [StreamSetWriteDeadline(stream, t)]
  }

  /** The calls a sequence of operations issues. */
  function IssuedAll(sess: Session, stream: Stream, ops: seq<ConnOp>): seq<Call>
  {
    if ops == [] then [] else Issued(sess, stream, ops[0]) + IssuedAll(sess, stream, ops[1..])
  }

  /** However a connection is used, every call it makes is on its own stream
      or on its own session, and the only call it ever makes on the session
      is `Close`: reads, writes and deadlines never reach the session. */
  lemma {:induction false} OnlyCloseReachesSession(sess: Session, stream: Stream, ops: seq<ConnOp>)
    ensures forall c | c in IssuedAll(sess, stream, ops) :: c.OnStream(stream) || c == SessionClose(sess)
    ensures forall c | c in IssuedAll(sess, stream, ops) :: c.OnSession(sess) <==> c == SessionClose(sess)
  {
    if ops != [] {
      OnlyCloseReachesSession(sess, stream, ops[1..]);
      assert IssuedAll(sess, stream, ops) == Issued(sess, stream, ops[0]) + IssuedAll(sess, stream, ops[1..]);
    }
  }

  /** However a connection is used, its session is closed only right after
      its stream was: the stream is always closed first. */
  lemma {:induction false} StreamClosedBeforeSession(sess: Session, stream: Stream, ops: seq<ConnOp>)
    ensures forall i | 0 <= i < |IssuedAll(sess, stream, ops)| && IssuedAll(sess, stream, ops)[i] == SessionClose(sess) ::
      0 < i && IssuedAll(sess, stream, ops)[i - 1] == StreamClose(stream)
  {
    if ops != [] {
      StreamClosedBeforeSession(sess, stream, ops[1..]);
      var head, rest := Issued(sess, stream, ops[0]), IssuedAll(sess, stream, ops[1..]);
      var t := IssuedAll(sess, stream, ops);
      assert t == head + rest;
      forall i | 0 <= i < |t| && t[i] == SessionClose(sess)
        ensures 0 < i && t[i - 1] == StreamClose(stream)
      {
        if i >= |head| {
          var j := i - |head|;
          assert rest[j] == SessionClose(sess);
          assert 0 < j && rest[j - 1] == StreamClose(stream);
          assert t[i - 1] == rest[j - 1];
        }
      }
    }
  }

  /** The Go struct `QuicConn`. */
  class QuicConn {
    const sess: Session
    const stream: Stream

    /** The stream belongs to the session it is paired with. */
    predicate Valid() {
      stream.session == sess
    }

    constructor (sess: Session, stream: Stream)
      ensures this.sess == sess && this.stream == stream
    {
      this.sess := sess;
      this.stream := stream;
    }

    method Read(b: Bytes) returns (n: nat, err: Option<Error>)
      requires Valid()
      modifies sess.world
      ensures sess.world.trace == old(sess.world.trace) + Issued(sess, stream, ReadOp(b))
      ensures n == sess.world.behaviour.moved(old(sess.world.trace), StreamRead(stream, b))
      ensures err == sess.world.behaviour.fails(old(sess.world.trace), StreamRead(stream, b))
      ensures unchanged(sess, stream)
    {
      n, err := stream.Read(b);
    }

    method Write(b: Bytes) returns (n: nat, err: Option<Error>)
      requires Valid()
      modifies sess.world
      ensures sess.world.trace == old(sess.world.trace) + Issued(sess, stream, WriteOp(b))
      ensures n == sess.world.behaviour.moved(old(sess.world.trace), StreamWrite(stream, b))
      ensures err == sess.world.behaviour.fails(old(sess.world.trace), StreamWrite(stream, b))
      ensures unchanged(sess, stream)
    {
      n, err := stream.Write(b);
    }

    /** Closes the stream, then the session; the stream's error is dropped
        and the session's is returned. */
    method Close() returns (err: Option<Error>)
      requires Valid()
      modifies stream, sess, sess.world
      ensures stream.closed && sess.closed
      ensures stream.readDeadline == old(stream.readDeadline) && stream.writeDeadline == old(stream.writeDeadline)
      ensures sess.world.trace == old(sess.world.trace) + Issued(sess, stream, CloseOp)
      ensures err == sess.world.behaviour.fails(old(sess.world.trace) + [StreamClose(stream)], SessionClose(sess))
    {
      var _ := stream.Close();
      err := sess.Close();
    }

    function LocalAddr(): (a: Addr)
      ensures a == sess.localAddr
    {
      sess.localAddr
    }

    function RemoteAddr(): (a: Addr)
      ensures a == sess.remoteAddr
    {
      sess.remoteAddr
    }

    method SetDeadLine(t: Time) returns (err: Option<Error>)
      requires Valid()
      modifies stream, sess.world
      ensures stream.closed == old(stream.closed)
      ensures stream.readDeadline == Some(t) && stream.writeDeadline == Some(t)
      ensures sess.world.trace == old(sess.world.trace) + Issued(sess, stream, SetDeadLineOp(t))
      ensures err == sess.world.behaviour.fails(old(sess.world.trace), StreamSetDeadline(stream, t))
      ensures unchanged(sess)
    {
      err := stream.SetDeadline(t);
    }

    method SetReadDeadLine(t: Time) returns (err: Option<Error>)
      requires Valid()
      modifies stream, sess.world
      ensures stream.closed == old(stream.closed)
      ensures stream.readDeadline == Some(t) && stream.writeDeadline == old(stream.writeDeadline)
      ensures sess.world.trace == old(sess.world.trace) + Issued(sess, stream, SetReadDeadLineOp(t))
      ensures err == sess.world.behaviour.fails(old(sess.world.trace), StreamSetReadDeadline(stream, t))
      ensures unchanged(sess)
    {
      err := stream.SetReadDeadline(t);
    }

    method SetWriteDeadLine(t: Time) returns (err: Option<Error>)
      requires Valid()
      modifies stream, sess.world
      ensures stream.closed == old(stream.closed)
      ensures stream.readDeadline == old(stream.readDeadline) && stream.writeDeadline == Some(t)
      ensures sess.world.trace == old(sess.world.trace) + Issued(sess, stream, SetWriteDeadLineOp(t))
      ensures err == sess.world.behaviour.fails(old(sess.world.trace), StreamSetWriteDeadline(stream, t))
      ensures unchanged(sess)
    {
      err := stream.SetWriteDeadline(t);
    }
  }

  /** Client side: opens one stream on an established session and pairs the
      two. If the stream cannot be opened, the error comes back and there is
      no connection. */
  method NewConn(sess: Session) returns (c: QuicConn?, err: Option<Error>)
    modifies sess.world
    ensures sess.world.trace == old(sess.world.trace) + [SessionOpenStreamSync(sess)]
    ensures err == sess.world.behaviour.fails(old(sess.world.trace), SessionOpenStreamSync(sess))
    ensures c == null <==> err.Some?
    ensures c != null ==> fresh(c) && fresh(c.stream) && c.sess == sess && c.Valid() && c.stream.IsNew()
    ensures unchanged(sess)
  {
    var stream;
    stream, err := sess.OpenStreamSync();
    if err.Some? {
      return null, err;
    }
    c := new QuicConn(sess, stream);
  }
}
