/** The collaborators the adapter layer talks to but does not implement:
    the QUIC library's listener, session and stream, the RPC framework's
    classic TLS credentials, and the TLS configuration object.

    Each of them is a black box. Every call into one of them is appended to
    the `trace` of a shared `World`, and whatever the call answers is read off
    the world's `Behaviour`: total functions of the calls made so far and of
    the call itself. Any deterministic environment, however stateful, is such
    a function, so a property proved for every `Behaviour` holds whatever the
    library does. Because the trace is one sequence shared by all objects,
    the order of calls on different objects can be stated. */
module External {

  datatype Option<T> = None | Some(value: T)

  /** A non-nil Go `error`; `None` stands for nil. */
  datatype Error = Error(message: string)

  type Bytes = seq<bv8>

  datatype Addr = Addr(network: string, address: string)

  /** A deadline, passed through untouched. */
  datatype Time = Time(unixNano: int)

  /** An opaque `context.Context`. */
  datatype Context = Context(id: nat)

  /** Any `net.Conn` that is not one of this adapter's QUIC connections
      (a TCP connection, a TLS connection wrapping one, ...). */
  datatype GenericConn = GenericConn(id: nat)

  datatype Certificate = Certificate(id: nat)

  datatype CertPool = CertPool(id: nat)

  /** The fields of `tls.Config` that the credential constructors set. */
  datatype TlsSettings = TlsSettings(
    certificates: seq<Certificate>,
    serverName: string,
    rootCAs: Option<CertPool>,
    insecureSkipVerify: bool)

  /** The RPC framework's `credentials.ProtocolInfo`. */
  datatype ProtocolInfo = ProtocolInfo(
    protocolVersion: string,
    securityProtocol: string,
    securityVersion: string,
    serverName: string)

  /** The `credentials.AuthInfo` a classic TLS handshake produces. */
  datatype ClassicAuth = ClassicAuth(authType: string)

  /** Every call the adapter layer can make into a collaborator. */
  datatype Call =
    | StreamRead(stream: Stream, buffer: Bytes)
    | StreamWrite(stream: Stream, buffer: Bytes)
    | StreamClose(stream: Stream)
    | StreamSetDeadline(stream: Stream, t: Time)
    | StreamSetReadDeadline(stream: Stream, t: Time)
    | StreamSetWriteDeadline(stream: Stream, t: Time)
    | SessionOpenStreamSync(session: Session)
    | SessionAcceptStream(session: Session)
    | SessionClose(session: Session)
    | ListenerAccept(listener: SessionListener)
    | ListenerClose(listener: SessionListener)
    | ClassicClientHandshake(creds: ClassicCreds, ctx: Context, authority: string, conn: GenericConn)
    | ClassicServerHandshake(creds: ClassicCreds, conn: GenericConn)
    | ClassicOverrideServerName(creds: ClassicCreds, name: string)
    | ClassicClone(creds: ClassicCreds)
  {
    /** The call is made on session `s` itself (not on one of its streams). */
    predicate OnSession(s: Session) {
      match this
      case SessionOpenStreamSync(x) => x == s
      case SessionAcceptStream(x) => x == s
      case SessionClose(x) => x == s
      case _ => false
    }

    /** The call is made on stream `s`. */
    predicate OnStream(s: Stream) {
      match this
      case StreamRead(x, _) => x == s
      case StreamWrite(x, _) => x == s
      case StreamClose(x) => x == s
      case StreamSetDeadline(x, _) => x == s
      case StreamSetReadDeadline(x, _) => x == s
      case StreamSetWriteDeadline(x, _) => x == s
      case _ => false
    }
  }

  /** What the environment answers, given the calls made before and the
      call being made now. */
  datatype Behaviour = Behaviour(
    /** the error the call returns, if any */
    fails: (seq<Call>, Call) -> Option<Error>,
    /** the byte count a read or write returns */
    moved: (seq<Call>, Call) -> nat,
    /** the local and remote address of a session a listener accepts */
    peers: (seq<Call>, Call) -> (Addr, Addr),
    /** the connection and auth info a classic handshake returns */
    secured: (seq<Call>, Call) -> (Option<GenericConn>, Option<ClassicAuth>),
    /** the classic credentials' protocol info, from their configuration
        and their server-name override */
    describe: (TlsSettings, Option<string>) -> ProtocolInfo)

  class World {
    const behaviour: Behaviour
    var trace: seq<Call>

    constructor (behaviour: Behaviour)
      ensures this.behaviour == behaviour && trace == []
    {
      this.behaviour := behaviour;
      trace := [];
    }

    /** Makes call `c`: records it and returns the error it reports. */
    method Perform(c: Call) returns (err: Option<Error>)
      modifies this
      ensures trace == old(trace) + [c]
      ensures err == behaviour.fails(old(trace), c)
    {
      err := behaviour.fails(trace, c);
      trace := trace + [c];
    }
  }

  /** `*tls.Config`, as a pointer: `Clone` gives a new object with the
      same settings. */
  class TlsConfig {
    const settings: TlsSettings

    constructor (settings: TlsSettings)
      ensures this.settings == settings
    {
      this.settings := settings;
    }

    method Clone() returns (c: TlsConfig)
      ensures fresh(c) && c.settings == settings
    {
      c := new TlsConfig(settings);
    }
  }

  /** A QUIC session: one secure channel that hosts many streams. */
  class Session {
    const world: World
    const localAddr: Addr
    const remoteAddr: Addr
    var closed: bool

    constructor (world: World, localAddr: Addr, remoteAddr: Addr)
      ensures this.world == world && this.localAddr == localAddr && this.remoteAddr == remoteAddr
      ensures !closed
    {
      this.world := world;
      this.localAddr := localAddr;
      this.remoteAddr := remoteAddr;
      closed := false;
    }

    /** Opens a new stream on this session, waiting until that is possible. */
    method OpenStreamSync() returns (s: Stream?, err: Option<Error>)
      modifies world
      ensures world.trace == old(world.trace) + [SessionOpenStreamSync(this)]
      ensures err == world.behaviour.fails(old(world.trace), SessionOpenStreamSync(this))
      ensures s == null <==> err.Some?
      ensures s != null ==> fresh(s) && s.session == this && s.IsNew()
    {
      err := world.Perform(SessionOpenStreamSync(this));
      s := null;
      if err.None? {
        s := new Stream(this);
      }
    }

    /** Waits for the peer to open a stream on this session. */
    method AcceptStream() returns (s: Stream?, err: Option<Error>)
      modifies world
      ensures world.trace == old(world.trace) + [SessionAcceptStream(this)]
      ensures err == world.behaviour.fails(old(world.trace), SessionAcceptStream(this))
      ensures s == null <==> err.Some?
      ensures s != null ==> fresh(s) && s.session == this && s.IsNew()
    {
      err := world.Perform(SessionAcceptStream(this));
      s := null;
      if err.None? {
        s := new Stream(this);
      }
    }

    method Close() returns (err: Option<Error>)
      modifies this, world
      ensures closed
      ensures world.trace == old(world.trace) + [SessionClose(this)]
      ensures err == world.behaviour.fails(old(world.trace), SessionClose(this))
    {
      err := world.Perform(SessionClose(this));
      closed := true;
    }
  }

  /** A QUIC stream, belonging to exactly one session. */
  class Stream {
    const session: Session
    var closed: bool
    var readDeadline: Option<Time>
    var writeDeadline: Option<Time>

    constructor (session: Session)
      ensures this.session == session && IsNew()
    {
      this.session := session;
      closed := false;
      readDeadline := None;
      writeDeadline := None;
    }

    /** Open, with no deadline set. */
    predicate IsNew()
      reads this
    {
      !closed && readDeadline.None? && writeDeadline.None?
    }

    method Read(b: Bytes) returns (n: nat, err: Option<Error>)
      modifies session.world
      ensures session.world.trace == old(session.world.trace) + [StreamRead(this, b)]
      ensures n == session.world.behaviour.moved(old(session.world.trace), StreamRead(this, b))
      ensures err == session.world.behaviour.fails(old(session.world.trace), StreamRead(this, b))
    {
      n := session.world.behaviour.moved(session.world.trace, StreamRead(this, b));
      err := session.world.Perform(StreamRead(this, b));
    }

    method Write(b: Bytes) returns (n: nat, err: Option<Error>)
      modifies session.world
      ensures session.world.trace == old(session.world.trace) + [StreamWrite(this, b)]
      ensures n == session.world.behaviour.moved(old(session.world.trace), StreamWrite(this, b))
      ensures err == session.world.behaviour.fails(old(session.world.trace), StreamWrite(this, b))
    {
      n := session.world.behaviour.moved(session.world.trace, StreamWrite(this, b));
      err := session.world.Perform(StreamWrite(this, b));
    }

    method Close() returns (err: Option<Error>)
      modifies this, session.world
      ensures closed && readDeadline == old(readDeadline) && writeDeadline == old(writeDeadline)
      ensures session.world.trace == old(session.world.trace) + [StreamClose(this)]
      ensures err == session.world.behaviour.fails(old(session.world.trace), StreamClose(this))
    {
      err := session.world.Perform(StreamClose(this));
      closed := true;
    }

    method SetDeadline(t: Time) returns (err: Option<Error>)
      modifies this, session.world
      ensures closed == old(closed) && readDeadline == Some(t) && writeDeadline == Some(t)
      ensures session.world.trace == old(session.world.trace) + [StreamSetDeadline(this, t)]
      ensures err == session.world.behaviour.fails(old(session.world.trace), StreamSetDeadline(this, t))
    {
      err := session.world.Perform(StreamSetDeadline(this, t));
      readDeadline, writeDeadline := Some(t), Some(t);
    }

    method SetReadDeadline(t: Time) returns (err: Option<Error>)
      modifies this, session.world
      ensures closed == old(closed) && readDeadline == Some(t) && writeDeadline == old(writeDeadline)
      ensures session.world.trace == old(session.world.trace) + [StreamSetReadDeadline(this, t)]
      ensures err == session.world.behaviour.fails(old(session.world.trace), StreamSetReadDeadline(this, t))
    {
      err := session.world.Perform(StreamSetReadDeadline(this, t));
      readDeadline := Some(t);
    }

    method SetWriteDeadline(t: Time) returns (err: Option<Error>)
      modifies this, session.world
      ensures closed == old(closed) && readDeadline == old(readDeadline) && writeDeadline == Some(t)
      ensures session.world.trace == old(session.world.trace) + [StreamSetWriteDeadline(this, t)]
      ensures err == session.world.behaviour.fails(old(session.world.trace), StreamSetWriteDeadline(this, t))
    {
      err := session.world.Perform(StreamSetWriteDeadline(this, t));
      writeDeadline := Some(t);
    }
  }

  /** The QUIC library's listener: it accepts sessions. */
  class SessionListener {
    const world: World
    const addr: Addr
    var closed: bool

    constructor (world: World, addr: Addr)
      ensures this.world == world && this.addr == addr && !closed
    {
      this.world := world;
      this.addr := addr;
      closed := false;
    }

    /** Waits for a peer to establish a session. */
    method Accept() returns (s: Session?, err: Option<Error>)
      modifies world
      ensures world.trace == old(world.trace) + [ListenerAccept(this)]
      ensures err == world.behaviour.fails(old(world.trace), ListenerAccept(this))
      ensures s == null <==> err.Some?
      ensures s != null ==> fresh(s) && s.world == world && !s.closed
      ensures s != null ==> (s.localAddr, s.remoteAddr) == world.behaviour.peers(old(world.trace), ListenerAccept(this))
    {
      var addrs := world.behaviour.peers(world.trace, ListenerAccept(this));
      err := world.Perform(ListenerAccept(this));
      s := null;
      if err.None? {
        s := new Session(world, addrs.0, addrs.1);
      }
    }

    method Close() returns (err: Option<Error>)
      modifies this, world
      ensures closed
      ensures world.trace == old(world.trace) + [ListenerClose(this)]
      ensures err == world.behaviour.fails(old(world.trace), ListenerClose(this))
    {
      err := world.Perform(ListenerClose(this));
      closed := true;
    }
  }

  /** The RPC framework's classic TLS transport credentials, as built by
      `credentials.NewTLS`. */
  class ClassicCreds {
    const world: World
    const config: TlsSettings
    var nameOverride: Option<string>

    constructor (world: World, config: TlsSettings)
      ensures this.world == world && this.config == config && nameOverride.None?
    {
      this.world := world;
      this.config := config;
      nameOverride := None;
    }

    /** The reply of a classic handshake call: Go's (conn, authInfo, err). */
    function Reply(before: seq<Call>, c: Call): (Option<GenericConn>, Option<ClassicAuth>, Option<Error>)
    {
      var (conn, auth) := world.behaviour.secured(before, c);
      (conn, auth, world.behaviour.fails(before, c))
    }

    method ClientHandshake(ctx: Context, authority: string, conn: GenericConn)
      returns (c: Option<GenericConn>, auth: Option<ClassicAuth>, err: Option<Error>)
      modifies world
      ensures world.trace == old(world.trace) + [ClassicClientHandshake(this, ctx, authority, conn)]
      ensures (c, auth, err) == Reply(old(world.trace), ClassicClientHandshake(this, ctx, authority, conn))
    {
      var call := ClassicClientHandshake(this, ctx, authority, conn);
      c, auth := world.behaviour.secured(world.trace, call).0, world.behaviour.secured(world.trace, call).1;
      err := world.Perform(call);
    }

    method ServerHandshake(conn: GenericConn)
      returns (c: Option<GenericConn>, auth: Option<ClassicAuth>, err: Option<Error>)
      modifies world
      ensures world.trace == old(world.trace) + [ClassicServerHandshake(this, conn)]
      ensures (c, auth, err) == Reply(old(world.trace), ClassicServerHandshake(this, conn))
    {
      var call := ClassicServerHandshake(this, conn);
      c, auth := world.behaviour.secured(world.trace, call).0, world.behaviour.secured(world.trace, call).1;
      err := world.Perform(call);
    }

    function Info(): ProtocolInfo
      reads this
    {
      world.behaviour.describe(config, nameOverride)
    }

    method Clone() returns (c: ClassicCreds)
      modifies world
      ensures fresh(c) && c.world == world && c.config == config && c.nameOverride == nameOverride
      ensures world.trace == old(world.trace) + [ClassicClone(this)]
    {
      var _ := world.Perform(ClassicClone(this));
      c := new ClassicCreds(world, config);
      c.nameOverride := nameOverride;
    }

    method OverrideServerName(name: string) returns (err: Option<Error>)
      modifies this, world
      ensures nameOverride == Some(name)
      ensures world.trace == old(world.trace) + [ClassicOverrideServerName(this, name)]
      ensures err == world.behaviour.fails(old(world.trace), ClassicOverrideServerName(this, name))
    {
      err := world.Perform(ClassicOverrideServerName(this, name));
      nameOverride := Some(name);
    }
  }
}
