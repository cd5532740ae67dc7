/** Dual-mode transport credentials: one credentials object serves both QUIC
    connections, whose session already carries TLS, and any other
    connection, for which it hands the handshake to the RPC framework's
    classic TLS credentials. The connection's concrete type decides. */
module Transports {
  import opened External
  import Net

  /** A `net.Conn`, split on the Go type assertion `conn.(*qnet.QuicConn)`. */
  datatype NetConn = Native(quic: Net.QuicConn) | Generic(other: GenericConn)

  /** The auth info of a QUIC connection. */
  datatype QuicInfo = QuicInfo(conn: Net.QuicConn) {
    function AuthType(): string {
      QuicAuthType
    }

    function Conn(): NetConn {
      Native(conn)
    }
  }

  const QuicAuthType := "quic-tls"

  function NewQuicInfo(c: Net.QuicConn): (qi: QuicInfo)
    ensures qi.Conn() == Native(c)
    ensures qi.AuthType() == "quic-tls"
  {
    QuicInfo(c)
  }

  /** A `credentials.AuthInfo`: the QUIC one, or the classic handshake's. */
  datatype AuthInfo = QuicAuth(quic: QuicInfo) | Classic(classic: ClassicAuth) {
    function AuthType(): string {
      match this
      case QuicAuth(q) => q.AuthType()
      case Classic(c) => c.authType
    }
  }

  /** The fixed protocol descriptor reported once QUIC has been seen. */
  function QuicProtocolInfo(serverName: string): ProtocolInfo
  {
    ProtocolInfo("/quic/1.0.0", "quic-tls", "1.2.0", serverName)
  }

  // ---------------------------------------------------------------------
  // The credentials' own state, and how each mutating operation changes it.

  datatype CredState = CredState(isQuic: bool, serverName: string)

  /** Every constructor and `Clone` start here. */
  const Initial := CredState(false, "")

  /** The operations that may change a credentials object. */
  datatype CredOp =
    | ClientHandshakeOp(ctx: Context, authority: string, conn: NetConn)
    | ServerHandshakeOp(conn: NetConn)
    | OverrideServerNameOp(name: string)
  {
    predicate IsNativeHandshake() {
      !OverrideServerNameOp? && conn.Native?
    }

    predicate IsOverride() {
      OverrideServerNameOp?
    }
  }

  function Step(s: CredState, op: CredOp): CredState
  {
    match op
    case ClientHandshakeOp(_, _, conn) => if conn.Native? then s.(isQuic := true) else s
    case ServerHandshakeOp(conn) => if conn.Native? then s.(isQuic := true) else s
    case OverrideServerNameOp(name) => s.(serverName := name)
  }

  /** The state after `ops`, applied in order. */
  function Run(s: CredState, ops: seq<CredOp>): CredState
    decreases ops
  {
    if ops == [] then s else Run(Step(s, ops[0]), ops[1..])
  }

  /** What `Info` reports in state `s`, given the classic credentials' info. */
  function InfoOf(s: CredState, classic: ProtocolInfo): ProtocolInfo
  {
    if s.isQuic then QuicProtocolInfo(s.serverName) else classic
  }

  lemma {:induction false} RunAppend(s: CredState, a: seq<CredOp>, b: seq<CredOp>)
    ensures Run(s, a + b) == Run(Run(s, a), b)
    decreases a
  {
    if a == [] {
      assert a + b == b;
    } else {
      assert (a + b)[0] == a[0] && (a + b)[1..] == a[1..] + b;
      RunAppend(Step(s, a[0]), a[1..], b);
    }
  }

  /** `isQuic` only ever goes up: after any sequence of operations it is set
      exactly when it was set before or one of them was a handshake on a
      QUIC connection. */
  lemma {:induction false} RunIsQuic(s: CredState, ops: seq<CredOp>)
    ensures Run(s, ops).isQuic <==> s.isQuic || exists i | 0 <= i < |ops| :: ops[i].IsNativeHandshake()
    decreases ops
  {
    if ops != [] {
      RunIsQuic(Step(s, ops[0]), ops[1..]);
      if exists i | 0 <= i < |ops[1..]| :: ops[1..][i].IsNativeHandshake() {
        var i :| 0 <= i < |ops[1..]| && ops[1..][i].IsNativeHandshake();
        assert ops[i + 1].IsNativeHandshake();
      }
      if exists i | 0 <= i < |ops| :: ops[i].IsNativeHandshake() {
        var i :| 0 <= i < |ops| && ops[i].IsNativeHandshake();
        if i > 0 {
          assert ops[1..][i - 1].IsNativeHandshake();
        }
      }
    }
  }

  /** Handshakes never change the server name. */
  lemma {:induction false} RunKeepsServerName(s: CredState, ops: seq<CredOp>)
    requires forall i | 0 <= i < |ops| :: !ops[i].IsOverride()
    ensures Run(s, ops).serverName == s.serverName
    decreases ops
  {
    if ops != [] {
      var rest := ops[1..];
      assert forall i | 0 <= i < |rest| :: !rest[i].IsOverride() by {
        forall i | 0 <= i < |rest| ensures !rest[i].IsOverride() {
          assert rest[i] == ops[i + 1];
        }
      }
      RunKeepsServerName(Step(s, ops[0]), rest);
    }
  }

  /** The server name is the one given by the last override. */
  lemma LastOverrideWins(s: CredState, ops: seq<CredOp>, i: nat)
    requires i < |ops| && ops[i].IsOverride()
    requires forall j | i < j < |ops| :: !ops[j].IsOverride()
    ensures Run(s, ops).serverName == ops[i].name
  {
    var pre, post := ops[..i + 1], ops[i + 1..];
    assert ops == pre + post;
    RunAppend(s, pre, post);
    assert pre == ops[..i] + [ops[i]];
    RunAppend(s, ops[..i], [ops[i]]);
    assert forall k | 0 <= k < |post| :: !post[k].IsOverride() by {
      forall k | 0 <= k < |post| ensures !post[k].IsOverride() {
        assert post[k] == ops[i + 1 + k];
      }
    }
    RunKeepsServerName(Run(s, pre), post);
  }

  /** Once a credentials object has handshaked one QUIC connection, `Info`
      reports the QUIC descriptor for good, whatever comes after, including
      classic handshakes of other connections. */
  lemma NativeInfoSticks(s: CredState, before: seq<CredOp>, op: CredOp, after: seq<CredOp>, classic: ProtocolInfo)
    requires op.IsNativeHandshake()
    ensures var t := Run(s, before + [op] + after);
      InfoOf(t, classic) == QuicProtocolInfo(t.serverName)
  {
    var ops := before + [op] + after;
    assert ops[|before|] == op;
    RunIsQuic(s, ops);
  }

  /** Until a QUIC connection has been handshaked, a fresh credentials
      object reports the classic credentials' info. */
  lemma ClassicInfoUntilNative(ops: seq<CredOp>, classic: ProtocolInfo)
    requires forall i | 0 <= i < |ops| :: !ops[i].IsNativeHandshake()
    ensures InfoOf(Run(Initial, ops), classic) == classic
  {
    RunIsQuic(Initial, ops);
  }

  // ---------------------------------------------------------------------
  // The Go struct `Credentials`.

  class Credentials {
    const tlsConfig: TlsConfig
    var isQuic: bool
    var serverName: string
    const grpcCreds: ClassicCreds

    function State(): CredState
      reads this
    {
      CredState(isQuic, serverName)
    }

    /** The struct literal `&Credentials{grpcCreds: ..., tlsConfig: ...}`. */
    constructor (tlsConfig: TlsConfig, grpcCreds: ClassicCreds)
      ensures this.tlsConfig == tlsConfig && this.grpcCreds == grpcCreds
      ensures State() == Initial
    {
      this.tlsConfig := tlsConfig;
      this.grpcCreds := grpcCreds;
      isQuic := false;
      serverName := "";
    }

    /** A QUIC connection is returned as it is, with QUIC auth info, and the
        classic credentials are never called; any other connection goes to
        the classic handshake once, with the same arguments, and its result
        comes back unchanged. */
    method ClientHandshake(ctx: Context, authority: string, conn: NetConn)
      returns (c: Option<NetConn>, auth: Option<AuthInfo>, err: Option<Error>)
      modifies this, grpcCreds.world
      ensures State() == Step(old(State()), ClientHandshakeOp(ctx, authority, conn))
      ensures conn.Native? ==>
        grpcCreds.world.trace == old(grpcCreds.world.trace) &&
        c == Some(conn) && auth == Some(QuicAuth(NewQuicInfo(conn.quic))) && err.None?
      ensures conn.Generic? ==>
        var call := ClassicClientHandshake(grpcCreds, ctx, authority, conn.other);
        grpcCreds.world.trace == old(grpcCreds.world.trace) + [call] &&
        (c, auth, err) == Lift(grpcCreds.Reply(old(grpcCreds.world.trace), call))
    {
      match conn
      case Native(q) =>
        isQuic := true;
        return Some(conn), Some(QuicAuth(NewQuicInfo(q))), None;
      case Generic(g) =>
        var gc, ga, e := grpcCreds.ClientHandshake(ctx, authority, g);
        c, auth, err := LiftConn(gc), LiftAuth(ga), e;
    }

    /** The same dispatch on the server side. */
    method ServerHandshake(conn: NetConn)
      returns (c: Option<NetConn>, auth: Option<AuthInfo>, err: Option<Error>)
      modifies this, grpcCreds.world
      ensures State() == Step(old(State()), ServerHandshakeOp(conn))
      ensures conn.Native? ==>
        grpcCreds.world.trace == old(grpcCreds.world.trace) &&
        c == Some(conn) && auth == Some(QuicAuth(NewQuicInfo(conn.quic))) && err.None?
      ensures conn.Generic? ==>
        var call := ClassicServerHandshake(grpcCreds, conn.other);
        grpcCreds.world.trace == old(grpcCreds.world.trace) + [call] &&
        (c, auth, err) == Lift(grpcCreds.Reply(old(grpcCreds.world.trace), call))
    {
      match conn
      case Native(q) =>
        isQuic := true;
        return Some(conn), Some(QuicAuth(NewQuicInfo(q))), None;
      case Generic(g) =>
        var gc, ga, e := grpcCreds.ServerHandshake(g);
        c, auth, err := LiftConn(gc), LiftAuth(ga), e;
    }

    function Info(): (p: ProtocolInfo)
      reads this, grpcCreds
      ensures isQuic ==> p == ProtocolInfo("/quic/1.0.0", "quic-tls", "1.2.0", serverName)
      ensures !isQuic ==> p == grpcCreds.Info()
    {
      InfoOf(State(), grpcCreds.Info())
    }

    /** A new object holding copies of the TLS configuration and of the
        classic credentials, with the mode and the server name reset. */
    method Clone() returns (c: Credentials)
      modifies grpcCreds.world
      ensures fresh(c) && fresh(c.tlsConfig) && fresh(c.grpcCreds)
      ensures c.State() == Initial
      ensures c.tlsConfig.settings == tlsConfig.settings
      ensures c.grpcCreds.world == grpcCreds.world && c.grpcCreds.config == grpcCreds.config
      ensures c.grpcCreds.nameOverride == grpcCreds.nameOverride
      ensures grpcCreds.world.trace == old(grpcCreds.world.trace) + [ClassicClone(grpcCreds)]
    {
      var config := tlsConfig.Clone();
      var classic := grpcCreds.Clone();
      c := new Credentials(config, classic);
    }

    /** Records the name and forwards it, once, to the classic credentials,
        whose error is returned. */
    method OverrideServerName(name: string) returns (err: Option<Error>)
      modifies this, grpcCreds, grpcCreds.world
      ensures State() == Step(old(State()), OverrideServerNameOp(name))
      ensures grpcCreds.nameOverride == Some(name)
      ensures grpcCreds.world.trace == old(grpcCreds.world.trace) + [ClassicOverrideServerName(grpcCreds, name)]
      ensures err == grpcCreds.world.behaviour.fails(old(grpcCreds.world.trace), ClassicOverrideServerName(grpcCreds, name))
    {
      serverName := name;
      err := grpcCreds.OverrideServerName(name);
    }

    function GetTLSConfig(): (c: TlsConfig)
      ensures c == tlsConfig
    {
      tlsConfig
    }
  }

  /** The classic handshake's (conn, authInfo, err), as `net.Conn` and
      `credentials.AuthInfo` values. */
  function Lift(r: (Option<GenericConn>, Option<ClassicAuth>, Option<Error>)): (Option<NetConn>, Option<AuthInfo>, Option<Error>)
  {
    (LiftConn(r.0), LiftAuth(r.1), r.2)
  }

  function LiftConn(c: Option<GenericConn>): Option<NetConn>
  {
    if c.Some? then Some(Generic(c.value)) else None
  }

  function LiftAuth(a: Option<ClassicAuth>): Option<AuthInfo>
  {
    if a.Some? then Some(Classic(a.value)) else None
  }

  // ---------------------------------------------------------------------
  // Constructors. Loading files and parsing PEM are I/O: their outcomes are
  // parameters. `world` is the environment the classic credentials call into.

  /** `credentials.NewTLS(config)` wrapped in a fresh `Credentials`. */
  method Build(world: World, settings: TlsSettings) returns (cred: Credentials)
    ensures fresh(cred) && fresh(cred.tlsConfig) && fresh(cred.grpcCreds)
    ensures cred.State() == Initial && cred.tlsConfig.settings == settings
    ensures cred.grpcCreds.world == world && cred.grpcCreds.config == settings && cred.grpcCreds.nameOverride.None?
  {
    var config := new TlsConfig(settings);
    var classic := new ClassicCreds(world, settings);
    cred := new Credentials(config, classic);
  }

  /** `loaded` and `loadErr` are what loading the key pair from the two files
      returned. */
  method NewServerTLSFromFile(world: World, loaded: Certificate, loadErr: Option<Error>)
    returns (cred: Credentials?, err: Option<Error>)
    ensures err == loadErr
    ensures cred == null <==> err.Some?
    ensures cred != null ==>
      fresh(cred) && cred.State() == Initial && cred.grpcCreds.world == world &&
      cred.tlsConfig.settings == TlsSettings([loaded], "", None, false) &&
      cred.grpcCreds.config == cred.tlsConfig.settings &&
      fresh(cred.tlsConfig) && fresh(cred.grpcCreds) && cred.grpcCreds.nameOverride.None?
  {
    if loadErr.Some? {
      return null, loadErr;
    }
    cred := Build(world, TlsSettings([loaded], "", None, false));
    err := None;
  }

  method NewServerTLSFromCert(world: World, cert: Certificate) returns (cred: Credentials)
    ensures fresh(cred) && cred.State() == Initial && cred.grpcCreds.world == world
    ensures cred.tlsConfig.settings == TlsSettings([cert], "", None, false)
    ensures cred.grpcCreds.config == cred.tlsConfig.settings
    ensures fresh(cred.tlsConfig) && fresh(cred.grpcCreds) && cred.grpcCreds.nameOverride.None?
  {
    cred := Build(world, TlsSettings([cert], "", None, false));
  }

  const FailedToAppend := Error("credentials: failed to append certificates")

  /** `contents` and `readErr` are what reading the CA file returned;
      `appendPem` gives the pool holding the certificates parsed from PEM
      bytes, or `None` when none could be appended. */
  method NewClientTLSFromFile(world: World, serverNameOverride: string, contents: Bytes, readErr: Option<Error>,
                              appendPem: Bytes -> Option<CertPool>)
    returns (cred: Credentials?, err: Option<Error>)
    ensures cred == null <==> err.Some?
    ensures readErr.Some? ==> err == readErr
    ensures readErr.None? && appendPem(contents).None? ==> err == Some(FailedToAppend)
    ensures readErr.None? && appendPem(contents).Some? ==> err.None?
    ensures cred != null ==>
      readErr.None? && appendPem(contents).Some? &&
      fresh(cred) && cred.State() == Initial && cred.grpcCreds.world == world &&
      cred.tlsConfig.settings == TlsSettings([], serverNameOverride, appendPem(contents), false) &&
      cred.grpcCreds.config == cred.tlsConfig.settings &&
      fresh(cred.tlsConfig) && fresh(cred.grpcCreds) && cred.grpcCreds.nameOverride.None?
  {
    if readErr.Some? {
      return null, readErr;
    }
    var cp := appendPem(contents);
    if cp.None? {
      return null, Some(FailedToAppend);
    }
    cred := Build(world, TlsSettings([], serverNameOverride, cp, false));
    err := None;
  }

  /** `cp` is `None` for a nil pool. */
  method NewClientTLSFromCert(world: World, cp: Option<CertPool>, serverNameOverride: string) returns (cred: Credentials)
    ensures fresh(cred) && cred.State() == Initial && cred.grpcCreds.world == world
    ensures cred.tlsConfig.settings == TlsSettings([], serverNameOverride, cp, false)
    ensures cred.grpcCreds.config == cred.tlsConfig.settings
    ensures fresh(cred.tlsConfig) && fresh(cred.grpcCreds) && cred.grpcCreds.nameOverride.None?
  {
    cred := Build(world, TlsSettings([], serverNameOverride, cp, false));
  }

  method NewClientTLSSkipVerify(world: World) returns (cred: Credentials)
    ensures fresh(cred) && cred.State() == Initial && cred.grpcCreds.world == world
    ensures cred.tlsConfig.settings == TlsSettings([], "", None, true)
    ensures cred.grpcCreds.config == cred.tlsConfig.settings
    ensures fresh(cred.tlsConfig) && fresh(cred.grpcCreds) && cred.grpcCreds.nameOverride.None?
  {
    cred := Build(world, TlsSettings([], "", None, true));
  }
}
