/** What a caller can conclude from the contracts alone: the RPC server's
    accept loop takes a connection from the listener adapter and hands it to
    the dual-mode credentials for the server-side handshake. */
module Scenario {
  import opened External
  import Net
  import Listeners
  import opened Transports

  /** One step of the server's accept loop. When a connection is accepted,
      the handshake takes the QUIC path: the auth info reports "quic-tls",
      the credentials switch to QUIC mode, the classic credentials are never
      called, and the connection's addresses are those of the session just
      accepted. */
  method AcceptAndHandshake(l: Listeners.Listener, creds: Credentials)
    returns (conn: Option<NetConn>, auth: Option<AuthInfo>, err: Option<Error>)
    requires creds.grpcCreds.world == l.ql.world
    modifies l.ql.world, creds
    ensures err.None? ==>
      conn.Some? && conn.value.Native? && auth.Some? && auth.value.AuthType() == "quic-tls" &&
      creds.isQuic && creds.serverName == old(creds.serverName) &&
      creds.Info() == ProtocolInfo("/quic/1.0.0", "quic-tls", "1.2.0", old(creds.serverName))
    ensures err.None? ==>
      var c := conn.value.quic;
      l.ql.world.trace == old(l.ql.world.trace) + [ListenerAccept(l.ql), SessionAcceptStream(c.sess)] &&
      (c.LocalAddr(), c.RemoteAddr()) == l.ql.world.behaviour.peers(old(l.ql.world.trace), ListenerAccept(l.ql))
    ensures err.Some? ==> conn.None? && auth.None? && creds.State() == old(creds.State())
  {
    var c, e, s := l.Accept();
    if e.Some? {
      return None, None, e;
    }
    conn, auth, err := creds.ServerHandshake(Native(c));
  }
}
