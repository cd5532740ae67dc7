/** The listener adapter: wraps the QUIC library's session listener and
    turns each accepted session, paired with the first stream its peer
    opens, into a connection. */
module Listeners {
  import opened External
  import Net

  /** The Go struct `Listener`. Its only field is never reassigned, so every
      later `Accept` works on the same session listener. */
  class Listener {
    const ql: SessionListener

    constructor (ql: SessionListener)
      ensures this.ql == ql
    {
      this.ql := ql;
    }

    /** Accepts one session, then that session's first stream, and pairs
        them. `sess` (ghost) is the session accepted, if any. The first
        failure ends the call and is returned; a session whose stream could
        not be accepted is left open. */
    method Accept() returns (c: Net.QuicConn?, err: Option<Error>, ghost sess: Session?)
      modifies ql.world
      ensures unchanged(ql)
      ensures c == null <==> err.Some?
      ensures sess == null ==>
        err == ql.world.behaviour.fails(old(ql.world.trace), ListenerAccept(ql)) &&
        ql.world.trace == old(ql.world.trace) + [ListenerAccept(ql)]
      ensures sess != null ==>
        fresh(sess) && !sess.closed && sess.world == ql.world &&
        (sess.localAddr, sess.remoteAddr) == ql.world.behaviour.peers(old(ql.world.trace), ListenerAccept(ql)) &&
        ql.world.behaviour.fails(old(ql.world.trace), ListenerAccept(ql)).None? &&
        ql.world.trace == old(ql.world.trace) + [ListenerAccept(ql), SessionAcceptStream(sess)] &&
        err == ql.world.behaviour.fails(old(ql.world.trace) + [ListenerAccept(ql)], SessionAcceptStream(sess))
      ensures c != null ==>
        fresh(c) && fresh(c.stream) && c.sess == sess && c.Valid() && c.stream.IsNew()
    {
      var s;
      s, err := ql.Accept();
      sess := s;
      if err.Some? {
        return null, err, sess;
      }
      var stream;
      stream, err := s.AcceptStream();
      if err.Some? {
        return null, err, sess;
      }
      c := new Net.QuicConn(s, stream);
    }

    /** Closes the session listener; connections already handed out are not
        touched. */
    method Close() returns (err: Option<Error>)
      modifies ql, ql.world
      ensures ql.closed
      ensures ql.world.trace == old(ql.world.trace) + [ListenerClose(ql)]
      ensures err == ql.world.behaviour.fails(old(ql.world.trace), ListenerClose(ql))
    {
      err := ql.Close();
    }

    function Addr(): (a: Addr)
      ensures a == ql.addr
    {
      ql.addr
    }
  }

  /** Wraps a session listener. */
  method Listen(ql: SessionListener) returns (l: Listener)
    ensures fresh(l) && l.ql == ql
  {
    l := new Listener(ql);
  }
}
