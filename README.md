# grpc-quic adapter core, modelled in Dafny

grpc-quic lets gRPC run over QUIC. gRPC wants a stream-style connection and
handshaking transport credentials. QUIC offers sessions, each carrying many
streams. This project models the three pieces of the repository that join
the two:

- **the connection adapter** (`Net.QuicConn`, `net/net.go`): one QUIC session
  and one of its streams. Reads, writes and deadlines go to the stream.
  Addresses come from the session. `Close` closes the stream, then the
  session, and returns the session's error.
- **the listener adapter** (`Listeners.Listener`, `net/listener.go`):
  `Accept` accepts a session, then that session's first stream, and pairs the
  two. It returns after the first failure.
- **the dual-mode credentials** (`Transports.Credentials`,
  `transports/transports.go`): the Go type assertion `conn.(*qnet.QuicConn)`
  becomes a match on `NetConn = Native(quic) | Generic(other)`. A QUIC
  connection skips the handshake and sets `isQuic`. Any other connection is
  handed to the embedded classic TLS credentials. `Info` reports a fixed QUIC
  descriptor once `isQuic` is set. `Clone` resets the mode and the server name.

The QUIC library, gRPC's classic TLS credentials and `tls.Config` are black
boxes, modelled in module `External`. Each collaborator is a class with the
state the adapters rely on, such as `closed` flags, deadlines and a
server-name override. Every call into a collaborator that can fail or change
state is appended to the `trace` of one shared `World`. Pure reads are not
traced: `tls.Config.Clone`, the classic credentials' `Info`, and the
addresses of a session or a session listener, which are constant fields. What the call answers (an error, a byte count,
the addresses of an accepted session, a classic handshake's result) is a
total function of the calls made before and of the call itself, taken from
the world's `Behaviour`. Any deterministic library fits this pattern.
So "returns the stream's result unchanged" is stated as "equals
`behaviour.fails(old(trace), StreamRead(stream, b))`". Because all objects
share one trace, "the stream is closed before the session" and "the classic
credentials are never called" are statements about that trace.

The credentials' own state is also given as a value, `CredState(isQuic,
serverName)`. Each mutating method is proved to move it by `Step`, and lemmas
over `Run` (any sequence of operations) prove the following:

- `isQuic` only rises, and it is set exactly when a QUIC handshake happened;
- the server name is the last override;
- once a QUIC connection has been handshaked, `Info` reports the QUIC
  descriptor for good.

The connection adapter has the same kind of lemmas over `IssuedAll`, the
calls that any sequence of its operations issues.

`Net.QuicConn.Valid()` says the stream belongs to the session it is paired
with. `NewConn` and `Accept` establish it, and the fields never change.

Files: `external.dfy` (collaborators), `net.dfy`, `listener.dfy`,
`transports.dfy` (one module per source file), `scenario.dfy` (a caller's
view: the server's accept loop followed by the server handshake).

Two details of the code:

- `OverrideServerName` returns whatever the classic credentials return; the
  adapter does not guarantee success.
- The deadline setters are spelled `SetDeadLine`, `SetReadDeadLine` and
  `SetWriteDeadLine` in `net/net.go`, and the model keeps those names. As
  spelled, they match neither `net.Conn`'s nor the QUIC stream's
  `SetDeadline` methods, so `*QuicConn` does not implement `net.Conn`:
  `return &QuicConn{sess, stream}, nil` in `NewConn` and `Accept`, and the
  type assertion in the credentials' handshakes, do not compile as written.
  The model treats each setter as forwarding to the stream method it
  evidently means, and `QuicConn` as the connection type it is meant to be.

## Model

| member | source | states |
|---|---|---|
| `Transports.NewQuicInfo` | transports/transports.go:28-38 | the QUIC auth info built from `c` reports auth type "quic-tls" and gives back `c` as its connection |
| `Transports.Credentials.constructor` | transports/transports.go:48-51 | a new credentials object starts with `isQuic` false and an empty server name, holding the given TLS config and classic credentials |
| `Transports.Credentials.ClientHandshake` | transports/transports.go:100-107 | native connection: returned unchanged with QUIC auth info and no error, `isQuic` set, the classic credentials never called; other connection: exactly one classic `ClientHandshake` with the same ctx, authority and connection, its result returned unchanged, the state unchanged |
| `Transports.Credentials.ServerHandshake` | transports/transports.go:109-116 | the same dispatch for the server side: native gives (conn, QUIC info, nil) and sets `isQuic`; any other connection goes once to the classic `ServerHandshake`, whose result is returned |
| `Transports.Credentials.Info` | transports/transports.go:118-128 | with `isQuic` set, exactly {"/quic/1.0.0", "quic-tls", "1.2.0", serverName}; otherwise the classic credentials' info |
| `Transports.Credentials.Clone` | transports/transports.go:130-135 | a fresh object with `isQuic` false and server name "" whatever the receiver's state, holding a fresh copy of the TLS config and a fresh clone of the classic credentials (one classic `Clone` call); the receiver is untouched |
| `Transports.Credentials.OverrideServerName` | transports/transports.go:137-140 | records the name, forwards it once to the classic credentials, returns their error, and leaves `isQuic` unchanged |
| `Transports.Credentials.GetTLSConfig` | transports/transports.go:142-144 | the stored config object itself, not a copy |
| `Transports.NewServerTLSFromFile` | transports/transports.go:40-52 | a key-pair load error is returned with no credentials; otherwise credentials in the initial state with a new TLS config and new classic credentials (no name override), both holding exactly the loaded certificate |
| `Transports.NewServerTLSFromCert` | transports/transports.go:54-62 | credentials in the initial state with a new TLS config holding exactly the given certificate and new classic credentials built from it, with no name override |
| `Transports.NewClientTLSFromFile` | transports/transports.go:64-80 | a read error is returned as is; PEM bytes that append no certificate give "credentials: failed to append certificates"; otherwise the call succeeds, with credentials in the initial state whose new TLS config holds the override name and the parsed pool, and new classic credentials built from it with no name override |
| `Transports.NewClientTLSFromCert` | transports/transports.go:82-89 | credentials in the initial state with a new config holding the given pool and server-name override, and new classic credentials built from it with no name override |
| `Transports.NewClientTLSSkipVerify` | transports/transports.go:91-98 | credentials in the initial state with a new config that only skips verification, and new classic credentials built from it with no name override |
| `Transports.RunIsQuic` | transports/transports.go:100-140 | after any sequence of handshakes and overrides, `isQuic` holds iff it held before or one of them was a handshake of a QUIC connection; in particular nothing ever clears it |
| `Transports.RunKeepsServerName` | transports/transports.go:100-116 | handshakes, of either kind, never change the server name |
| `Transports.LastOverrideWins` | transports/transports.go:137-140 | after any sequence of operations, the server name is the one given by the last `OverrideServerName` |
| `Transports.NativeInfoSticks` | transports/transports.go:118-128 | once one QUIC connection has been handshaked, `Info` reports the QUIC descriptor after every later sequence of operations, classic handshakes included |
| `Transports.ClassicInfoUntilNative` | transports/transports.go:118-128 | from the initial state, as long as no QUIC connection has been handshaked, `Info` is the classic credentials' info |
| `Net.NewConn` | net/net.go:15-22 | one `OpenStreamSync` on the session; on failure its error and no connection; on success a fresh connection holding that session and the newly opened stream, which belongs to it; the session itself is untouched |
| `Net.QuicConn.Read` | net/net.go:24-26 | one read on the stream with the same buffer; its (n, err) returned unchanged; session and stream objects untouched |
| `Net.QuicConn.Write` | net/net.go:28-30 | one write on the stream with the same buffer; its (n, err) returned unchanged; session and stream objects untouched |
| `Net.QuicConn.Close` | net/net.go:32-36 | the stream is closed, then the session (in that order in the trace); both end up closed; the session's close error is returned and the stream's is dropped |
| `Net.QuicConn.LocalAddr` | net/net.go:38-40 | the session's local address |
| `Net.QuicConn.RemoteAddr` | net/net.go:42-44 | the session's remote address |
| `Net.QuicConn.SetDeadLine` | net/net.go:46-48 | sets both stream deadlines through one stream call and returns its error; the session is unchanged |
| `Net.QuicConn.SetReadDeadLine` | net/net.go:50-52 | sets the stream's read deadline only and returns the stream's error; the session is unchanged |
| `Net.QuicConn.SetWriteDeadLine` | net/net.go:54-56 | sets the stream's write deadline only and returns the stream's error; the session is unchanged |
| `Net.OnlyCloseReachesSession` | net/net.go:24-56 | for any sequence of connection operations, every call issued is on the connection's stream or is its session's `Close`; reads, writes and deadlines never reach the session |
| `Net.StreamClosedBeforeSession` | net/net.go:32-36 | for any sequence of connection operations, every session close is immediately preceded by the stream's close |
| `Listeners.Listen` | net/listener.go:13-15 | a fresh listener wrapping exactly the given session listener |
| `Listeners.Listener.Accept` | net/listener.go:17-29 | a failed session accept returns its error, no connection, and no stream accept; a failed stream accept (on the session just accepted) returns its error and no connection and leaves that session open; on success exactly one session and one stream were taken, and the connection pairs the new session with a stream that belongs to it; the listener and its session listener are never modified |
| `Listeners.Listener.Close` | net/listener.go:31-33 | one `Close` on the session listener, whose error is returned; nothing else is touched |
| `Listeners.Listener.Addr` | net/listener.go:35-37 | the session listener's address |
| `Scenario.AcceptAndHandshake` | test/quic_test.go:77-88 | on the server path the test drives (accept, then server handshake), a successful step yields a QUIC connection whose auth type is "quic-tls", leaves the credentials in QUIC mode reporting the QUIC descriptor, never calls the classic credentials, and gives a connection whose addresses are the accepted session's |

## Left out

- Endpoint plumbing in `grpc.go` and `quic.go`: UDP resolution, dialing, `quic.Listen`, `grpc.Dial` and `grpc.NewServer`. These are calls into libraries, and as written they do not compile: they use `options` and `transports` without importing them, `grpc.go` has a stray closing brace, and they call `qnet.NewQuicConn`, which does not exist (the function is `NewConn`).
- The end-to-end tests (`test/quic_test.go`, `grpc_test.go`): they need real sockets, certificates and timing. Only the server-side accept-and-handshake step is modelled, in `Scenario.AcceptAndHandshake`.
- TLS and X.509 internals: reading files, loading key pairs and parsing PEM are I/O. Their outcomes are parameters of the constructors, and file names are not modelled.
- `tls.Config` is an object with opaque settings. `Clone` gives a new object with the same settings, and a deep copy's independence from later mutation is not modelled, since nothing in the core mutates a config.
- The QUIC library's and gRPC's behaviour beyond what the adapters pass through: byte transfer, what deadlines do to blocking reads, that a closed stream's reads fail, and that closing a session closes its streams. These are decided by the opaque `Behaviour`, which the model does not constrain.
- Concurrency: the credentials object is modelled as used by one caller at a time. The race on the shared `isQuic` flag under concurrent handshakes is not modelled. `Transports.NativeInfoSticks` shows the sequential consequence: after one QUIC handshake, `Info` reports QUIC even for later classic connections.
- Go interface values and `nil`: `net.Conn` results are `NetConn` or `QuicConn?` values, and nil errors and results are `None`. A result that is a non-nil interface holding a nil pointer is not modelled.
- Blocking and cancellation: `OpenStreamSync`, `Accept` and `AcceptStream` return when the `Behaviour` says so, and `context` deadlines are not modelled.
