# xhttpserver: TLS configuration, listener construction, middleware chain

A Dafny model of the server-construction core of the `xhttpserver` package
(`src/xhttp/xhttpserver/server.go`): how a declarative TLS spec becomes a TLS
configuration, how the bind address is resolved and the listener is wrapped in
TLS and TCP keep-alive, how the server logger's key/value prefix is built, how
the middleware chain (response headers, tracking, logging) is assembled and
applied, and which settings `New` gives the `net/http` server.

Layout, one module per component:

- `wrappers.dfy` — `Option` (Go's nil pointer) and `Result` (Go's value/error pair).
- `server_options.dfy` — `Tls`, `Options`, the package errors, the
  defaults (`":http"`, `"http/1.1"`, 3 minutes in nanoseconds), the TLS
  configuration and listener records, and `Host`, the foreign calls given by what
  they return. I/O calls are recorded in order in a trace of `Call`s, so "decided
  before any I/O" and "nothing is listened on" are statements about that trace.
- `tls_config_builder.dfy` — `NewTlsConfig`.
- `listener_factory.dfy` — `NewListener`, and the corrected listener of the finding below.
- `server_logging.dfy` — `NewServerLogger`.
- `middleware_chain.dfy` — `NewServerChain`, and alice's `Then` as a right fold.
- `server_handle.dfy` — `New`, and the address shared by the three constructors.

The Go functions that work step by step (`NewTlsConfig` with its append loop and
its field-by-field configuration, `NewListener`, `NewServerChain`, `New`) are
methods that follow the Go statements in order, each proved equal to a pure
function (`TlsConfigOf`, `ListenerOf`, `ServerChainOf`, `ServerOf`) whose
contract states what the source promises. `NewServerLogger` is a plain function.

Points where the code's behaviour is not what its intent suggests, and what
the model does:

- Listener wrapping order. The keep-alive period is a TCP socket option, and
  server.go:20 takes its default from net/http, which sets it on the raw TCP
  listener beneath any TLS layer. The code instead adds TLS first, then builds
  the keep-alive wrapper by asserting that the listener is a `*net.TCPListener`.
  That assertion panics whenever TLS is on. `ListenerOf` yields
  `TypeAssertionPanic` in that case (see Findings); `IntendedListenerOf` puts
  keep-alive on the raw socket and TLS on top.
- Errors. The code returns `ErrTlsCertificateRequired` only when a path is empty.
  It passes key-pair load errors, CA file read errors and `Listen` errors on
  unchanged. It returns `ErrUnableToAddClientCACertificate` only when the CA file
  reads but yields no certificate. `ErrNoAddress` is declared but never returned.
- The keep-alive wrapper has no `Accept` of its own in this file, so nothing
  applies the period to accepted connections. The model records the period only.

## Model

| member | source | states |
|---|---|---|
| `ServerOptions.ResolveAddress` | src/xhttp/xhttpserver/server.go:126-129 | an empty address becomes `":http"`; any other is used verbatim; the result is never empty |
| `TlsConfigBuilder.TlsConfigOf` | src/xhttp/xhttpserver/server.go:74-123 | nil spec gives no config, no error and no I/O. A missing certificate or key path gives `ErrTlsCertificateRequired` before any I/O. Otherwise the I/O is exactly one key-pair load, then exactly one read of the CA file when the load succeeded and one is named, and nothing else; a load error is passed on unchanged. The CA file is read only after a successful load and only when named; its read error is passed on unchanged, and a file yielding no certificate gives `ErrUnableToAddClientCACertificate`. A config is produced iff every step succeeds. It copies the versions and server name, takes the spec's protocols in order or exactly `["http/1.1"]`, holds the loaded key pair, and has require-and-verify client auth and a pool iff a CA file is named |
| `TlsConfigBuilder.CopyNextProtos` | src/xhttp/xhttpserver/server.go:83-91 | the append loop yields the requested protocols element for element when there are any, else exactly `["http/1.1"]` |
| `TlsConfigBuilder.NewTlsConfig` | src/xhttp/xhttpserver/server.go:74-123 | the step-by-step construction (protocol list first, then load, then CA pool) returns the same result and performs the same I/O as `TlsConfigOf` |
| `ListenerFactory.EffectivePeriod` | src/xhttp/xhttpserver/server.go:146-149 | the keep-alive period is the configured one when positive, otherwise 3 minutes; it is always positive |
| `ListenerFactory.ListenerOf` | src/xhttp/xhttpserver/server.go:125-158 | TLS I/O comes first. A TLS error is returned unchanged with no `Listen`. Otherwise exactly one `Listen("tcp", resolved address)` follows, and its error is returned unchanged. The result is an error exactly when the TLS step or `Listen` fails. After a successful listen, the type assertion panics iff TLS and keep-alive are both on. A produced listener has a TLS layer iff a config was built, and a keep-alive layer iff keep-alives are not disabled, carrying the effective period over the bound socket |
| `ListenerFactory.NewListener` | src/xhttp/xhttpserver/server.go:125-158 | the in-order reassignment of address, listener and period gives the same outcome and I/O as `ListenerOf` |
| `ListenerFactory.TlsWithKeepAlivePanics` | src/xhttp/xhttpserver/server.go:141-155 | any spec that yields a TLS config, with a successful listen and keep-alives on, ends in the type-assertion panic |
| `ListenerFactory.PlainTlsSetupPanics` | src/xhttp/xhttpserver/server.go:141-155 | with only certificate and key set and all foreign calls succeeding, the result is the panic on a TLS listener over the `":http"` socket |
| `ListenerFactory.IntendedListenerOf` | src/xhttp/xhttpserver/server.go:125-158 | the corrected order (keep-alive on the raw socket, TLS on top) never panics. It has the same I/O and the same errors as the code. Its listener has TLS iff configured and keep-alive iff not disabled |
| `ListenerFactory.IntendedAgreesWithoutPanic` | src/xhttp/xhttpserver/server.go:141-155 | wherever the code as written does not panic, the corrected listener is identical to it |
| `ServerLogging.NewServerLogger` | src/xhttp/xhttpserver/server.go:161-173 | the prefix is `AddressKey`, resolved address, then `ServerKey`, name only when the name is non-empty, then the extras in order; nothing else is added |
| `MiddlewareChain.ThenLayers` | src/xhttp/xhttpserver/server.go:176-191 | applying a chain puts its stages outside the handler's own, in chain order (first stage outermost), and keeps the innermost handler |
| `MiddlewareChain.ThenAppend` | src/xhttp/xhttpserver/server.go:181-189 | appending stages nests them inside the existing ones: `Then(a + b, h) == Then(a, Then(b, h))` |
| `MiddlewareChain.ServerChainOf` | src/xhttp/xhttpserver/server.go:176-192 | the first stage is the response-header injector with the configured headers. Tracking is present iff not disabled, and so is logging with the given logger and builders. The length counts exactly those. With both enabled the chain is headers, tracking, logging |
| `MiddlewareChain.ServerChainKeepsOrder` | src/xhttp/xhttpserver/server.go:177-189 | the chain is a subsequence of headers, tracking, logging |
| `MiddlewareChain.NewServerChain` | src/xhttp/xhttpserver/server.go:176-192 | starting from the header stage and appending as options allow yields `ServerChainOf` |
| `MiddlewareChain.DisableTrackingRemovesOnlyTracking` | src/xhttp/xhttpserver/server.go:181-183 | disabling tracking removes the tracking stage and nothing else, keeping the others' order |
| `MiddlewareChain.DisableLoggingRemovesOnlyLogging` | src/xhttp/xhttpserver/server.go:185-189 | disabling the handler logger removes the logging stage and nothing else, keeping the others' order |
| `MiddlewareChain.ServerChainWrapsInOrder` | src/xhttp/xhttpserver/server.go:176-191 | a request passes the chain's stages in order, then the application handler; with all stages on, headers wrap tracking, which wraps logging, which wraps the handler |
| `ServerHandle.ServerOf` | src/xhttp/xhttpserver/server.go:196-232 | the address is defaulted; handler, header limit and the four timeouts are copied; the error log is at error level under that address; the connection-state logger (debug level) is installed iff asked; HTTP keep-alives are off iff disabled |
| `ServerHandle.New` | src/xhttp/xhttpserver/server.go:196-232 | defaulting the address in place and then setting fields yields `ServerOf` |
| `ServerHandle.AddressesAgree` | src/xhttp/xhttpserver/server.go:197-199 | the server's address, the address in the logger prefix and the address listened on are the same |

## Findings

| source | as written | input that shows it | evidently intended | confidence | as-written member | corrected member |
|---|---|---|---|---|---|---|
| src/xhttp/xhttpserver/server.go:141-155 | the TLS wrapper goes on first; the keep-alive step then asserts the listener is a `*net.TCPListener`, which a TLS listener is not | `Options{Tls: &Tls{CertificateFile: "c.pem", KeyFile: "k.pem"}}` with both files loading and the port binding (keep-alives on by default): interface-conversion panic | keep-alive wraps the raw TCP listener and TLS wraps that, so the period is set on the real socket | high; not executed | `ListenerFactory.PlainTlsSetupPanics` | `ListenerFactory.IntendedListenerOf` |

## Left out

- `src/bootstrap/environment.go`: command-line, configuration and dependency-injection wiring over foreign libraries; not part of this model.
- File reads, PEM/X.509 parsing, `tls.LoadX509KeyPair` and `Listen` are the fields of `Host`: only what they return is modelled. The `context.Context` and `net.ListenConfig` arguments are absorbed into `Host.listen`.
- `tc.BuildNameToCertificate()` (server.go:121): a crypto-library index over the certificates; not modelled.
- `Serve`, `ServeTLS`, `Shutdown`, TLS handshakes and connection-state callbacks: serving and concurrency inside `net/http`.
- `SetKeepAlivesEnabled(false)` is modelled as clearing the keep-alive flag only; its closing of idle connections is a no-op on a server that has not served yet.
- The middleware implementations (`ResponseHeaders`, `UseTrackingWriter`, `xloghttp.Logging`) and the loggers (`xloghttp.NewErrorLog`, `NewConnStateLogger`) are opaque tags carrying their arguments.
- go-kit's `WithPrefix` is recorded as the key/value list it receives. Its padding of an odd-length list with a missing-value marker and its merging into an existing prefix are library behaviour, not modelled.
- alice's `Then(nil)` substitution of `http.DefaultServeMux` is not modelled; handlers are always given.
- `time.Duration` is an unbounded integer of nanoseconds; the int64 range is not modelled. `MaxHeaderBytes` is an unbounded integer.
- `DisableParseForm` is carried in `Options` but unused, as in the source.
- The keep-alive wrapper's per-connection `Accept` is not in this file, so applying the period to accepted connections is not modelled.
