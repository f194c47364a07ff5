/**
 * New (src/xhttp/xhttpserver/server.go:194-232): the settings of the
 * net/http server that serves a listener, and the bind address it shares
 * with NewListener and NewServerLogger.
 */
module ServerHandle {
  import opened Wrappers
  import opened ServerOptions
  import ListenerFactory
  import ServerLogging
  import MiddlewareChain

  /** The error-log sink of a server (xloghttp.NewErrorLog): its address and logger. */
  datatype ErrorLog = ErrorLog(address: string, logger: Logger)

  /** The connection-state hook (xloghttp.NewConnStateLogger): logger, key and level. */
  datatype ConnStateLogger = ConnStateLogger(logger: Logger, key: string, level: LogValue)

  /** The fields of a net/http Server that New sets; keep-alives start enabled, as in net/http. */
  datatype HttpServer = HttpServer(
    addr: string,
    handler: MiddlewareChain.Handler,
    maxHeaderBytes: int,
    idleTimeout: Duration,
    readHeaderTimeout: Duration,
    readTimeout: Duration,
    writeTimeout: Duration,
    errorLog: ErrorLog,
    connState: Option<ConnStateLogger>,
    keepAlivesEnabled: bool)

  /** The server New constructs. */
  function ServerOf(o: Options, l: Logger, h: MiddlewareChain.Handler): (s: HttpServer)
    // The address is defaulted; handler, limits and timeouts are copied unchanged.
    ensures s.addr == ResolveAddress(o.address) && s.handler == h
    ensures s.maxHeaderBytes == o.maxHeaderBytes
    ensures s.idleTimeout == o.idleTimeout && s.readHeaderTimeout == o.readHeaderTimeout
    ensures s.readTimeout == o.readTimeout && s.writeTimeout == o.writeTimeout
    // Server errors are logged at error level, under the resolved address.
    ensures s.errorLog == ErrorLog(s.addr, WithPrefix(l, [LevelKey, ErrorLevel]))
    // Connection states are logged, at debug level, only when asked.
    ensures s.connState.Some? <==> o.logConnectionState
    ensures s.connState.Some? ==> s.connState.value == ConnStateLogger(l, "connState", DebugLevel)
    // HTTP keep-alives are off only when disabled.
    ensures s.keepAlivesEnabled <==> !o.disableHTTPKeepAlives
  {
    var address := ResolveAddress(o.address);
    HttpServer(address, h, o.maxHeaderBytes,
               o.idleTimeout, o.readHeaderTimeout, o.readTimeout, o.writeTimeout,
               ErrorLog(address, WithPrefix(l, [LevelKey, ErrorLevel])),
               if o.logConnectionState then Some(ConnStateLogger(l, "connState", DebugLevel)) else None,
               !o.disableHTTPKeepAlives)
  }

  /** New as written: the options' address is defaulted in place, then the server's fields are set. */
  method New(o: Options, l: Logger, h: MiddlewareChain.Handler) returns (s: HttpServer)
    ensures s == ServerOf(o, l, h)
  {
    var o := o;
    if |o.address| == 0 {
      o := o.(address := DefaultAddress);
    }

    s := HttpServer(o.address, h, o.maxHeaderBytes,
                    o.idleTimeout, o.readHeaderTimeout, o.readTimeout, o.writeTimeout,
                    ErrorLog(o.address, WithPrefix(l, [LevelKey, ErrorLevel])),
                    None, true);

    if o.logConnectionState {
      s := s.(connState := Some(ConnStateLogger(l, "connState", DebugLevel)));
    }

    if o.disableHTTPKeepAlives {
      s := s.(keepAlivesEnabled := false);
    }
  }

  /**
   * One set of options names one address: the server's Addr, the address in
   * its logger's prefix, and the address NewListener listens on, when it does.
   */
  lemma AddressesAgree(o: Options, host: Host, base: Logger, extra: seq<LogValue>,
                       l: Logger, h: MiddlewareChain.Handler)
    ensures ServerLogging.NewServerLogger(o, base, extra).keyvals[1] == Text(ServerOf(o, l, h).addr)
    ensures forall c | c in ListenerFactory.ListenerOf(o, host).calls && c.Listen? ::
              c == Listen("tcp", ServerOf(o, l, h).addr)
  {
  }
}
