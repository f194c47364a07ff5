/**
 * NewListener (src/xhttp/xhttpserver/server.go:125-158): resolves the bind
 * address, builds the TLS configuration, listens, and wraps the listener.
 */
module ListenerFactory {
  import opened Wrappers
  import opened ServerOptions
  import TlsConfigBuilder

  /**
   * The outcome of NewListener: a listener, an error, or the run-time panic
   * of a failed type assertion on the listener built so far.
   */
  datatype ListenResult =
    | Listened(listener: Listener)
    | Failed(error: Error)
    | TypeAssertionPanic(dynamic: Listener)

  /** The keep-alive period in force: the configured one when positive, otherwise three minutes. */
  function EffectivePeriod(period: Duration): (r: Duration)
    ensures r > 0
    ensures period > 0 ==> r == period
    ensures period <= 0 ==> r == DefaultTCPKeepAlivePeriod
  {
    if period <= 0 then DefaultTCPKeepAlivePeriod else period
  }

  /** The listener performs a TLS handshake on every connection it accepts. */
  predicate HasTlsLayer(l: Listener)
  {
    match l
    case Tcp(_) => false
    case TlsLayer(_, _) => true
    case KeepAlive(_, _) => false
  }

  /** The listener applies a keep-alive period to a TCP socket somewhere in its layers. */
  predicate HasKeepAliveLayer(l: Listener)
  {
    match l
    case Tcp(_) => false
    case TlsLayer(inner, _) => HasKeepAliveLayer(inner)
    case KeepAlive(_, _) => true
  }

  /**
   * What NewListener produces, as written: TLS goes on first, then the
   * keep-alive wrapper, whose type assertion demands a bare TCP listener.
   */
  function ListenerOf(o: Options, host: Host): (out: Traced<ListenResult>)
    // The TLS step's I/O comes first.
    ensures var tls := TlsConfigBuilder.TlsConfigOf(o.tls, host);
      |out.calls| >= |tls.calls| && out.calls[..|tls.calls|] == tls.calls
    // A TLS error is returned unchanged, and nothing is listened on.
    ensures var tls := TlsConfigBuilder.TlsConfigOf(o.tls, host);
      tls.result.Err? ==> out == Traced(Failed(tls.result.error), tls.calls)
    // Otherwise exactly one Listen follows, on the resolved address; its error is returned unchanged.
    ensures var tls := TlsConfigBuilder.TlsConfigOf(o.tls, host);
      tls.result.Ok? ==> out.calls == tls.calls + [Listen("tcp", ResolveAddress(o.address))]
    ensures var tls := TlsConfigBuilder.TlsConfigOf(o.tls, host);
      tls.result.Ok? && host.listen("tcp", ResolveAddress(o.address)).Err? ==>
      out.result == Failed(host.listen("tcp", ResolveAddress(o.address)).error)
    // The result is an error exactly when the TLS step or Listen fails.
    ensures var tls := TlsConfigBuilder.TlsConfigOf(o.tls, host);
      out.result.Failed? <==> tls.result.Err? || host.listen("tcp", ResolveAddress(o.address)).Err?
    // Listening succeeded: the type assertion fails exactly when TLS and keep-alive are both on.
    ensures var tls := TlsConfigBuilder.TlsConfigOf(o.tls, host);
      tls.result.Ok? && host.listen("tcp", ResolveAddress(o.address)).Ok? ==>
      (out.result.TypeAssertionPanic? <==> tls.result.value.Some? && !o.disableTCPKeepAlives) &&
      (out.result.TypeAssertionPanic? ==>
         out.result.dynamic ==
         TlsLayer(Tcp(TcpListener(ResolveAddress(o.address), host.listen("tcp", ResolveAddress(o.address)).value)),
                  tls.result.value.value))
    // A listener is produced: a TLS layer iff a configuration was built,
    // a keep-alive layer iff not disabled, with the effective period, over the socket.
    ensures var tls := TlsConfigBuilder.TlsConfigOf(o.tls, host);
      out.result.Listened? ==>
      tls.result.Ok? && host.listen("tcp", ResolveAddress(o.address)).Ok? &&
      var tcp := TcpListener(ResolveAddress(o.address), host.listen("tcp", ResolveAddress(o.address)).value);
      (HasTlsLayer(out.result.listener) <==> tls.result.value.Some?) &&
      (HasKeepAliveLayer(out.result.listener) <==> !o.disableTCPKeepAlives) &&
      (HasTlsLayer(out.result.listener) ==> out.result.listener == TlsLayer(Tcp(tcp), tls.result.value.value)) &&
      (HasKeepAliveLayer(out.result.listener) ==>
         out.result.listener == KeepAlive(tcp, EffectivePeriod(o.tcpKeepAlivePeriod))) &&
      (!HasTlsLayer(out.result.listener) && !HasKeepAliveLayer(out.result.listener) ==>
         out.result.listener == Tcp(tcp))
  {
    var address := ResolveAddress(o.address);
    var tls := TlsConfigBuilder.TlsConfigOf(o.tls, host);
    match tls.result
    case Err(e) => Traced(Failed(e), tls.calls)
    case Ok(tc) =>
      var calls := tls.calls + [Listen("tcp", address)];
      match host.listen("tcp", address)
      case Err(e) => Traced(Failed(e), calls)
      case Ok(socket) =>
        var raw := Tcp(TcpListener(address, socket));
        var l := if tc.Some? then TlsLayer(raw, tc.value) else raw;
        if o.disableTCPKeepAlives then Traced(Listened(l), calls)
        else if l.Tcp? then Traced(Listened(KeepAlive(l.tcp, EffectivePeriod(o.tcpKeepAlivePeriod))), calls)
        else Traced(TypeAssertionPanic(l), calls)
  }

  /** NewListener as written, reassigning the address, the listener and the period in turn. */
  method NewListener(o: Options, host: Host) returns (r: ListenResult, calls: seq<Call>)
    ensures Traced(r, calls) == ListenerOf(o, host)
  {
    var address := o.address;
    if |address| == 0 {
      address := DefaultAddress;
    }

    var tc, tlsCalls := TlsConfigBuilder.NewTlsConfig(o.tls, host);
    calls := tlsCalls;
    if tc.Err? {
      return Failed(tc.error), calls;
    }

    calls := calls + [Listen("tcp", address)];
    var socket := host.listen("tcp", address);
    if socket.Err? {
      return Failed(socket.error), calls;
    }
    var l := Tcp(TcpListener(address, socket.value));

    if tc.value.Some? {
      l := TlsLayer(l, tc.value.value);
    }

    if !o.disableTCPKeepAlives {
      var period := o.tcpKeepAlivePeriod;
      if period <= 0 {
        period := DefaultTCPKeepAlivePeriod;
      }
      if !l.Tcp? {
        return TypeAssertionPanic(l), calls;
      }
      l := KeepAlive(l.tcp, period);
    }

    r := Listened(l);
  }

  /**
   * Every TLS listener built with keep-alives left on (the default) panics:
   * a configured spec whose files load, a socket that binds, and keep-alives
   * not disabled are enough.
   */
  lemma TlsWithKeepAlivePanics(o: Options, host: Host)
    requires o.tls.Some? && !o.disableTCPKeepAlives
    requires TlsConfigBuilder.TlsConfigOf(o.tls, host).result.Ok?
    requires host.listen("tcp", ResolveAddress(o.address)).Ok?
    ensures ListenerOf(o, host).result.TypeAssertionPanic?
  {
  }

  /** A host on which every foreign call succeeds. */
  function CooperativeHost(): Host
  {
    Host((cert, key) => Ok(Certificate(1)),
         path => Ok([]),
         pem => [],
         (network, address) => Ok(80))
  }

  /** The smallest TLS setup: a certificate and a key, every other option at its zero value. */
  function PlainTlsOptions(): Options
  {
    Options("", "", Some(Tls("c.pem", "k.pem", "", "", [], 0, 0)), false, false, 0, 0, 0, 0, 0,
            false, 0, map[], false, false, false)
  }

  /** The counterexample: that setup, with every foreign call succeeding, panics. */
  lemma PlainTlsSetupPanics()
    ensures ListenerOf(PlainTlsOptions(), CooperativeHost()).result ==
      TypeAssertionPanic(TlsLayer(Tcp(TcpListener(DefaultAddress, 80)),
                                  TlsConfig(0, 0, "", [DefaultNextProto], [Certificate(1)], None, NoClientCert)))
  {
  }

  /**
   * The evidently intended NewListener: keep-alive wraps the raw TCP listener
   * and TLS wraps that, so the period applies to the true socket.
   */
  function IntendedListenerOf(o: Options, host: Host): (out: Traced<ListenResult>)
    // Never panics; errors and I/O are those of the code as written.
    ensures !out.result.TypeAssertionPanic?
    ensures out.calls == ListenerOf(o, host).calls
    ensures out.result.Failed? <==> ListenerOf(o, host).result.Failed?
    ensures out.result.Failed? ==> out.result == ListenerOf(o, host).result
    // When listening succeeds, TLS is layered iff configured and keep-alive iff not disabled.
    ensures var tls := TlsConfigBuilder.TlsConfigOf(o.tls, host);
      out.result.Listened? ==>
      tls.result.Ok? && host.listen("tcp", ResolveAddress(o.address)).Ok? &&
      var tcp := TcpListener(ResolveAddress(o.address), host.listen("tcp", ResolveAddress(o.address)).value);
      var transport := if o.disableTCPKeepAlives then Tcp(tcp)
                       else KeepAlive(tcp, EffectivePeriod(o.tcpKeepAlivePeriod));
      (HasTlsLayer(out.result.listener) <==> tls.result.value.Some?) &&
      (HasKeepAliveLayer(out.result.listener) <==> !o.disableTCPKeepAlives) &&
      out.result.listener ==
        (if tls.result.value.Some? then TlsLayer(transport, tls.result.value.value) else transport)
  {
    var address := ResolveAddress(o.address);
    var tls := TlsConfigBuilder.TlsConfigOf(o.tls, host);
    match tls.result
    case Err(e) => Traced(Failed(e), tls.calls)
    case Ok(tc) =>
      var calls := tls.calls + [Listen("tcp", address)];
      match host.listen("tcp", address)
      case Err(e) => Traced(Failed(e), calls)
      case Ok(socket) =>
        var tcp := TcpListener(address, socket);
        var transport := if o.disableTCPKeepAlives then Tcp(tcp)
                         else KeepAlive(tcp, EffectivePeriod(o.tcpKeepAlivePeriod));
        Traced(Listened(if tc.Some? then TlsLayer(transport, tc.value) else transport), calls)
  }

  /** Wherever the code as written does not panic, the intended listener is the same. */
  lemma IntendedAgreesWithoutPanic(o: Options, host: Host)
    requires !ListenerOf(o, host).result.TypeAssertionPanic?
    ensures IntendedListenerOf(o, host) == ListenerOf(o, host)
  {
  }
}
