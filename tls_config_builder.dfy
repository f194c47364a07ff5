/**
 * NewTlsConfig (src/xhttp/xhttpserver/server.go:74-123): validates a TLS spec
 * and derives the TLS configuration a listener serves with.
 */
module TlsConfigBuilder {
  import opened Wrappers
  import opened ServerOptions

  /** Both the certificate file and the key file are named. */
  predicate HasKeyPairPaths(t: Tls)
  {
    |t.certificateFile| > 0 && |t.keyFile| > 0
  }

  /** A client-CA file is named, so client certificates are to be verified. */
  predicate HasClientCA(t: Tls)
  {
    |t.clientCACertificateFile| > 0
  }

  /** The protocols to negotiate: the spec's own list, or HTTP/1.1 alone when it names none. */
  function NextProtosFor(requested: seq<string>): seq<string>
  {
    if |requested| > 0 then requested else [DefaultNextProto]
  }

  /** The configuration before any client-CA handling: versions, name, protocols, one certificate. */
  function BaseConfig(t: Tls, cert: Certificate): TlsConfig
  {
    TlsConfig(t.minVersion, t.maxVersion, t.serverName, NextProtosFor(t.nextProtos),
              [cert], None, NoClientCert)
  }

  /** The client-CA step reaches success: the file reads and at least one certificate parses from it. */
  predicate ClientCAAccepted(t: Tls, host: Host)
  {
    host.readFile(t.clientCACertificateFile).Ok? &&
    |host.parsePemCertificates(host.readFile(t.clientCACertificateFile).value)| > 0
  }

  /**
   * What NewTlsConfig returns for a spec (None when the spec pointer is nil),
   * with the I/O it performs. The contract states each step's outcome.
   */
  function TlsConfigOf(t: Option<Tls>, host: Host): (o: Traced<Result<Option<TlsConfig>, Error>>)
    // A nil spec: no configuration and no error, and no I/O.
    ensures t.None? ==> o == Traced(Ok(None), [])
    // Both files are required; this is decided before any I/O.
    ensures t.Some? && !HasKeyPairPaths(t.value) ==> o == Traced(Err(TlsCertificateRequired), [])
    // Otherwise the key pair is loaded first, and a failure is passed on unchanged.
    // Then exactly one load, followed by exactly one read of the client-CA
    // file when the load succeeded and such a file is named; nothing else.
    ensures t.Some? && HasKeyPairPaths(t.value) ==>
      o.calls == [LoadKeyPair(t.value.certificateFile, t.value.keyFile)] +
                 (if host.loadX509KeyPair(t.value.certificateFile, t.value.keyFile).Ok? && HasClientCA(t.value)
                  then [ReadFile(t.value.clientCACertificateFile)] else [])
    ensures t.Some? && HasKeyPairPaths(t.value) &&
            host.loadX509KeyPair(t.value.certificateFile, t.value.keyFile).Err? ==>
      o == Traced(Err(host.loadX509KeyPair(t.value.certificateFile, t.value.keyFile).error),
                  [LoadKeyPair(t.value.certificateFile, t.value.keyFile)])
    // The client-CA file is read only after a successful load, and only when one is named.
    ensures t.Some? ==>
      (ReadFile(t.value.clientCACertificateFile) in o.calls <==>
         HasKeyPairPaths(t.value) &&
         host.loadX509KeyPair(t.value.certificateFile, t.value.keyFile).Ok? && HasClientCA(t.value))
    // A read failure is passed on unchanged; a file with no certificate in it is refused.
    ensures t.Some? && ReadFile(t.value.clientCACertificateFile) in o.calls &&
            host.readFile(t.value.clientCACertificateFile).Err? ==>
      o.result == Err(host.readFile(t.value.clientCACertificateFile).error)
    ensures t.Some? && ReadFile(t.value.clientCACertificateFile) in o.calls &&
            host.readFile(t.value.clientCACertificateFile).Ok? && !ClientCAAccepted(t.value, host) ==>
      o.result == Err(UnableToAddClientCACertificate)
    // A configuration is produced exactly when every step succeeds.
    ensures o.result.Ok? && o.result.value.Some? <==>
      t.Some? && HasKeyPairPaths(t.value) &&
      host.loadX509KeyPair(t.value.certificateFile, t.value.keyFile).Ok? &&
      (HasClientCA(t.value) ==> ClientCAAccepted(t.value, host))
    // The configuration copies the spec, carries the loaded key pair, and
    // requires and verifies client certificates exactly when a client CA is named.
    ensures o.result.Ok? && o.result.value.Some? ==>
      var c := o.result.value.value;
      c.minVersion == t.value.minVersion && c.maxVersion == t.value.maxVersion &&
      c.serverName == t.value.serverName &&
      (|t.value.nextProtos| > 0 ==> c.nextProtos == t.value.nextProtos) &&
      (|t.value.nextProtos| == 0 ==> c.nextProtos == [DefaultNextProto]) &&
      c.certificates == [host.loadX509KeyPair(t.value.certificateFile, t.value.keyFile).value] &&
      (c.clientAuth == RequireAndVerifyClientCert <==> HasClientCA(t.value)) &&
      (c.clientCAs.Some? <==> HasClientCA(t.value)) &&
      (c.clientCAs.Some? ==>
         c.clientCAs.value.certificates ==
         host.parsePemCertificates(host.readFile(t.value.clientCACertificateFile).value))
    // ErrNoAddress is declared but never returned: it comes out only if a foreign call returned it.
    ensures o.result != Err(NoAddress) ||
      (t.Some? && (host.loadX509KeyPair(t.value.certificateFile, t.value.keyFile) == Err(NoAddress) ||
                   host.readFile(t.value.clientCACertificateFile) == Err(NoAddress)))
  {
    match t
    case None => Traced(Ok(None), [])
    case Some(spec) =>
      if !HasKeyPairPaths(spec) then Traced(Err(TlsCertificateRequired), [])
      else
        var load := [LoadKeyPair(spec.certificateFile, spec.keyFile)];
        match host.loadX509KeyPair(spec.certificateFile, spec.keyFile)
        case Err(e) => Traced(Err(e), load)
        case Ok(cert) =>
          if !HasClientCA(spec) then Traced(Ok(Some(BaseConfig(spec, cert))), load)
          else
            var calls := load + [ReadFile(spec.clientCACertificateFile)];
            match host.readFile(spec.clientCACertificateFile)
            case Err(e) => Traced(Err(e), calls)
            case Ok(pem) =>
              var parsed := host.parsePemCertificates(pem);
              if |parsed| == 0 then Traced(Err(UnableToAddClientCACertificate), calls)
              else Traced(Ok(Some(BaseConfig(spec, cert).(clientCAs := Some(CertPool(parsed)),
                                                           clientAuth := RequireAndVerifyClientCert))),
                          calls)
  }

  /**
   * The append loop of server.go:83-91: copies the requested protocols one by
   * one, or appends HTTP/1.1 when there are none.
   */
  method CopyNextProtos(requested: seq<string>) returns (nextProtos: seq<string>)
    ensures |requested| > 0 ==> nextProtos == requested
    ensures |requested| == 0 ==> nextProtos == [DefaultNextProto]
  {
    nextProtos := [];
    if |requested| > 0 {
      var i := 0;
      while i < |requested|
        invariant 0 <= i <= |requested|
        invariant nextProtos == requested[..i]
      {
        nextProtos := nextProtos + [requested[i]];
        i := i + 1;
      }
    } else {
      nextProtos := nextProtos + [DefaultNextProto];
    }
  }

  /**
   * NewTlsConfig as written: the protocol list is built before the key pair is
   * loaded, and the configuration is then completed field by field.
   */
  method NewTlsConfig(t: Option<Tls>, host: Host)
    returns (r: Result<Option<TlsConfig>, Error>, calls: seq<Call>)
    ensures Traced(r, calls) == TlsConfigOf(t, host)
  {
    calls := [];
    if t.None? {
      return Ok(None), calls;
    }
    var spec := t.value;
    if |spec.certificateFile| == 0 || |spec.keyFile| == 0 {
      return Err(TlsCertificateRequired), calls;
    }

    var nextProtos := CopyNextProtos(spec.nextProtos);
    var tc := TlsConfig(spec.minVersion, spec.maxVersion, spec.serverName, nextProtos,
                        [], None, NoClientCert);

    calls := calls + [LoadKeyPair(spec.certificateFile, spec.keyFile)];
    var loaded := host.loadX509KeyPair(spec.certificateFile, spec.keyFile);
    if loaded.Err? {
      return Err(loaded.error), calls;
    }
    tc := tc.(certificates := [loaded.value]);

    if |spec.clientCACertificateFile| > 0 {
      calls := calls + [ReadFile(spec.clientCACertificateFile)];
      var caCert := host.readFile(spec.clientCACertificateFile);
      if caCert.Err? {
        return Err(caCert.error), calls;
      }
      var parsed := host.parsePemCertificates(caCert.value);
      if |parsed| == 0 {
        return Err(UnableToAddClientCACertificate), calls;
      }
      tc := tc.(clientCAs := Some(CertPool(parsed)));
      tc := tc.(clientAuth := RequireAndVerifyClientCert);
    }

    r := Ok(Some(tc));
  }
}
