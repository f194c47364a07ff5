/**
 * The records, errors, constants and foreign collaborators shared by the
 * components of the xhttpserver package (src/xhttp/xhttpserver/server.go).
 */
module ServerOptions {
  import opened Wrappers

  /** Go's uint16, used for TLS protocol versions. */
  newtype uint16 = x: int | 0 <= x < 0x1_0000

  /** A byte of file content. */
  newtype byte = x: int | 0 <= x < 0x100

  /** Go's time.Duration, counted in nanoseconds. */
  type Duration = int

  const Nanosecond: Duration := 1
  const Minute: Duration := 60 * 1_000_000_000 * Nanosecond

  /** The keep-alive period net/http itself uses: three minutes. */
  const DefaultTCPKeepAlivePeriod: Duration := 3 * Minute

  /** Go's "host:port" for the default HTTP port on every interface. */
  const DefaultAddress: string := ":http"

  /** The protocol advertised over ALPN when a TLS spec names none. */
  const DefaultNextProto: string := "http/1.1"

  /**
   * The package's errors, plus those that foreign calls (file reads, key-pair
   * loading, listening) hand back and that this code only passes on.
   */
  datatype Error =
    | NoAddress
    | TlsCertificateRequired
    | UnableToAddClientCACertificate
    | Foreign(message: string)

  /** The declarative TLS settings of a server (Go's Tls struct). */
  datatype Tls = Tls(
    certificateFile: string,
    keyFile: string,
    clientCACertificateFile: string,
    serverName: string,
    nextProtos: seq<string>,
    minVersion: uint16,
    maxVersion: uint16)

  /** Response headers: canonical name to values (Go's http.Header). */
  type Header = map<string, seq<string>>

  /** The configuration of one server (Go's Options struct). */
  datatype Options = Options(
    name: string,
    address: string,
    tls: Option<Tls>,
    logConnectionState: bool,
    disableHTTPKeepAlives: bool,
    maxHeaderBytes: int,
    idleTimeout: Duration,
    readHeaderTimeout: Duration,
    readTimeout: Duration,
    writeTimeout: Duration,
    disableTCPKeepAlives: bool,
    tcpKeepAlivePeriod: Duration,
    header: Header,
    disableTracking: bool,
    disableHandlerLogger: bool,
    disableParseForm: bool)

  /** An X.509 certificate with its private key, as loaded by the crypto library. */
  datatype Certificate = Certificate(handle: nat)

  /** A pool of trusted CA certificates (Go's x509.CertPool). */
  datatype CertPool = CertPool(certificates: seq<Certificate>)

  /** The client-authentication policies this code can select. */
  datatype ClientAuthType = NoClientCert | RequireAndVerifyClientCert

  /**
   * The fields of a crypto/tls Config that this code sets; every other field
   * keeps its zero value. `clientCAs` is None where Go leaves the pool nil.
   */
  datatype TlsConfig = TlsConfig(
    minVersion: uint16,
    maxVersion: uint16,
    serverName: string,
    nextProtos: seq<string>,
    certificates: seq<Certificate>,
    clientCAs: Option<CertPool>,
    clientAuth: ClientAuthType)

  /** A bound TCP socket (Go's *net.TCPListener). */
  datatype TcpListener = TcpListener(address: string, socket: nat)

  /**
   * A net.Listener as this code can build it: a raw TCP listener, a TLS
   * listener over another listener, or the keep-alive wrapper, which embeds a
   * *net.TCPListener and nothing else.
   */
  datatype Listener =
    | Tcp(tcp: TcpListener)
    | TlsLayer(inner: Listener, config: TlsConfig)
    | KeepAlive(embedded: TcpListener, period: Duration)

  /** A value handed to a go-kit logger as a key or a value. */
  datatype LogValue =
    | AddressKey
    | ServerKey
    | LevelKey
    | ErrorLevel
    | DebugLevel
    | Text(s: string)
    | Opaque(handle: nat)

  /**
   * A go-kit logger: a base logger supplied from outside, or a contextual
   * logger that prefixes every record with `keyvals`.
   */
  datatype Logger = BaseLogger(handle: nat) | WithPrefix(inner: Logger, keyvals: seq<LogValue>)

  /** An I/O operation performed on behalf of this code, in the order performed. */
  datatype Call =
    | LoadKeyPair(certFile: string, keyFile: string)
    | ReadFile(path: string)
    | Listen(network: string, address: string)

  /** A result together with the I/O operations performed to reach it. */
  datatype Traced<T> = Traced(result: T, calls: seq<Call>)

  /**
   * The foreign collaborators, each given by what it returns:
   * tls.LoadX509KeyPair, ioutil.ReadFile, the certificates that
   * x509.CertPool.AppendCertsFromPEM manages to parse from PEM bytes, and
   * net.ListenConfig.Listen (which yields a socket).
   */
  datatype Host = Host(
    loadX509KeyPair: (string, string) -> Result<Certificate, Error>,
    readFile: string -> Result<seq<byte>, Error>,
    parsePemCertificates: seq<byte> -> seq<Certificate>,
    listen: (string, string) -> Result<nat, Error>)

  /** The bind address: the configured one, or Go's default HTTP address when it is empty. */
  function ResolveAddress(address: string): (r: string)
    ensures |address| == 0 ==> r == DefaultAddress
    ensures |address| > 0 ==> r == address
    ensures |r| > 0
  {
    if |address| == 0 then DefaultAddress else address
  }
}
