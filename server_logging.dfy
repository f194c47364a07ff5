/**
 * NewServerLogger (src/xhttp/xhttpserver/server.go:160-173): a logger whose
 * every record is prefixed with the server's address and name.
 */
module ServerLogging {
  import opened ServerOptions

  /**
   * The base logger with the prefix: the address pair, then the server-name
   * pair only when a name is set, then the caller's extra values in order.
   */
  function NewServerLogger(o: Options, base: Logger, extra: seq<LogValue>): (l: Logger)
    ensures l.WithPrefix? && l.inner == base
    ensures |l.keyvals| == 2 + (if |o.name| > 0 then 2 else 0) + |extra|
    ensures l.keyvals[..2] == [AddressKey, Text(ResolveAddress(o.address))]
    ensures |o.name| > 0 ==> l.keyvals[2..4] == [ServerKey, Text(o.name)]
    ensures l.keyvals[|l.keyvals| - |extra|..] == extra
    ensures ServerKey in l.keyvals[..|l.keyvals| - |extra|] <==> |o.name| > 0
  {
    var address := ResolveAddress(o.address);
    var parameters := [AddressKey, Text(address)];
    var parameters := if |o.name| > 0 then parameters + [ServerKey, Text(o.name)] else parameters;
    WithPrefix(base, parameters + extra)
  }
}
