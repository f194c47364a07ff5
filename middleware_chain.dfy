/**
 * NewServerChain (src/xhttp/xhttpserver/server.go:175-192): the ordered
 * middleware stages put around every handler of a server, and the way an
 * alice chain applies them to a handler.
 */
module MiddlewareChain {
  import opened ServerOptions

  /** A builder of extra request-log fields (xloghttp.ParameterBuilder). */
  datatype ParameterBuilder = ParameterBuilder(handle: nat)

  /**
   * One middleware constructor: the response-header injector, the tracking
   * writer, or request logging with its logger and field builders.
   */
  datatype Stage =
    | ResponseHeaders(header: Header)
    | TrackingWriter
    | Logging(base: Logger, builders: seq<ParameterBuilder>)

  /** An application handler, or a handler produced by one stage around another. */
  datatype Handler = Application(handle: nat) | Wrapped(stage: Stage, inner: Handler)

  /** An alice chain: its constructors in the order they were added. */
  type Chain = seq<Stage>

  /** Applies a chain to a handler: a right fold, so the first stage is the outermost. */
  function Then(chain: Chain, h: Handler): Handler
  {
    if chain == [] then h else Wrapped(chain[0], Then(chain[1..], h))
  }

  /** The stages a request passes through, outermost first. */
  function Layers(h: Handler): seq<Stage>
  {
    match h
    case Application(_) => []
    case Wrapped(s, inner) => [s] + Layers(inner)
  }

  /** The handler that every stage finally calls. */
  function Innermost(h: Handler): Handler
  {
    match h
    case Application(_) => h
    case Wrapped(_, inner) => Innermost(inner)
  }

  /** Applying a chain puts its stages, in order, outside those the handler already has. */
  lemma {:induction false} ThenLayers(chain: Chain, h: Handler)
    ensures Layers(Then(chain, h)) == chain + Layers(h)
    ensures Innermost(Then(chain, h)) == Innermost(h)
  {
    if chain != [] {
      ThenLayers(chain[1..], h);
      assert chain == [chain[0]] + chain[1..];
    }
  }

  /** Appending to a chain nests the appended stages inside the existing ones. */
  lemma {:induction false} ThenAppend(chain: Chain, more: Chain, h: Handler)
    ensures Then(chain + more, h) == Then(chain, Then(more, h))
  {
    if chain == [] {
      assert chain + more == more;
    } else {
      assert (chain + more)[0] == chain[0];
      assert (chain + more)[1..] == chain[1..] + more;
      ThenAppend(chain[1..], more, h);
    }
  }

  /** Every stage NewServerChain can install, in its order. */
  function FullServerChain(o: Options, l: Logger, pb: seq<ParameterBuilder>): Chain
  {
    [ResponseHeaders(o.header), TrackingWriter, Logging(l, pb)]
  }

  /** `a` is `b` with some of its elements dropped and the rest in the same order. */
  predicate IsSubsequence(a: seq<Stage>, b: seq<Stage>)
    decreases |b|
  {
    if a == [] then true
    else if b == [] then false
    else if a[0] == b[0] then IsSubsequence(a[1..], b[1..])
    else IsSubsequence(a, b[1..])
  }

  /** The chain with every occurrence of one stage removed. */
  function Without(chain: Chain, s: Stage): Chain
  {
    if chain == [] then []
    else (if chain[0] == s then [] else [chain[0]]) + Without(chain[1..], s)
  }

  /**
   * The stages NewServerChain installs: the response headers always, then
   * tracking and logging unless each is disabled.
   */
  function ServerChainOf(o: Options, l: Logger, pb: seq<ParameterBuilder>): (chain: Chain)
    ensures |chain| >= 1 && chain[0] == ResponseHeaders(o.header)
    ensures TrackingWriter in chain <==> !o.disableTracking
    ensures Logging(l, pb) in chain <==> !o.disableHandlerLogger
    ensures |chain| == 1 + (if o.disableTracking then 0 else 1) + (if o.disableHandlerLogger then 0 else 1)
    ensures !o.disableTracking && !o.disableHandlerLogger ==> chain == FullServerChain(o, l, pb)
  {
    [ResponseHeaders(o.header)]
    + (if o.disableTracking then [] else [TrackingWriter])
    + (if o.disableHandlerLogger then [] else [Logging(l, pb)])
  }

  /** The installed stages keep the order of the full chain; disabling one drops only that one. */
  lemma ServerChainKeepsOrder(o: Options, l: Logger, pb: seq<ParameterBuilder>)
    ensures IsSubsequence(ServerChainOf(o, l, pb), FullServerChain(o, l, pb))
  {
    var chain, full := ServerChainOf(o, l, pb), FullServerChain(o, l, pb);
    var tail := if o.disableHandlerLogger then [] else [Logging(l, pb)];
    assert full[1..][1..][1..] == [];
    assert IsSubsequence(tail, full[1..][1..]);
    if o.disableTracking {
      assert chain[1..] == tail;
      assert IsSubsequence(tail, full[1..]);
    } else {
      assert chain[1..] == [TrackingWriter] + tail;
      assert chain[1..][1..] == tail;
    }
  }

  /** NewServerChain as written: a chain of one stage, extended by Append as options allow. */
  method NewServerChain(o: Options, l: Logger, pb: seq<ParameterBuilder>) returns (chain: Chain)
    ensures chain == ServerChainOf(o, l, pb)
  {
    chain := [ResponseHeaders(o.header)];

    if !o.disableTracking {
      chain := chain + [TrackingWriter];
    }

    if !o.disableHandlerLogger {
      chain := chain + [Logging(l, pb)];
    }
  }

  lemma {:induction false} WithoutConcat(a: Chain, b: Chain, s: Stage)
    ensures Without(a + b, s) == Without(a, s) + Without(b, s)
  {
    if a == [] {
      assert a + b == b;
    } else {
      assert (a + b)[0] == a[0];
      assert (a + b)[1..] == a[1..] + b;
      WithoutConcat(a[1..], b, s);
    }
  }

  /** Disabling tracking removes the tracking stage and leaves the others in order. */
  lemma DisableTrackingRemovesOnlyTracking(o: Options, l: Logger, pb: seq<ParameterBuilder>)
    ensures ServerChainOf(o.(disableTracking := true), l, pb) ==
            Without(ServerChainOf(o.(disableTracking := false), l, pb), TrackingWriter)
  {
    var logging := if o.disableHandlerLogger then [] else [Logging(l, pb)];
    WithoutConcat([ResponseHeaders(o.header), TrackingWriter], logging, TrackingWriter);
    WithoutConcat([ResponseHeaders(o.header)], [TrackingWriter], TrackingWriter);
    assert [ResponseHeaders(o.header), TrackingWriter] == [ResponseHeaders(o.header)] + [TrackingWriter];
  }

  /** Disabling logging removes the logging stage and leaves the others in order. */
  lemma DisableLoggingRemovesOnlyLogging(o: Options, l: Logger, pb: seq<ParameterBuilder>)
    ensures ServerChainOf(o.(disableHandlerLogger := true), l, pb) ==
            Without(ServerChainOf(o.(disableHandlerLogger := false), l, pb), Logging(l, pb))
  {
    var front := [ResponseHeaders(o.header)] + (if o.disableTracking then [] else [TrackingWriter]);
    WithoutConcat(front, [Logging(l, pb)], Logging(l, pb));
    if o.disableTracking {
      assert front == [ResponseHeaders(o.header)];
    } else {
      WithoutConcat([ResponseHeaders(o.header)], [TrackingWriter], Logging(l, pb));
    }
  }

  /**
   * A server's handler: requests pass the response headers first, then
   * tracking, then logging, then the application handler.
   */
  lemma ServerChainWrapsInOrder(o: Options, l: Logger, pb: seq<ParameterBuilder>, h: Handler)
    ensures Layers(Then(ServerChainOf(o, l, pb), h)) == ServerChainOf(o, l, pb) + Layers(h)
    ensures Innermost(Then(ServerChainOf(o, l, pb), h)) == Innermost(h)
    ensures !o.disableTracking && !o.disableHandlerLogger ==>
      Then(ServerChainOf(o, l, pb), h) ==
      Wrapped(ResponseHeaders(o.header), Wrapped(TrackingWriter, Wrapped(Logging(l, pb), h)))
  {
    ThenLayers(ServerChainOf(o, l, pb), h);
    var chain := ServerChainOf(o, l, pb);
    if !o.disableTracking && !o.disableHandlerLogger {
      assert chain == [ResponseHeaders(o.header), TrackingWriter, Logging(l, pb)];
      assert chain[1..] == [TrackingWriter, Logging(l, pb)];
      assert chain[1..][1..] == [Logging(l, pb)];
      assert chain[1..][1..][1..] == [];
      assert Then(chain[1..][1..], h) == Wrapped(Logging(l, pb), h);
      assert Then(chain[1..], h) == Wrapped(TrackingWriter, Wrapped(Logging(l, pb), h));
    }
  }
}
