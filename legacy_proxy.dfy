/**
 * The earlier reverse proxy of src/proxy.rs: a listener and a route, no timeout. Its
 * accept loop runs inside `&mut self`, so the route cannot change while it runs.
 */
module LegacyProxy {
  import opened Decimal
  import DaemonProxy

  /** What one `accept` returns. */
  datatype AcceptResult = Accepted | AcceptFailed

  /** The position of the first failed accept. */
  function FirstFailure(results: seq<AcceptResult>): (n: nat)
    requires AcceptFailed in results
    ensures n < |results| && results[n] == AcceptFailed
    ensures forall i :: 0 <= i < n ==> results[i] == Accepted
  {
    if results[0] == AcceptFailed then 0 else 1 + FirstFailure(results[1..])
  }

  class Proxy {
    const listener: DaemonProxy.Listener
    var route: string
    /**
     * src/daemon.rs reads an `is_listening` field of this proxy, which src/proxy.rs does
     * not declare; it is false from the start and nothing in the legacy code sets it.
     */
    var isListening: bool

    /** `Proxy::new`, when binding the listener succeeds. */
    constructor (listenerPort: u16, serverPort: u16)
      ensures listener == DaemonProxy.Listener(listenerPort)
      ensures route == DaemonProxy.RouteTo(serverPort)
      ensures !isListening
    {
      listener := DaemonProxy.Listener(listenerPort);
      route := DaemonProxy.RouteTo(serverPort);
      isListening := false;
    }

    /** `reroute_to`: only the route changes. */
    method RerouteTo(serverPort: u16)
      modifies this`route
      ensures route == DaemonProxy.RouteTo(serverPort)
    {
      route := DaemonProxy.RouteTo(serverPort);
    }

    /**
     * `Proxy::listen`: `while let Ok(..) = accept()`. Every connection accepted before the
     * first failed accept is forwarded to the one route the proxy holds; the loop ends at
     * that failure.
     */
    method Listen(results: seq<AcceptResult>) returns (forwarded: seq<string>)
      requires AcceptFailed in results
      ensures |forwarded| == FirstFailure(results)
      ensures forall j :: 0 <= j < |forwarded| ==> forwarded[j] == route
    {
      forwarded := [];
      var i := 0;
      var n := FirstFailure(results);
      while results[i] == Accepted
        invariant 0 <= i <= n
        invariant |forwarded| == i
        invariant forall j :: 0 <= j < |forwarded| ==> forwarded[j] == route
        decreases n - i
      {
        forwarded := forwarded + [route];
        i := i + 1;
      }
    }
  }
}
