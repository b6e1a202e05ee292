/**
 * The lock-guarded reverse proxy of src/daemon/proxy.rs. The listening socket is an
 * opaque token; the route is the backend address `127.0.0.1:<port>`, and `isListening`
 * says whether an accept loop is running.
 */
module DaemonProxy {
  import opened Wrappers
  import opened Decimal

  const LOCALHOST := "127.0.0.1:"

  /** The listening socket bound to `127.0.0.1:port`. */
  datatype Listener = Listener(port: u16)

  /** `format!("127.0.0.1:{}", port)`. */
  function RouteTo(port: u16): (route: string)
    ensures |route| > |LOCALHOST| && route[..|LOCALHOST|] == LOCALHOST
  {
    LOCALHOST + Render(port)
  }

  /** The backend port a route names: the digits after the `127.0.0.1:` prefix. */
  function PortOfRoute(route: string): Option<u16>
  {
    if |route| >= |LOCALHOST| && route[..|LOCALHOST|] == LOCALHOST then ParseU16(route[|LOCALHOST|..])
    else None
  }

  /** Reading the port back out of a route gives the port it was made from. */
  lemma RouteRoundTrip(port: u16)
    ensures PortOfRoute(RouteTo(port)) == Some(port)
  {
    assert RouteTo(port)[|LOCALHOST|..] == Render(port);
    ParseRender(port);
  }

  /** Different ports give different routes. */
  lemma RouteInjective(p: u16, q: u16)
    requires RouteTo(p) == RouteTo(q)
    ensures p == q
  {
    RouteRoundTrip(p);
    RouteRoundTrip(q);
  }

  /**
   * What happens at one turn of the accept loop, or between two turns. `Connection`: an
   * accept returned a client. `Timeout`: the 500 ms wait elapsed. `ListenerError`: the
   * accept failed. `Rerouted(port)`: while the loop had released the lock, the control
   * loop took it and rerouted the proxy.
   */
  datatype AcceptEvent = Connection | Timeout | ListenerError | Rerouted(port: u16)

  /** The backend each connection is forwarded to, up to the first listener error. */
  function Forwards(route: string, events: seq<AcceptEvent>): (r: seq<string>)
    ensures |r| <= |events|
    decreases |events|
  {
    if events == [] then []
    else match events[0]
      case Connection => [route] + Forwards(route, events[1..])
      case Timeout => Forwards(route, events[1..])
      case ListenerError => []
      case Rerouted(p) => Forwards(RouteTo(p), events[1..])
  }

  /** The route when the loop ends, at its first listener error. */
  function RouteAfter(route: string, events: seq<AcceptEvent>): string
    decreases |events|
  {
    if events == [] then route
    else match events[0]
      case ListenerError => route
      case Rerouted(p) => RouteAfter(RouteTo(p), events[1..])
      case _ => RouteAfter(route, events[1..])
  }

  /** The number of connections accepted before the first listener error. */
  function Accepted(events: seq<AcceptEvent>): nat
  {
    if events == [] || events[0] == ListenerError then 0
    else if events[0] == Connection then 1 + Accepted(events[1..])
    else Accepted(events[1..])
  }

  /** Every accepted connection, and only those, is forwarded; timeouts forward nothing. */
  lemma {:induction false} ForwardsCount(route: string, events: seq<AcceptEvent>)
    ensures |Forwards(route, events)| == Accepted(events)
    decreases |events|
  {
    if events != [] {
      match events[0]
      case Connection => ForwardsCount(route, events[1..]);
      case Timeout => ForwardsCount(route, events[1..]);
      case ListenerError =>
      case Rerouted(p) => ForwardsCount(RouteTo(p), events[1..]);
    }
  }

  /** Every backend a connection is forwarded to is the starting route or one the proxy was rerouted to. */
  lemma {:induction false} ForwardsBackends(route: string, events: seq<AcceptEvent>)
    ensures forall j :: 0 <= j < |Forwards(route, events)| ==>
              Forwards(route, events)[j] == route ||
              exists i :: 0 <= i < |events| && events[i].Rerouted? && Forwards(route, events)[j] == RouteTo(events[i].port)
    decreases |events|
  {
    if events != [] {
      var rest := events[1..];
      forall i | 0 <= i < |rest| ensures rest[i] == events[i + 1] { }
      match events[0]
      case Connection => ForwardsBackends(route, rest);
      case Timeout => ForwardsBackends(route, rest);
      case ListenerError =>
      case Rerouted(p) => ForwardsBackends(RouteTo(p), rest);
    }
  }

  /** Without a reroute, every connection goes to the route the loop started with. */
  lemma {:induction false} ForwardsWithoutReroute(route: string, events: seq<AcceptEvent>)
    requires forall i :: 0 <= i < |events| ==> !events[i].Rerouted?
    ensures forall j :: 0 <= j < |Forwards(route, events)| ==> Forwards(route, events)[j] == route
    ensures RouteAfter(route, events) == route
  {
    if events != [] && events[0] != ListenerError {
      ForwardsWithoutReroute(route, events[1..]);
    }
  }

  /**
   * A reroute takes effect at the next accept and only from there on: connections before
   * it keep the old backend, connections after it use the new one.
   */
  lemma {:induction false} ForwardsAcrossReroute(route: string, before: seq<AcceptEvent>, port: u16, after: seq<AcceptEvent>)
    requires ListenerError !in before
    ensures Forwards(route, before + [Rerouted(port)] + after) ==
              Forwards(route, before) + Forwards(RouteTo(port), after)
    ensures RouteAfter(route, before + [Rerouted(port)] + after) == RouteAfter(RouteTo(port), after)
    decreases |before|
  {
    var events := before + [Rerouted(port)] + after;
    if before == [] {
      assert events[1..] == after;
    } else {
      assert events[1..] == before[1..] + [Rerouted(port)] + after;
      match before[0]
      case Connection => ForwardsAcrossReroute(route, before[1..], port, after);
      case Timeout => ForwardsAcrossReroute(route, before[1..], port, after);
      case Rerouted(p) => ForwardsAcrossReroute(RouteTo(p), before[1..], port, after);
    }
  }

  /** Rerouting twice to the same port is rerouting once; of two reroutes in a row the last wins. */
  lemma RerouteLastWins(route: string, p: u16, q: u16, after: seq<AcceptEvent>)
    ensures Forwards(route, [Rerouted(p), Rerouted(q)] + after) == Forwards(RouteTo(q), after)
    ensures RouteAfter(route, [Rerouted(p), Rerouted(q)] + after) == RouteAfter(RouteTo(q), after)
  {
    var events := [Rerouted(p), Rerouted(q)] + after;
    assert events[1..] == [Rerouted(q)] + after;
    assert events[1..][1..] == after;
  }

  class Proxy {
    const listener: Listener
    var route: string
    var isListening: bool

    /** `Proxy::new`, when binding the listener succeeds. */
    constructor (listenerPort: u16, serverPort: u16)
      ensures listener == Listener(listenerPort)
      ensures route == RouteTo(serverPort)
      ensures !isListening
    {
      listener := Listener(listenerPort);
      route := RouteTo(serverPort);
      isListening := false;
    }

    /** `reroute_to`: only the route changes. */
    method RerouteTo(serverPort: u16)
      modifies this`route
      ensures route == RouteTo(serverPort)
      ensures PortOfRoute(route) == Some(serverPort)
    {
      route := RouteTo(serverPort);
      RouteRoundTrip(serverPort);
    }

    /** `set_is_listening`: only the flag changes. */
    method SetIsListening(b: bool)
      modifies this`isListening
      ensures isListening == b
    {
      isListening := b;
    }

    /**
     * `Proxy::listen`, for one run of the loop: `events` is what the loop meets, up to the
     * listener error that ends it. The flag is raised before the loop and lowered after;
     * each accepted connection is forwarded to the route held at that accept. Returns the
     * backend of every forwarded connection.
     */
    method Listen(events: seq<AcceptEvent>) returns (forwarded: seq<string>)
      requires ListenerError in events
      modifies this
      ensures forwarded == Forwards(old(route), events)
      ensures route == RouteAfter(old(route), events)
      ensures !isListening
    {
      SetIsListening(true);
      forwarded := [];
      var ok := true;
      var i := 0;
      while ok
        invariant 0 <= i <= |events|
        invariant isListening
        invariant ok ==> ListenerError in events[i..]
        invariant ok ==> forwarded + Forwards(route, events[i..]) == Forwards(old(route), events)
        invariant ok ==> RouteAfter(route, events[i..]) == RouteAfter(old(route), events)
        invariant !ok ==> forwarded == Forwards(old(route), events)
        invariant !ok ==> route == RouteAfter(old(route), events)
        decreases |events| - i
      {
        assert events[i..][1..] == events[i + 1..];
        match events[i] {
          case Rerouted(p) =>
            RerouteTo(p);
          case Timeout =>
          case Connection =>
            forwarded := forwarded + [route];
          case ListenerError =>
            ok := false;
        }
        i := i + 1;
      }
      SetIsListening(false);
    }
  }
}
