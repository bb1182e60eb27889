/**
 * `FindOpenPort`: an ascending scan of an inclusive port range that returns
 * the first port a loopback listener can be started on.
 *
 * Binding is abstracted as `avail(port)`: true when `TcpListener.Start`
 * succeeds on that port at the moment of the probe. A port outside
 * 0..65535 makes the `TcpListener` constructor throw an
 * ArgumentOutOfRangeException, which the scan's `catch (SocketException)`
 * does not catch, so the scan stops there with an error.
 */
module PortSearch {
  import opened Wrappers

  const MinPort: int := 0
  const MaxPort: int := 65535

  predicate IsValidPort(port: int) {
    MinPort <= port <= MaxPort
  }

  datatype SearchError =
    | NoOpenPorts              // "No open ports found."
    | PortOutOfRange(port: int) // thrown by the listener's constructor

  /** Every port of `[lo, hi)` was probed and could not be bound. */
  ghost predicate AllBusy(lo: int, hi: int, avail: int -> bool) {
    forall q | lo <= q < hi :: IsValidPort(q) && !avail(q)
  }

  /** `port` is the lowest port of `[startPort, endPort]` that can be bound. */
  ghost predicate IsLowestOpen(startPort: int, endPort: int, avail: int -> bool, port: int) {
    startPort <= port <= endPort && IsValidPort(port) && avail(port) && AllBusy(startPort, port, avail)
  }

  /** What the scan returns, starting at `port`. */
  function FirstOpenPort(port: int, endPort: int, avail: int -> bool): Result<int, SearchError>
    decreases endPort - port
  {
    if port > endPort then Failure(NoOpenPorts)
    else if !IsValidPort(port) then Failure(PortOutOfRange(port))
    else if avail(port) then Success(port)
    else FirstOpenPort(port + 1, endPort, avail)
  }

  /**
   * The scan's three outcomes: the lowest bindable port, exhaustion exactly
   * when every port of the range (the empty range included) is busy, or the
   * first out-of-range port reached before any free one.
   */
  lemma {:induction false} FirstOpenPortMeaning(startPort: int, endPort: int, avail: int -> bool)
    ensures var r := FirstOpenPort(startPort, endPort, avail);
      && (r.Success? ==> IsLowestOpen(startPort, endPort, avail, r.value))
      && (r == Failure(NoOpenPorts) <==> AllBusy(startPort, endPort + 1, avail))
      && (r.Failure? && r.error.PortOutOfRange? ==>
            var p := r.error.port;
            startPort <= p <= endPort && !IsValidPort(p) && AllBusy(startPort, p, avail))
    decreases endPort - startPort
  {
    if startPort <= endPort && IsValidPort(startPort) && !avail(startPort) {
      FirstOpenPortMeaning(startPort + 1, endPort, avail);
    }
  }

  /**
   * In a range that starts at a valid port, any bindable port is found, and the
   * one found is never above it. (From a negative start the scan stops at the
   * start with PortOutOfRange whatever lies above.)
   */
  lemma FoundPortIsLowest(startPort: int, endPort: int, avail: int -> bool, q: int)
    requires MinPort <= startPort <= q <= endPort && IsValidPort(q) && avail(q)
    ensures FirstOpenPort(startPort, endPort, avail).Success?
    ensures FirstOpenPort(startPort, endPort, avail).value <= q
  {
    FirstOpenPortMeaning(startPort, endPort, avail);
  }

  /** The source's loop: probe `startPort`, `startPort + 1`, ... and return on the first success. */
  method FindOpenPort(startPort: int, endPort: int, avail: int -> bool) returns (r: Result<int, SearchError>)
    ensures r == FirstOpenPort(startPort, endPort, avail)
    ensures r.Success? ==> IsLowestOpen(startPort, endPort, avail, r.value)
    ensures r == Failure(NoOpenPorts) <==> AllBusy(startPort, endPort + 1, avail)
  {
    var port := startPort;
    while port <= endPort
      invariant startPort <= port && (startPort <= endPort ==> port <= endPort + 1)
      invariant AllBusy(startPort, port, avail)
      invariant FirstOpenPort(port, endPort, avail) == FirstOpenPort(startPort, endPort, avail)
      decreases endPort - port
    {
      if !IsValidPort(port) {
        return Failure(PortOutOfRange(port));
      }
      if avail(port) {
        return Success(port);
      }
      port := port + 1;
    }
    r := Failure(NoOpenPorts);
  }
}
