/** The telemetry snapshot shared by the producer (apps/api) and the
    dashboard (apps/dashboard), and the small sequence helpers both sides use.
    A snapshot crosses Redis and the socket as JSON; the model treats that
    encoding as an identity round-trip and passes the value itself. */
module Telemetry {

  datatype Option<T> = None | Some(value: T)

  /** One entry of `endpoints`: an API route and its request count. */
  datatype Endpoint = Endpoint(name: string, requests: int)

  /** The status-code split of one tick's requests. */
  datatype StatusCodes = StatusCodes(success: int, clientError: int, serverError: int)

  /** The `Metrics` interface. `cpu` and `memory` are percentages with one
      decimal, modelled as reals; `timestamp` is Date.now() in milliseconds. */
  datatype Metrics = Metrics(
    timestamp: int,
    cpu: real,
    memory: real,
    requestsPerSecond: int,
    activeConnections: int,
    responseTime: int,
    endpoints: seq<Endpoint>,
    statusCodes: StatusCodes)

  function Min(a: int, b: int): int {
    if a <= b then a else b
  }

  /** The last `n` elements of `s` (all of `s` when it is shorter). */
  function LastN<T>(s: seq<T>, n: nat): (r: seq<T>)
    ensures |r| == Min(|s|, n)
    ensures forall i :: 0 <= i < |r| ==> r[i] == s[|s| - |r| + i]
  {
    if |s| <= n then s else s[|s| - n..]
  }
}
