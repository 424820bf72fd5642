/** The snapshot generator and producer loop of apps/api/src/generator.ts.
    Every `Math.random()` call is a parameter `u` with 0 <= u < 1; the four
    module-level baselines and the interval handle are the fields of a
    `Generator` object. Numbers are reals: IEEE rounding is not modelled. */
module Generator {
  import opened Telemetry
  import opened RedisStore

  /** One `Math.random()` result. */
  predicate Unit(u: real) {
    0.0 <= u < 1.0
  }

  /** `Math.random() * width` for the draw `u`. */
  function Scale(u: real, width: real): (r: real)
    ensures Unit(u) && width > 0.0 ==> 0.0 <= r < width
  {
    u * width
  }

  /** `randomInRange(min, max)` for the draw `u`: uniform over [min, max). */
  function RandomInRange(u: real, lo: real, hi: real): (r: real)
    requires lo < hi
    ensures Unit(u) ==> lo <= r < hi
  {
    Scale(u, hi - lo) + lo
  }

  /** `clamp(value, min, max)`, i.e. Math.min(Math.max(value, min), max). */
  function Clamp(v: real, lo: real, hi: real): (r: real)
    ensures lo <= hi ==> lo <= r <= hi
    ensures lo <= v <= hi ==> r == v
    ensures v > hi ==> r == hi
    ensures v < lo && lo <= hi ==> r == lo
    ensures r == v || r == lo || r == hi
  {
    var atLeast := if v > lo then v else lo;
    if atLeast < hi then atLeast else hi
  }

  /** `Math.round`: the nearest integer, halves rounded up. */
  function Round(x: real): (r: int)
    ensures x - 0.5 < r as real <= x + 0.5
  {
    (x + 0.5).Floor
  }

  /** A number with at most one decimal place. */
  predicate OneDecimal(x: real) {
    (x * 10.0).Floor as real == x * 10.0
  }

  /** `Number(x.toFixed(1))`: the nearest tenth. */
  function RoundTenth(x: real): (r: real)
    ensures OneDecimal(r)
    ensures x - 0.05 < r <= x + 0.05
  {
    Round(x * 10.0) as real / 10.0
  }

  /** Rounding to a tenth keeps a value inside a band with whole-number ends. */
  lemma RoundTenthWithin(x: real, lo: int, hi: int)
    requires lo as real <= x <= hi as real
    ensures lo as real <= RoundTenth(x) <= hi as real
  {
    var n := Round(x * 10.0);
    assert (10 * lo) as real - 0.5 < n as real < (10 * hi) as real + 1.0;
    assert 10 * lo <= n <= 10 * hi;
  }

  /** The routes and base loads of `generateEndpointStats`, in order. */
  const EndpointTable: seq<(string, int)> := [
    ("/api/users", 45),
    ("/api/products", 35),
    ("/api/orders", 25),
    ("/api/auth", 20),
    ("/api/search", 15)
  ]

  /** `Math.round` keeps a value inside a band with whole-number ends. */
  lemma RoundWithin(x: real, lo: int, hi: int)
    ensures lo as real <= x <= hi as real ==> lo <= Round(x) <= hi
  {
  }

  /** One route's count: its base load plus noise in [-10, 15), rounded. */
  function EndpointRequests(base: int, u: real): (r: int)
    requires Unit(u)
    ensures base - 10 <= r <= base + 15
  {
    var x := base as real + RandomInRange(u, -10.0, 15.0);
    RoundWithin(x, base - 10, base + 15);
    Round(x)
  }

  /** `generateEndpointStats`, with one draw per route. */
  function GenerateEndpointStats(noise: seq<real>): (r: seq<Endpoint>)
    requires |noise| == |EndpointTable|
    requires forall i :: 0 <= i < |noise| ==> Unit(noise[i])
    ensures |r| == 5
    ensures forall i :: 0 <= i < |r| ==>
      r[i].name == EndpointTable[i].0 &&
      EndpointTable[i].1 - 10 <= r[i].requests <= EndpointTable[i].1 + 15
  {
    seq(|noise|, i requires 0 <= i < |noise| =>
      Endpoint(EndpointTable[i].0, EndpointRequests(EndpointTable[i].1, noise[i])))
  }

  /** The client error rate: a "bad tick" (roll < 0.1) draws from [0.05, 0.15). */
  function ErrorRate(roll: real, u: real): (r: real)
    requires Unit(roll) && Unit(u)
    ensures 0.01 <= r < 0.15
    ensures roll >= 0.1 ==> r < 0.05
  {
    if roll < 0.1 then RandomInRange(u, 0.05, 0.15) else RandomInRange(u, 0.01, 0.05)
  }

  /** The server error rate: 5% of ticks draw from [0.01, 0.05). */
  function ServerErrorRate(roll: real, u: real): (r: real)
    requires Unit(roll) && Unit(u)
    ensures 0.0 <= r < 0.05
    ensures roll >= 0.05 ==> r < 0.01
  {
    if roll < 0.05 then RandomInRange(u, 0.01, 0.05) else RandomInRange(u, 0.0, 0.01)
  }

  /** The split of `totalRequests` for given rates; `success` absorbs the
      rounding and is floored at zero. */
  function SplitStatusCodes(total: int, errorRate: real, serverErrorRate: real): (r: StatusCodes)
    requires 0.0 <= errorRate <= 0.15 && 0.0 <= serverErrorRate <= 0.05
    ensures r.success >= 0
    ensures total >= 0 ==> r.clientError >= 0 && r.serverError >= 0
    ensures total >= 0 ==> r.success + r.clientError + r.serverError == total
  {
    var serverErrors := Round(total as real * serverErrorRate);
    var clientErrors := Round(total as real * errorRate);
    var success := total - clientErrors - serverErrors;
    ErrorsWithinTotal(total, errorRate, serverErrorRate);
    StatusCodes(if success > 0 then success else 0, clientErrors, serverErrors)
  }

  /** A rate of at most `cap` applied to a non-negative total. */
  lemma ScaleRate(t: real, rate: real, cap: real)
    requires t >= 0.0 && 0.0 <= rate <= cap
    ensures 0.0 <= t * rate <= t * cap
  {
  }

  /** Two rounded shares of a whole total, of at most 15% and 5% of it,
      fit in that total together. */
  lemma RoundedSharesFit(total: int, clientShare: real, serverShare: real)
    requires total >= 0
    requires 0.0 <= clientShare <= total as real * 0.15
    requires 0.0 <= serverShare <= total as real * 0.05
    ensures 0 <= Round(clientShare) && 0 <= Round(serverShare)
    ensures Round(clientShare) + Round(serverShare) <= total
  {
    var c, s := Round(clientShare), Round(serverShare);
    if total == 0 {
      assert c == 0 && s == 0;
    } else if total == 1 {
      assert c == 0 && s == 0;
    }
  }

  /** With rates of at most 15% and 5%, the two rounded error counts never
      exceed a non-negative total, so the `Math.max(0, ...)` never bites. */
  lemma ErrorsWithinTotal(total: int, errorRate: real, serverErrorRate: real)
    requires 0.0 <= errorRate <= 0.15 && 0.0 <= serverErrorRate <= 0.05
    ensures total >= 0 ==> 0 <= Round(total as real * errorRate)
    ensures total >= 0 ==> 0 <= Round(total as real * serverErrorRate)
    ensures total >= 0 ==> Round(total as real * errorRate) + Round(total as real * serverErrorRate) <= total
  {
    if total >= 0 {
      ScaleRate(total as real, errorRate, 0.15);
      ScaleRate(total as real, serverErrorRate, 0.05);
      RoundedSharesFit(total, total as real * errorRate, total as real * serverErrorRate);
    }
  }

  /** `generateStatusCodes(totalRequests)` with its four draws. */
  function GenerateStatusCodes(total: int, errorRoll: real, errorDraw: real,
                               serverRoll: real, serverDraw: real): (r: StatusCodes)
    requires Unit(errorRoll) && Unit(errorDraw) && Unit(serverRoll) && Unit(serverDraw)
    ensures r.success >= 0
    ensures total >= 0 ==> r.clientError >= 0 && r.serverError >= 0
    ensures total >= 0 ==> r.success + r.clientError + r.serverError == total
  {
    SplitStatusCodes(total, ErrorRate(errorRoll, errorDraw), ServerErrorRate(serverRoll, serverDraw))
  }

  /** Every `Math.random()` result one `generateMetrics` call may consume.
      A draw behind a branch not taken (a spike, a collection drop) is unused. */
  datatype Draws = Draws(
    requestsDrift: real, requestsNoise: real,
    cpuDrift: real, spikeRoll: real, spike: real, cpuNoise: real,
    memoryDrift: real, collectionRoll: real, collectionDrop: real, memoryNoise: real,
    connectionsDrift: real, connectionsNoise: real,
    responseTime: real,
    endpointNoise: seq<real>,
    errorRoll: real, errorDraw: real, serverRoll: real, serverDraw: real)

  predicate ValidDraws(d: Draws) {
    Unit(d.requestsDrift) && Unit(d.requestsNoise) &&
    Unit(d.cpuDrift) && Unit(d.spikeRoll) && Unit(d.spike) && Unit(d.cpuNoise) &&
    Unit(d.memoryDrift) && Unit(d.collectionRoll) && Unit(d.collectionDrop) && Unit(d.memoryNoise) &&
    Unit(d.connectionsDrift) && Unit(d.connectionsNoise) &&
    Unit(d.responseTime) &&
    |d.endpointNoise| == |EndpointTable| &&
    (forall i :: 0 <= i < |d.endpointNoise| ==> Unit(d.endpointNoise[i])) &&
    Unit(d.errorRoll) && Unit(d.errorDraw) && Unit(d.serverRoll) && Unit(d.serverDraw)
  }

  /** What every generated snapshot guarantees. */
  predicate WellFormed(m: Metrics) {
    5.0 <= m.cpu <= 95.0 && OneDecimal(m.cpu) &&
    20.0 <= m.memory <= 90.0 && OneDecimal(m.memory) &&
    20 <= m.responseTime <= 150 &&
    m.requestsPerSecond >= 0 &&
    m.activeConnections >= 0 &&
    |m.endpoints| == |EndpointTable| &&
    (forall i :: 0 <= i < |m.endpoints| ==> m.endpoints[i].name == EndpointTable[i].0) &&
    m.statusCodes.success >= 0 && m.statusCodes.clientError >= 0 && m.statusCodes.serverError >= 0 &&
    m.statusCodes.success + m.statusCodes.clientError + m.statusCodes.serverError == m.requestsPerSecond
  }

  /** The four module-level baselines at one moment. */
  datatype Baselines = Baselines(cpu: real, memory: real, requests: real, connections: real)

  /** Each baseline inside the band its clamp keeps it in. */
  predicate InBands(b: Baselines) {
    20.0 <= b.cpu <= 70.0 &&
    30.0 <= b.memory <= 85.0 &&
    50.0 <= b.requests <= 300.0 &&
    10.0 <= b.connections <= 100.0
  }

  /** `cpuBase` after one drift: a random walk of step below 2, kept in [20, 70]. */
  function NextCpuBase(base: real, drift: real): (r: real)
    requires Unit(drift)
    ensures 20.0 <= r <= 70.0
    ensures 20.0 <= base <= 70.0 ==> base - 2.0 <= r < base + 2.0
  {
    Clamp(base + RandomInRange(drift, -2.0, 2.0), 20.0, 70.0)
  }

  /** The cpu reading: the baseline, a spike on 10% of ticks, and noise,
      kept in [5, 95]. Without a spike it is within 3 of the baseline. */
  function CpuReading(base: real, spikeRoll: real, spike: real, noise: real): (r: real)
    requires Unit(spike) && Unit(noise)
    ensures 5.0 <= r <= 95.0
    ensures spikeRoll >= 0.1 && 8.0 <= base <= 92.0 ==> base - 3.0 <= r < base + 3.0
  {
    var s := if spikeRoll < 0.1 then RandomInRange(spike, 10.0, 25.0) else 0.0;
    Clamp(base + s + RandomInRange(noise, -3.0, 3.0), 5.0, 95.0)
  }

  /** `memoryBase` after one drift in [-0.5, 1) and, on 5% of ticks, a
      collection drop in [5, 15), kept in [30, 85]. */
  function NextMemoryBase(base: real, drift: real, collectionRoll: real, drop: real): (r: real)
    requires Unit(drift) && Unit(drop)
    ensures 30.0 <= r <= 85.0
    ensures collectionRoll >= 0.05 && 30.0 <= base <= 85.0 ==> base - 0.5 <= r < base + 1.0
    ensures collectionRoll < 0.05 && 30.0 <= base <= 85.0 ==> r == 30.0 || r < base - 4.0
  {
    var drifted := base + RandomInRange(drift, -0.5, 1.0);
    Clamp(if collectionRoll < 0.05 then drifted - RandomInRange(drop, 5.0, 15.0) else drifted, 30.0, 85.0)
  }

  /** The memory reading: the baseline plus noise, kept in [20, 90]. */
  function MemoryReading(base: real, noise: real): (r: real)
    requires Unit(noise)
    ensures 20.0 <= r <= 90.0
    ensures 22.0 <= base <= 88.0 ==> base - 2.0 <= r < base + 2.0
  {
    Clamp(base + RandomInRange(noise, -2.0, 2.0), 20.0, 90.0)
  }

  /** `requestsBase` after one drift: a random walk of step below 10, kept in [50, 300]. */
  function NextRequestsBase(base: real, drift: real): (r: real)
    requires Unit(drift)
    ensures 50.0 <= r <= 300.0
    ensures 50.0 <= base <= 300.0 ==> base - 10.0 <= r < base + 10.0
  {
    Clamp(base + RandomInRange(drift, -10.0, 10.0), 50.0, 300.0)
  }

  /** The request rate: the baseline plus noise in [-20, 20), rounded. */
  function RequestsReading(base: real, noise: real): (r: int)
    requires Unit(noise)
    ensures base - 20.5 < r as real <= base + 20.5
    ensures 50.0 <= base <= 300.0 ==> 30 <= r <= 320
  {
    var x := base + RandomInRange(noise, -20.0, 20.0);
    RoundWithin(x, 30, 320);
    Round(x)
  }

  /** `connectionsBase` after one drift: a random walk of step below 2, kept in [10, 100]. */
  function NextConnectionsBase(base: real, drift: real): (r: real)
    requires Unit(drift)
    ensures 10.0 <= r <= 100.0
    ensures 10.0 <= base <= 100.0 ==> base - 2.0 <= r < base + 2.0
  {
    Clamp(base + RandomInRange(drift, -2.0, 2.0), 10.0, 100.0)
  }

  /** The connection count: the baseline plus noise in [-5, 5), rounded. */
  function ConnectionsReading(base: real, noise: real): (r: int)
    requires Unit(noise)
    ensures base - 5.5 < r as real <= base + 5.5
    ensures 10.0 <= base <= 100.0 ==> 5 <= r <= 105
  {
    var x := base + RandomInRange(noise, -5.0, 5.0);
    RoundWithin(x, 5, 105);
    Round(x)
  }

  /** `Math.round(randomInRange(20, 150))`. */
  function ResponseTime(u: real): (r: int)
    requires Unit(u)
    ensures 20 <= r <= 150
  {
    var x := RandomInRange(u, 20.0, 150.0);
    RoundWithin(x, 20, 150);
    Round(x)
  }

  /** The baselines after one `generateMetrics` call: every baseline drifts once. */
  function NextBaselines(b: Baselines, d: Draws): (r: Baselines)
    requires ValidDraws(d)
    ensures InBands(r)
  {
    Baselines(NextCpuBase(b.cpu, d.cpuDrift),
              NextMemoryBase(b.memory, d.memoryDrift, d.collectionRoll, d.collectionDrop),
              NextRequestsBase(b.requests, d.requestsDrift),
              NextConnectionsBase(b.connections, d.connectionsDrift))
  }

  /** The snapshot `generateMetrics` returns, read off the baselines it has
      just drifted to: well-formed whatever the draws. */
  function Snapshot(b: Baselines, now: int, d: Draws): (m: Metrics)
    requires InBands(b) && ValidDraws(d)
    ensures WellFormed(m) && m.timestamp == now
  {
    var requests := RequestsReading(b.requests, d.requestsNoise);
    var cpu := CpuReading(b.cpu, d.spikeRoll, d.spike, d.cpuNoise);
    var memory := MemoryReading(b.memory, d.memoryNoise);
    RoundTenthWithin(cpu, 5, 95);
    RoundTenthWithin(memory, 20, 90);
    Metrics(now, RoundTenth(cpu), RoundTenth(memory), requests,
            ConnectionsReading(b.connections, d.connectionsNoise),
            ResponseTime(d.responseTime),
            GenerateEndpointStats(d.endpointNoise),
            GenerateStatusCodes(requests, d.errorRoll, d.errorDraw, d.serverRoll, d.serverDraw))
  }

  /** What one `emit` cycle does to the Redis server: `cacheMetrics` at
      wall-clock time `keyTime` with `completed` of its commands succeeding,
      then `publishMetrics` only when the cache write resolved. */
  twostate predicate Emitted(store: Store, keyTime: nat, completed: nat, m: Metrics)
    reads store
  {
    store.keyed == (if completed >= 1 then old(store.keyed)[Key(keyTime) := Entry(m, KeyTtl)]
                    else old(store.keyed)) &&
    store.history == (if completed >= 3 then Record(old(store.history), m)
                      else if completed == 2 then [m] + old(store.history)
                      else old(store.history)) &&
    store.published == (if completed >= 3 then old(store.published) + [Message(MetricsChannel, m)]
                        else old(store.published))
  }

  /** The module-level state of generator.ts. */
  class Generator {
    var cpuBase: real
    var memoryBase: real
    var requestsBase: real
    var connectionsBase: real
    /** `intervalId !== null`: the periodic timer is set. */
    var running: bool

    function Bases(): Baselines
      reads this
    {
      Baselines(cpuBase, memoryBase, requestsBase, connectionsBase)
    }

    /** Each baseline stays in its own band. */
    ghost predicate Valid()
      reads this
    {
      InBands(Bases())
    }

    /** The module's initial values: 45, 50, 150, 25 and no timer. */
    constructor ()
      ensures Valid() && !running
      ensures Bases() == Baselines(45.0, 50.0, 150.0, 25.0)
    {
      cpuBase, memoryBase, requestsBase, connectionsBase := 45.0, 50.0, 150.0, 25.0;
      running := false;
    }

    /** `generateCPU`: drift the baseline, then add an optional spike and noise. */
    method GenerateCPU(drift: real, spikeRoll: real, spike: real, noise: real) returns (cpu: real)
      requires Valid() && Unit(drift) && Unit(spikeRoll) && Unit(spike) && Unit(noise)
      modifies this`cpuBase
      ensures Valid()
      ensures cpuBase == NextCpuBase(old(cpuBase), drift)
      ensures cpu == CpuReading(cpuBase, spikeRoll, spike, noise)
      ensures 5.0 <= cpu <= 95.0
    {
      cpuBase := cpuBase + RandomInRange(drift, -2.0, 2.0);
      cpuBase := Clamp(cpuBase, 20.0, 70.0);
      var s := if spikeRoll < 0.1 then RandomInRange(spike, 10.0, 25.0) else 0.0;
      cpu := Clamp(cpuBase + s + RandomInRange(noise, -3.0, 3.0), 5.0, 95.0);
    }

    /** `generateMemory`: slow upward drift, an occasional collection drop. */
    method GenerateMemory(drift: real, collectionRoll: real, drop: real, noise: real) returns (memory: real)
      requires Valid() && Unit(drift) && Unit(collectionRoll) && Unit(drop) && Unit(noise)
      modifies this`memoryBase
      ensures Valid()
      ensures memoryBase == NextMemoryBase(old(memoryBase), drift, collectionRoll, drop)
      ensures memory == MemoryReading(memoryBase, noise)
      ensures 20.0 <= memory <= 90.0
    {
      memoryBase := memoryBase + RandomInRange(drift, -0.5, 1.0);
      if collectionRoll < 0.05 {
        memoryBase := memoryBase - RandomInRange(drop, 5.0, 15.0);
      }
      memoryBase := Clamp(memoryBase, 30.0, 85.0);
      memory := Clamp(memoryBase + RandomInRange(noise, -2.0, 2.0), 20.0, 90.0);
    }

    /** `generateRequests`: a wide drift and rounded noise, never negative. */
    method GenerateRequests(drift: real, noise: real) returns (requests: int)
      requires Valid() && Unit(drift) && Unit(noise)
      modifies this`requestsBase
      ensures Valid()
      ensures requestsBase == NextRequestsBase(old(requestsBase), drift)
      ensures requests == RequestsReading(requestsBase, noise)
      ensures 30 <= requests <= 320
    {
      requestsBase := requestsBase + RandomInRange(drift, -10.0, 10.0);
      requestsBase := Clamp(requestsBase, 50.0, 300.0);
      requests := Round(requestsBase + RandomInRange(noise, -20.0, 20.0));
    }

    /** `generateConnections`: drift and rounded noise, never negative. */
    method GenerateConnections(drift: real, noise: real) returns (connections: int)
      requires Valid() && Unit(drift) && Unit(noise)
      modifies this`connectionsBase
      ensures Valid()
      ensures connectionsBase == NextConnectionsBase(old(connectionsBase), drift)
      ensures connections == ConnectionsReading(connectionsBase, noise)
      ensures 5 <= connections <= 105
    {
      connectionsBase := connectionsBase + RandomInRange(drift, -2.0, 2.0);
      connectionsBase := Clamp(connectionsBase, 10.0, 100.0);
      connections := Round(connectionsBase + RandomInRange(noise, -5.0, 5.0));
    }

    /** `generateMetrics` at wall-clock time `now`. The requests are drawn
        first, then the fields in the order of the object literal. */
    method GenerateMetrics(now: int, d: Draws) returns (m: Metrics)
      requires Valid() && ValidDraws(d)
      modifies this`cpuBase, this`memoryBase, this`requestsBase, this`connectionsBase
      ensures Bases() == NextBaselines(old(Bases()), d)
      ensures m == Snapshot(Bases(), now, d)
      ensures Valid() && WellFormed(m)
    {
      var requests := GenerateRequests(d.requestsDrift, d.requestsNoise);
      var cpu := GenerateCPU(d.cpuDrift, d.spikeRoll, d.spike, d.cpuNoise);
      var memory := GenerateMemory(d.memoryDrift, d.collectionRoll, d.collectionDrop, d.memoryNoise);
      var connections := GenerateConnections(d.connectionsDrift, d.connectionsNoise);
      var responseTime := Round(RandomInRange(d.responseTime, 20.0, 150.0));
      m := Metrics(now, RoundTenth(cpu), RoundTenth(memory), requests, connections, responseTime,
                   GenerateEndpointStats(d.endpointNoise),
                   GenerateStatusCodes(requests, d.errorRoll, d.errorDraw, d.serverRoll, d.serverDraw));
    }

    /** The `emit` cycle: generate, then cache, then publish. The awaits are
        sequential, so a rejected cache write ends the cycle unpublished.
        `Date.now()` is read twice, for the timestamp (`stamp`) and for the
        SETEX key (`keyTime`). */
    method Emit(store: Store, stamp: int, keyTime: nat, d: Draws, completed: nat) returns (m: Metrics)
      requires Valid() && ValidDraws(d)
      modifies this`cpuBase, this`memoryBase, this`requestsBase, this`connectionsBase
      modifies store`history, store`keyed, store`published
      ensures Bases() == NextBaselines(old(Bases()), d)
      ensures m == Snapshot(Bases(), stamp, d)
      ensures Emitted(store, keyTime, completed, m)
      ensures Valid() && WellFormed(m)
    {
      m := GenerateMetrics(stamp, d);
      var cached := store.CacheMetrics(m, keyTime, completed);
      if cached {
        store.PublishMetrics(m);
      }
    }

    /** `startGenerator`: a no-op while the timer is set; otherwise one
        immediate cycle, whose snapshot is returned, then the timer is set. */
    method StartGenerator(store: Store, stamp: int, keyTime: nat, d: Draws, completed: nat)
      returns (m: Option<Metrics>)
      requires Valid() && ValidDraws(d)
      modifies this, store`history, store`keyed, store`published
      ensures Valid() && running
      ensures old(running) ==> m == None && unchanged(this) && unchanged(store)
      ensures !old(running) ==> (m.Some? &&
        Bases() == NextBaselines(old(Bases()), d) &&
        m.value == Snapshot(Bases(), stamp, d) &&
        Emitted(store, keyTime, completed, m.value))
    {
      if running {
        return None;
      }
      var cycle := Emit(store, stamp, keyTime, d, completed);
      running := true;
      m := Some(cycle);
    }

    /** One firing of the 1000 ms interval: a cycle, whose snapshot is
        returned, while the timer is set; nothing once it has been cleared. */
    method Tick(store: Store, stamp: int, keyTime: nat, d: Draws, completed: nat)
      returns (m: Option<Metrics>)
      requires Valid() && ValidDraws(d)
      modifies this`cpuBase, this`memoryBase, this`requestsBase, this`connectionsBase
      modifies store`history, store`keyed, store`published
      ensures Valid() && running == old(running)
      ensures !running ==> m == None && unchanged(this) && unchanged(store)
      ensures running ==> (m.Some? &&
        Bases() == NextBaselines(old(Bases()), d) &&
        m.value == Snapshot(Bases(), stamp, d) &&
        Emitted(store, keyTime, completed, m.value))
    {
      if !running {
        return None;
      }
      var cycle := Emit(store, stamp, keyTime, d, completed);
      m := Some(cycle);
    }

    /** `stopGenerator`: clears the timer; a no-op when none is set. */
    method StopGenerator()
      modifies this`running
      ensures !running
    {
      if running {
        running := false;
      }
    }
  }

  /** Starting twice, then one tick: two cycles, not four, and the list
      holds both snapshots. */
  method DoubleStartOneTick(d: Draws, start: nat, later: nat) returns (cycles: nat, listed: nat)
    requires ValidDraws(d)
    ensures cycles == 2 && listed == 2
  {
    var g := new Generator();
    var store := new Store();
    var first := g.StartGenerator(store, start, start, d, 3);
    var second := g.StartGenerator(store, start, start, d, 3);
    var tick := g.Tick(store, later, later, d, 3);
    cycles, listed := |store.published|, |store.history|;
  }

  /** A first cycle whose cache write succeeds stores the snapshot under
      its per-tick key, stamped and at the head of the list, and publishes it. */
  method FirstCycle(d: Draws, stamp: int, keyTime: nat) returns (m: Metrics, store: Store)
    requires ValidDraws(d)
    ensures m.timestamp == stamp && WellFormed(m)
    ensures store.keyed == map[Key(keyTime) := Entry(m, KeyTtl)]
    ensures store.history == [m]
    ensures store.published == [Message(MetricsChannel, m)]
  {
    var g := new Generator();
    store := new Store();
    var cycle := g.StartGenerator(store, stamp, keyTime, d, 3);
    m := cycle.value;
  }

  /** Start, three timer firings, stop, three more firings: four cycles in
      all, and stopping twice changes nothing. */
  method StartTicksStop(d: Draws) returns (cycles: nat)
    requires ValidDraws(d)
    ensures cycles == 4
  {
    var g := new Generator();
    var store := new Store();
    var m := g.StartGenerator(store, 0, 0, d, 3);
    var i := 0;
    while i < 3
      invariant 0 <= i <= 3 && g.running && g.Valid()
      invariant |store.published| == 1 + i
    {
      i := i + 1;
      m := g.Tick(store, 1000 * i, 1000 * i, d, 3);
    }
    g.StopGenerator();
    g.StopGenerator();
    while i < 6
      invariant 3 <= i <= 6 && !g.running && g.Valid()
      invariant |store.published| == 4
    {
      i := i + 1;
      m := g.Tick(store, 1000 * i, 1000 * i, d, 3);
    }
    cycles := |store.published|;
  }
}
