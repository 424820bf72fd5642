# Realtime dashboard telemetry: a verified model

This project models the sequential core of a simulated-telemetry dashboard.
The producer (`apps/api`) generates one metrics snapshot per second. It stores
the snapshot in a capped Redis list and publishes it on a Redis channel. Each
browser (`apps/dashboard`) seeds a sliding window from the stored history and
then appends every published snapshot.

Each part of the model follows one source file:

- `telemetry.dfy` (module `Telemetry`): the `Metrics` snapshot and its parts,
  `Option`, and `LastN`, the "keep the newest n" helper.
- `generator.dfy` (module `Generator`, for `apps/api/src/generator.ts`): the
  four random-walk baselines and the interval handle become the fields of a
  `Generator` object. `generateCPU`, `generateMemory`, `generateRequests` and
  `generateConnections` become methods that update those fields. `clamp`,
  `generateEndpointStats` and `generateStatusCodes` become functions.
  `startGenerator`, `stopGenerator` and one firing of the interval become the
  methods `StartGenerator`, `StopGenerator` and `Tick`. `StartGenerator`
  (when no timer is set) and `Tick` (while one is) run one `emit` cycle
  (`Emit`) against a `Store`; `StopGenerator` only clears the timer. The
  functions `NextBaselines` and `Snapshot` state, draw by draw, what one
  `generateMetrics` call does to the baselines and what it returns.
- `redis.dfy` (module `RedisStore`, for `apps/api/src/redis.ts`): the Redis
  server is a `Store` object. It holds the `metrics:history` list (head
  first), the keys written by SETEX, and the messages published.
  `cacheMetrics` and `publishMetrics` are methods. `getMetricsHistory` and
  `getCurrentMetrics` are read-only methods specified by the functions
  `MetricsHistory` and `CurrentMetrics`.
- `use_socket.dfy` (module `SocketHook`, for
  `apps/dashboard/src/hooks/useSocket.ts`): the hook's `connected`, `metrics`
  and `history` cells are the fields of a `UseSocket` object. Its four socket
  listeners are methods. The `addToHistory` updater is the function
  `AddToHistory`.
- `trends.dfy` (module `Trends`, for the `trends` memo in
  `apps/dashboard/src/App.tsx` and its labels): pure functions over the
  history, with `real` averages.

How the environment is modelled:

- Every `Math.random()` result is a parameter `u` with `0 <= u < 1`.
  `randomInRange(min, max)` is the function `RandomInRange`, computed as
  `u * (max - min) + min`, as in the source. A `Draws` record holds
  every draw one `generateMetrics` call may consume.
- `Date.now()` is a parameter. One cycle reads it twice, once for the
  snapshot's timestamp (generator.ts:106) and once for the SETEX key
  (redis.ts:26), so `Emit`, `StartGenerator` and `Tick` take two clock
  values, `stamp` and `keyTime`, which may differ.
- Whether Redis accepts a command is a parameter `completed`. It counts how
  many of the three commands of `cacheMetrics` (SETEX, LPUSH, LTRIM) succeed
  before one is rejected.
- `Math.round(x)` is `Floor(x + 0.5)`. `Number(x.toFixed(1))` rounds to the
  nearest tenth. Both work on reals.
- JSON encoding between Redis, the socket and the browser is treated as an
  identity round trip, so snapshots are passed as values.

Behaviour of the code worth noting:

- A sync (`metrics:history`) payload replaces the window exactly as sent. It
  is not cut to 60 entries (`useSocket.ts:54`).
- An empty sync leaves the current snapshot as it was; it does not clear it
  (`useSocket.ts:55`). `EmptySyncKeepsCurrent` shows this. The test named
  "sets metrics to null when metrics:history receives empty array" passes
  only because `metrics` starts out null.
- `emit` awaits `cacheMetrics` and then `publishMetrics`. A rejected cache
  write therefore ends the cycle before anything is published.
- The window stays within 60 entries end to end only because the server
  reads with LRANGE 0 59 (`SyncedWindowStaysBounded`). This also holds after
  a failed LTRIM has left 61 entries in the list.

## Model

| member | source | states |
|---|---|---|
| `Telemetry.LastN` | apps/dashboard/src/hooks/useSocket.ts:33 | `slice(-n)` for n > 0: exactly min(len, n) entries, the newest ones, in their original order |
| `Generator.Clamp` | apps/api/src/generator.ts:31-33 | the result lies in [lo, hi] whenever lo <= hi; a value already in range comes back unchanged, a value above the band becomes hi and a value below it becomes lo |
| `Generator.Scale` | apps/api/src/generator.ts:28 | `Math.random() * width` lies in [0, width) for a positive width |
| `Generator.RandomInRange` | apps/api/src/generator.ts:27-29 | `randomInRange(min, max)` lies in [min, max) for every draw |
| `Generator.Round` | apps/api/src/generator.ts:62 | `Math.round` returns the integer within half a unit of x, with halves rounded up |
| `Generator.RoundTenth` | apps/api/src/generator.ts:107-108 | `Number(x.toFixed(1))` has one decimal place and lies within 0.05 of x |
| `Generator.RoundTenthWithin` | apps/api/src/generator.ts:107-108 | rounding to a tenth keeps a value inside a band with whole-number ends, such as [5,95] and [20,90] |
| `Generator.RoundWithin` | apps/api/src/generator.ts:62 | `Math.round` keeps a value inside a band with whole-number ends |
| `Generator.EndpointRequests` | apps/api/src/generator.ts:82 | one route's count lies in [base-10, base+15] |
| `Generator.GenerateEndpointStats` | apps/api/src/generator.ts:71-84 | exactly 5 endpoints named /api/users, /api/products, /api/orders, /api/auth and /api/search in that order, each count in [base-10, base+15] |
| `Generator.ErrorRate` | apps/api/src/generator.ts:88 | the client error rate lies in [0.01, 0.15), and below 0.05 unless the roll picks a bad tick |
| `Generator.ServerErrorRate` | apps/api/src/generator.ts:89 | the server error rate lies in [0, 0.05), and below 0.01 unless the roll picks the rare case |
| `Generator.SplitStatusCodes` | apps/api/src/generator.ts:91-99 | success is never negative; for a non-negative total all three parts are non-negative and sum to the total |
| `Generator.RoundedSharesFit` | apps/api/src/generator.ts:91-93 | two rounded shares of at most 15% and 5% of a whole total fit in that total, down to totals of 0 and 1 |
| `Generator.ErrorsWithinTotal` | apps/api/src/generator.ts:91-96 | with the drawn rates, the two rounded error counts are non-negative and never exceed the total, so `Math.max(0, ...)` never changes success |
| `Generator.GenerateStatusCodes` | apps/api/src/generator.ts:86-100 | for any draws, success + clientError + serverError == total and all three are non-negative when the total is |
| `Generator.NextCpuBase` | apps/api/src/generator.ts:37-38 | `cpuBase` stays in [20, 70] and, from inside that band, moves per tick by at most 2 down and less than 2 up |
| `Generator.CpuReading` | apps/api/src/generator.ts:40-42 | the cpu reading lies in [5, 95] even with a spike, and without a spike is within 3 of the baseline |
| `Generator.NextMemoryBase` | apps/api/src/generator.ts:47-54 | `memoryBase` stays in [30, 85]; without a collection it moves by -0.5 to under +1, and with one it drops by more than 4 or hits the floor 30 |
| `Generator.MemoryReading` | apps/api/src/generator.ts:55 | the memory reading lies in [20, 90] and within 2 of the baseline away from the clamps |
| `Generator.NextRequestsBase` | apps/api/src/generator.ts:60-61 | `requestsBase` stays in [50, 300] and moves per tick by at most 10 down and less than 10 up |
| `Generator.RequestsReading` | apps/api/src/generator.ts:62 | the request rate is within 20.5 of the baseline, and in [30, 320] (never negative) for an in-band baseline |
| `Generator.NextConnectionsBase` | apps/api/src/generator.ts:66-67 | `connectionsBase` stays in [10, 100] and moves per tick by at most 2 down and less than 2 up |
| `Generator.ConnectionsReading` | apps/api/src/generator.ts:68 | the connection count is within 5.5 of the baseline, and in [5, 105] for an in-band baseline |
| `Generator.ResponseTime` | apps/api/src/generator.ts:111 | the response time is a whole number in [20, 150] |
| `Generator.NextBaselines` | apps/api/src/generator.ts:103-110 | after one `generateMetrics` call all four baselines are in their bands |
| `Generator.Snapshot` | apps/api/src/generator.ts:102-115 | the snapshot read off in-band baselines is stamped `now` and well-formed: cpu in [5,95] and memory in [20,90] with one decimal, response time in [20,150], non-negative counts, the 5 named endpoints, and a status split summing to the request rate |
| `Generator.Generator.constructor` | apps/api/src/generator.ts:22-25 | the baselines start at 45, 50, 150 and 25, inside their bands, and no interval is set |
| `Generator.Generator.GenerateCPU` | apps/api/src/generator.ts:35-43 | `cpuBase` becomes `NextCpuBase` of its old value, the other baselines are untouched, and the result is `CpuReading` of the new baseline, in [5,95] |
| `Generator.Generator.GenerateMemory` | apps/api/src/generator.ts:45-56 | `memoryBase` becomes `NextMemoryBase` of its old value and the result is `MemoryReading` of the new one, in [20,90] |
| `Generator.Generator.GenerateRequests` | apps/api/src/generator.ts:58-63 | `requestsBase` becomes `NextRequestsBase` of its old value and the result is `RequestsReading` of the new one, in [30,320] |
| `Generator.Generator.GenerateConnections` | apps/api/src/generator.ts:65-69 | `connectionsBase` becomes `NextConnectionsBase` of its old value and the result is `ConnectionsReading` of the new one, in [5,105] |
| `Generator.Generator.GenerateMetrics` | apps/api/src/generator.ts:102-115 | the baselines become `NextBaselines` of the old ones and the result is `Snapshot` of the new ones, so it is well-formed and every baseline stays in its band |
| `Generator.Generator.Emit` | apps/api/src/generator.ts:125-129 | one cycle advances the baselines as `GenerateMetrics` does, writes the snapshot under `Key(keyTime)` with TTL 120 once SETEX succeeds, leaves the list as far as LPUSH and LTRIM got, and publishes that same snapshot only when all three succeed |
| `Generator.Generator.StartGenerator` | apps/api/src/generator.ts:119-133 | while running: returns nothing and changes nothing; otherwise returns the snapshot of one immediate cycle with exactly `Emit`'s effect, and the interval is set |
| `Generator.Generator.Tick` | apps/api/src/generator.ts:132 | while the interval is set, one cycle with exactly `Emit`'s effect, whose snapshot is returned; once it is cleared, nothing changes |
| `Generator.Generator.StopGenerator` | apps/api/src/generator.ts:135-141 | clears the interval, and is a no-op when none is set |
| `Generator.DoubleStartOneTick` | apps/api/src/generator.test.ts:109-120 | starting twice, then one tick, gives exactly 2 published cycles and 2 listed snapshots |
| `Generator.FirstCycle` | apps/api/src/generator.ts:119-129 | a first successful cycle leaves exactly one key `metrics:<keyTime>`, a one-entry list and one published message, all holding the same stamped, well-formed snapshot |
| `Generator.StartTicksStop` | apps/api/src/generator.test.ts:85-107 | start, three ticks, stop (twice), three ticks gives exactly 4 cycles: none after the stop |
| `RedisStore.DecimalText` | apps/api/src/redis.ts:26 | the timestamp printed in the key is a non-empty string of digits whose decimal value is the timestamp |
| `RedisStore.Key` | apps/api/src/redis.ts:26 | the per-tick key is `metrics:` followed by the timestamp's digits, and is never the list key `metrics:history` |
| `RedisStore.KeysDistinct` | apps/api/src/redis.ts:26-27 | two ticks write the same key exactly when their timestamps are equal |
| `RedisStore.ListRange` | apps/api/src/redis.ts:29 | LRANGE/LTRIM start..stop keeps exactly the in-range positions start..stop, in order |
| `RedisStore.Record` | apps/api/src/redis.ts:28-29 | LPUSH then LTRIM 0 59 puts m at the head, keeps the older entries behind it in order, and holds min(len+1, 60) entries |
| `RedisStore.Reverse` | apps/api/src/redis.ts:34 | the reversed list has the same length, with position i taken from the mirrored position |
| `RedisStore.MetricsHistory` | apps/api/src/redis.ts:32-35 | `getMetricsHistory` returns min(len, 60) entries, the newest last: the stored head-first list reversed |
| `RedisStore.CurrentMetrics` | apps/api/src/redis.ts:37-40 | `getCurrentMetrics` is null exactly when the list is empty; otherwise it is the head, which is also the last entry of `getMetricsHistory` |
| `RedisStore.Newest` | apps/api/src/redis.ts:28-29 | the list a run of writes should leave: the newest min(N, 60) writes, with position i holding the i-th newest |
| `RedisStore.NewestAt` | apps/api/src/redis.ts:28-29 | position i of the newest writes, reversed, is the i-th newest write |
| `RedisStore.RecordKeepsNewest` | apps/api/src/redis.ts:28-29 | LPUSH plus LTRIM on the newest 60 writes gives the newest 60 writes after one more write |
| `RedisStore.ListKeepsNewestWrites` | apps/api/src/redis.ts:28-29 | after N writes from empty, the list holds exactly the last min(N, 60) snapshots, newest first; older ones are dropped |
| `RedisStore.HistoryIsLastWrites` | apps/api/src/redis.ts:32-35 | after N writes, `getMetricsHistory` returns the last min(N, 60) snapshots in the order they were written |
| `RedisStore.Store.constructor` | apps/api/src/redis.ts:5-7 | a fresh server: empty list, no keys, nothing published |
| `RedisStore.Store.PublishMetrics` | apps/api/src/redis.ts:21-23 | exactly one message on `metrics:update` carrying the snapshot; the list and the keys are untouched |
| `RedisStore.Store.CacheMetrics` | apps/api/src/redis.ts:25-30 | SETEX writes `metrics:<now>` with TTL 120 outside the list; on success the list is `Record(old list, m)`, with m at the head and at most 60 entries; a rejection stops the later commands |
| `RedisStore.Store.GetMetricsHistory` | apps/api/src/redis.ts:32-35 | returns at most 60 snapshots, oldest first, empty exactly when the list is, and changes nothing |
| `RedisStore.Store.GetCurrentMetrics` | apps/api/src/redis.ts:37-40 | returns the head or null, and changes nothing |
| `SocketHook.AddToHistory` | apps/dashboard/src/hooks/useSocket.ts:29-37 | the window becomes the newest 60 of old ++ [m], so m is last and the length is min(old+1, 60); below 60 nothing is dropped, and at 60 exactly the oldest entry is dropped |
| `SocketHook.AppendCapped` | apps/dashboard/src/hooks/useSocket.ts:31-34 | append-then-`slice(-n)` keeps the newest n and drops only the oldest at capacity |
| `SocketHook.LastNAppend` | apps/dashboard/src/hooks/useSocket.ts:31-34 | capping before an append and again after it is the same as capping once after it |
| `SocketHook.UpdatesKeepNewest` | apps/dashboard/src/hooks/useSocket.ts:48-51 | after a window of at most 60 entries and M updates, the window is the newest 60 of window ++ updates (FIFO eviction), so its length is min(60, K+M) |
| `SocketHook.AttachedClientsAgree` | apps/dashboard/src/hooks/useSocket.ts:48-58 | a client synced from the server's history after writes ms, then updated with us, holds exactly what `getMetricsHistory` returns after ms ++ us, at most 60 entries, provided every write in ms precedes the sync and every write in us is delivered after it |
| `SocketHook.SyncedWindowStaysBounded` | apps/dashboard/src/hooks/useSocket.ts:53-58 | for any stored list, a window seeded from `getMetricsHistory` and then updated never exceeds 60 entries |
| `SocketHook.LastNOfSuffix` | apps/dashboard/src/hooks/useSocket.ts:31-34 | the newest 60 of (newest 60 of ms) ++ us are the newest 60 of ms ++ us |
| `SocketHook.UseSocket.constructor` | apps/dashboard/src/hooks/useSocket.ts:25-27 | initial state: the socket's own connected flag, metrics null, history empty |
| `SocketHook.UseSocket.OnConnect` | apps/dashboard/src/hooks/useSocket.ts:40-42 | connected becomes true; metrics and history are unchanged |
| `SocketHook.UseSocket.OnDisconnect` | apps/dashboard/src/hooks/useSocket.ts:44-46 | connected becomes false; metrics and history are unchanged |
| `SocketHook.UseSocket.OnMetricsUpdate` | apps/dashboard/src/hooks/useSocket.ts:48-51 | metrics becomes the update and history becomes `AddToHistory(old history, update)` |
| `SocketHook.UseSocket.OnMetricsHistory` | apps/dashboard/src/hooks/useSocket.ts:53-58 | history becomes the payload exactly, with no cap; metrics becomes its last entry when it is non-empty and is otherwise unchanged |
| `SocketHook.SeventyUpdates` | apps/dashboard/src/hooks/useSocket.test.ts:103-116 | 70 updates with timestamps 0..69 leave 60 entries, timestamps 10 through 69 |
| `SocketHook.SyncThenUpdate` | apps/dashboard/src/hooks/useSocket.ts:48-58 | a sync of [40, 50] makes 50 current (the sync half is the test at useSocket.test.ts:81-92); a following update 60 gives the window [40, 50, 60] with 60 current |
| `SocketHook.EmptySyncKeepsCurrent` | apps/dashboard/src/hooks/useSocket.test.ts:94-101 | an empty sync empties the window but leaves an earlier snapshot current |
| `Trends.SliceIndex` | apps/dashboard/src/App.tsx:190-191 | a slice bound resolves from the end when negative and is clipped to [0, len] |
| `Trends.Slice` | apps/dashboard/src/App.tsx:190-191 | `slice(begin, end)` yields exactly the elements from the resolved begin up to the resolved end, in order, and nothing when end <= begin |
| `Trends.Recent` | apps/dashboard/src/App.tsx:190 | `slice(-5)` is the newest min(5, len) entries |
| `Trends.Older` | apps/dashboard/src/App.tsx:191 | `slice(-10, -5)` is empty when len <= 5, and is otherwise the entries from max(0, len-10) up to len-5 |
| `Trends.MinValue` | apps/dashboard/src/App.tsx:195-198 | a lower bound of every value of the series in the window (attained, by `ExtremesAttained`) |
| `Trends.MaxValue` | apps/dashboard/src/App.tsx:195-198 | an upper bound of every value of the series in the window (attained, by `ExtremesAttained`) |
| `Trends.Times` | apps/dashboard/src/App.tsx:195-198 | helper for the `Sum` bounds (no multiplication in the source): n copies of x added up equal n * x |
| `Trends.TimesMono` | apps/dashboard/src/App.tsx:195-198 | helper for the `Sum` bounds: repeated addition is monotone in the repeated value |
| `Trends.Sum` | apps/dashboard/src/App.tsx:195-198 | the left-to-right `reduce` sum of n values lies between n times the smallest and n times the largest |
| `Trends.ExtremesAttained` | apps/dashboard/src/App.tsx:195-198 | the smallest and largest values are values the window actually holds |
| `Trends.DivBounds` | apps/dashboard/src/App.tsx:195-198 | helper for the `Average` bounds: a sum of n terms in [n * lo, n * hi], divided by its length n, lies in [lo, hi] |
| `Trends.Average` | apps/dashboard/src/App.tsx:195-198 | `sum / length` over a non-empty window lies between the window's smallest and largest value |
| `Trends.Classify` | apps/dashboard/src/App.tsx:201-202 | 'up' iff recent > older + 2, 'down' iff recent < older - 2, 'neutral' iff within ±2: the three cases are exclusive and exhaustive |
| `Trends.ComputeTrends` | apps/dashboard/src/App.tsx:187-204 | with 5 or fewer entries (including fewer than 2) both trends are 'neutral' |
| `Trends.TrendRule` | apps/dashboard/src/App.tsx:195-202 | with more than 5 entries, each series is 'up' / 'down' / 'neutral' exactly when the average of the newest 5 is above / below / within 2 of the average of the up to 5 before them |
| `Trends.DependsOnLastTen` | apps/dashboard/src/App.tsx:190-191 | the trends depend only on the newest 10 entries |
| `Trends.SumDependsOnSeries` | apps/dashboard/src/App.tsx:195-198 | the `reduce` sum of a series reads only that series |
| `Trends.SeriesIndependent` | apps/dashboard/src/App.tsx:195-202 | the cpu trend depends only on cpu values and the memory trend only on memory values |
| `Trends.Label` | apps/dashboard/src/App.tsx:236 | up, down and neutral map one-to-one onto 'Increasing', 'Decreasing' and 'Stable' |

## Left out

- Randomness is not modelled as probability: each `Math.random()` result is a parameter, so the 10% spike, the 5% collection drop and the bad-tick rates appear only as branch conditions on those parameters.
- IEEE-754 doubles are not modelled. `Math.round`, `toFixed(1)`, the `reduce` sums and the averages are computed on exact reals. Only bounds that exact arithmetic also gives are proved.
- The JSON encoding (`JSON.stringify` / `JSON.parse`) is treated as an identity round trip.
- Timers and async are not modelled. `setInterval`, `clearInterval` and the un-awaited `emit` become the discrete events `StartGenerator`, `Tick` and `StopGenerator`. The first two run a whole cycle each; `StopGenerator` runs none. Cycles that might overlap when Redis is slow are concurrency and are left out.
- Generator.Generator.Emit: `emit` is called without `await` or `catch` (generator.ts:131-132). A rejected SETEX, LPUSH, LTRIM or PUBLISH is therefore an unhandled promise rejection, which by Node's default ends the process. The model does not capture that: a rejected cache write only ends that cycle, and later `Tick`s keep running cycles.
- SocketHook.AttachedClientsAgree: the lemma assumes every write in `ms` is in the list before the sync is read and every write in `us` reaches the client as an update after the sync. Neither apps/api/src/socket.ts nor generator.ts enforces that order: `emit` publishes only after LTRIM returns (generator.ts:127-128), so a client whose LRANGE falls between a cycle's LTRIM and its PUBLISH receives that snapshot at the end of its sync and again as an update, and its window then ends with the snapshot twice. The model does not cover that interleaving.
- Generator.Generator.Tick: the 1000 ms period is not modelled; each call stands for one firing of the interval.
- The 120-second TTL is recorded on each per-tick key but never expires: expiry is clock-driven, and the code never reads those keys back.
- Redis failures on reads are not modelled. A rejected `getMetricsHistory` or `getCurrentMetrics` is not represented. A rejected `publishMetrics` is modelled as never happening.
- The ioredis client setup and the connection and error logging (apps/api/src/redis.ts:1-15) are left out. So are the `console.log` calls in generator.ts.
- apps/api/src/socket.ts is not part of this model. The socket server, CORS and the Redis subscription and broadcast are transport. They enter the model only as the inputs of `UseSocket`: a sync payload equal to `MetricsHistory(list)`, and updates equal to published snapshots.
- The listener registration and removal in useSocket.ts (lines 60-70) is framework plumbing and is left out.
- Everything else in App.tsx is rendering and is left out, as are the chart and card components.
