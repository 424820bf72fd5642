/** The dashboard's reconciliation state, apps/dashboard/src/hooks/useSocket.ts.
    The hook's three state cells are the fields of a `UseSocket` object and
    its four socket listeners are methods; the socket itself is the caller. */
module SocketHook {
  import opened Telemetry
  import opened RedisStore

  const MaxHistory := 60

  /** The `addToHistory` updater: append, then keep the newest 60. */
  function AddToHistory(prev: seq<Metrics>, m: Metrics): (r: seq<Metrics>)
    ensures |r| == Min(|prev| + 1, MaxHistory)
    ensures r[|r| - 1] == m
    ensures r == LastN(prev + [m], MaxHistory)
    ensures |prev| < MaxHistory ==> r == prev + [m]
    ensures |prev| == MaxHistory ==> r == prev[1..] + [m]
  {
    AppendCapped(prev, m, MaxHistory);
    var updated := prev + [m];
    if |updated| > MaxHistory then updated[|updated| - MaxHistory..] else updated
  }

  /** Append-then-slice(-n): below capacity nothing is dropped, at capacity
      exactly the oldest entry is. */
  lemma AppendCapped<T>(prev: seq<T>, m: T, n: nat)
    requires n > 0
    ensures var u := prev + [m];
      var r := if |u| > n then u[|u| - n..] else u;
      |r| == Min(|prev| + 1, n) && r[|r| - 1] == m && r == LastN(u, n) &&
      (|prev| < n ==> r == u) &&
      (|prev| == n ==> r == prev[1..] + [m])
  {
    var u := prev + [m];
    if |prev| == n {
      assert u[|u| - n..] == prev[1..] + [m];
    }
  }

  /** The window after the updates `us`, applied oldest first. */
  function ApplyUpdates(window: seq<Metrics>, us: seq<Metrics>): seq<Metrics>
    decreases |us|
  {
    if us == [] then window else AddToHistory(ApplyUpdates(window, us[..|us| - 1]), us[|us| - 1])
  }

  /** Keeping the newest n twice keeps the newest n of the whole. */
  lemma LastNAppend<T>(s: seq<T>, x: T, n: nat)
    requires n > 0
    ensures LastN(LastN(s, n) + [x], n) == LastN(s + [x], n)
  {
    var a, b := LastN(LastN(s, n) + [x], n), LastN(s + [x], n);
    assert |a| == |b|;
    forall i | 0 <= i < |a| ensures a[i] == b[i] {
      if i < |a| - 1 {
        var l := LastN(s, n);
        assert a[i] == l[|l| - |a| + 1 + i];
      }
    }
  }

  /** Updates after a window: the newest 60 of the window followed by the
      updates. With no update the window is left exactly as it was, which
      is the newest 60 only when it was no longer than that. */
  lemma {:induction false} UpdatesKeepNewest(window: seq<Metrics>, us: seq<Metrics>)
    requires |window| <= MaxHistory || us != []
    ensures ApplyUpdates(window, us) == LastN(window + us, MaxHistory)
  {
    if us != [] {
      var p, x := us[..|us| - 1], us[|us| - 1];
      assert window + us == (window + p) + [x];
      if p == [] {
        assert window + p == window;
        LastNAppend(window, x, MaxHistory);
        assert AddToHistory(window, x) == LastN(window + [x], MaxHistory);
      } else {
        UpdatesKeepNewest(window, p);
        LastNAppend(window + p, x, MaxHistory);
      }
    }
  }

  /** A client that attaches after the server has stored the snapshots `ms`
      and then receives the snapshots `us` as updates holds the same window
      as a client attaching after all of them. */
  lemma AttachedClientsAgree(ms: seq<Metrics>, us: seq<Metrics>)
    ensures ApplyUpdates(MetricsHistory(ListAfterWrites(ms)), us) == MetricsHistory(ListAfterWrites(ms + us))
    ensures |ApplyUpdates(MetricsHistory(ListAfterWrites(ms)), us)| <= MaxHistory
  {
    HistoryIsLastWrites(ms);
    HistoryIsLastWrites(ms + us);
    var synced := LastN(ms, MaxHistory);
    UpdatesKeepNewest(synced, us);
    LastNOfSuffix(ms, us);
  }

  /** Whatever the server's list holds (even 61 entries after a failed
      LTRIM), a client synced from `getMetricsHistory` and then updated keeps
      at most 60 entries: the bound comes from the server's LRANGE 0 59, since
      the sync handler itself does not cap. */
  lemma SyncedWindowStaysBounded(list: seq<Metrics>, us: seq<Metrics>)
    ensures |ApplyUpdates(MetricsHistory(list), us)| <= MaxHistory
    ensures ApplyUpdates(MetricsHistory(list), us) == LastN(MetricsHistory(list) + us, MaxHistory)
  {
    UpdatesKeepNewest(MetricsHistory(list), us);
  }

  /** The newest 60 of (the newest 60 of ms) ++ us are the newest 60 of ms ++ us. */
  lemma {:induction false} LastNOfSuffix<T>(ms: seq<T>, us: seq<T>)
    ensures LastN(LastN(ms, MaxHistory) + us, MaxHistory) == LastN(ms + us, MaxHistory)
  {
    var l := LastN(ms, MaxHistory);
    if us == [] {
      assert l + us == l && ms + us == ms;
    } else {
      var p, x := us[..|us| - 1], us[|us| - 1];
      assert us == p + [x];
      assert l + us == (l + p) + [x];
      assert ms + us == (ms + p) + [x];
      LastNOfSuffix(ms, p);
      LastNAppend(l + p, x, MaxHistory);
      LastNAppend(ms + p, x, MaxHistory);
    }
  }

  /** The state of one `useSocket` hook. */
  class UseSocket {
    var connected: bool
    var metrics: Option<Metrics>
    var history: seq<Metrics>

    /** The initial state: the socket's own flag, no metrics, empty history. */
    constructor (socketConnected: bool)
      ensures connected == socketConnected && metrics == None && history == []
    {
      connected := socketConnected;
      metrics := None;
      history := [];
    }

    /** `onConnect` */
    method OnConnect()
      modifies this`connected
      ensures connected
    {
      connected := true;
    }

    /** `onDisconnect` */
    method OnDisconnect()
      modifies this`connected
      ensures !connected
    {
      connected := false;
    }

    /** `onMetricsUpdate`: the snapshot becomes current and joins the window. */
    method OnMetricsUpdate(data: Metrics)
      modifies this`metrics, this`history
      ensures metrics == Some(data)
      ensures history == AddToHistory(old(history), data)
    {
      metrics := Some(data);
      history := AddToHistory(history, data);
    }

    /** `onMetricsHistory`: the payload replaces the window as it is, with no
        cap; only a non-empty payload changes the current snapshot. */
    method OnMetricsHistory(data: seq<Metrics>)
      modifies this`metrics, this`history
      ensures history == data
      ensures metrics == if |data| > 0 then Some(data[|data| - 1]) else old(metrics)
    {
      history := data;
      if |data| > 0 {
        metrics := Some(data[|data| - 1]);
      }
    }
  }

  /** The snapshot with timestamp and cpu `i`, as the hook's tests build them. */
  function Tagged(i: int): Metrics {
    Metrics(i, i as real, 0.0, 0, 0, 0, [], StatusCodes(0, 0, 0))
  }

  /** 70 updates with timestamps 0..69 into a fresh hook leave 60 entries,
      timestamps 10 through 69. */
  method SeventyUpdates() returns (length: nat, first: int, last: int)
    ensures length == 60 && first == 10 && last == 69
  {
    var hook := new UseSocket(false);
    var i := 0;
    while i < 70
      invariant 0 <= i <= 70
      invariant |hook.history| == Min(i, MaxHistory)
      invariant forall k :: 0 <= k < |hook.history| ==>
        hook.history[k].timestamp == i - |hook.history| + k
    {
      hook.OnMetricsUpdate(Tagged(i));
      i := i + 1;
    }
    length, first, last := |hook.history|, hook.history[0].timestamp, hook.history[59].timestamp;
  }

  /** A sync of two snapshots, then one update: the window holds all three
      in order and the update is current. */
  method SyncThenUpdate() returns (window: seq<Metrics>, current: Option<Metrics>)
    ensures window == [Tagged(40), Tagged(50), Tagged(60)]
    ensures current == Some(Tagged(60))
  {
    var hook := new UseSocket(true);
    hook.OnMetricsHistory([Tagged(40), Tagged(50)]);
    assert hook.metrics == Some(Tagged(50));
    hook.OnMetricsUpdate(Tagged(60));
    window, current := hook.history, hook.metrics;
  }

  /** An empty sync after an update empties the window but leaves the
      earlier snapshot current: the current value is not cleared. */
  method EmptySyncKeepsCurrent(m: Metrics) returns (window: seq<Metrics>, current: Option<Metrics>)
    ensures window == [] && current == Some(m)
  {
    var hook := new UseSocket(true);
    hook.OnMetricsUpdate(m);
    hook.OnMetricsHistory([]);
    window, current := hook.history, hook.metrics;
  }
}
