/** The Redis-backed history store and publish channel of apps/api/src/redis.ts.
    The Redis server is modelled as the state of a `Store` object: the list at
    key `metrics:history` (head first, as LPUSH leaves it), the keys written by
    SETEX, and the messages sent on the publisher connection. */
module RedisStore {
  import opened Telemetry

  const HistoryKey := "metrics:history"
  const MetricsChannel := "metrics:update"
  /** LTRIM and LRANGE both use the index range 0..59. */
  const HistoryCap := 60
  /** SETEX expiry of each per-tick key, in seconds. */
  const KeyTtl := 120

  /** One PUBLISH on the publisher connection. */
  datatype Message = Message(channel: string, payload: Metrics)

  /** A key written by SETEX: the value and its time-to-live in seconds. */
  datatype Entry = Entry(value: Metrics, ttl: nat)

  predicate IsDigit(c: char) {
    '0' <= c <= '9'
  }

  /** The number a string of decimal digits denotes, most significant first. */
  function DigitsValue(s: string): nat
    requires forall i :: 0 <= i < |s| ==> IsDigit(s[i])
  {
    if s == [] then 0
    else
      var c := s[|s| - 1];
      assert IsDigit(c);
      DigitsValue(s[..|s| - 1]) * 10 + (c as int - '0' as int)
  }

  /** Decimal text of a natural number, as a template literal prints it. */
  function DecimalText(n: nat): (s: string)
    ensures |s| >= 1
    ensures forall i :: 0 <= i < |s| ==> IsDigit(s[i])
    ensures DigitsValue(s) == n
  {
    var d := ['0' + (n % 10) as char];
    if n < 10 then d
    else
      var t := DecimalText(n / 10) + d;
      assert t[..|t| - 1] == DecimalText(n / 10);
      t
  }

  /** The key `metrics:<now>` of the per-tick SETEX: `metrics:` and then the
      digits of `now`, so it never names the history list itself. */
  function Key(now: nat): (k: string)
    ensures |k| > |"metrics:"| && k[..|"metrics:"|] == "metrics:"
    ensures k[|"metrics:"|..] == DecimalText(now)
    ensures k != HistoryKey
  {
    var k := "metrics:" + DecimalText(now);
    assert k[|"metrics:"|..] == DecimalText(now);
    assert IsDigit(k[|"metrics:"|]) && !IsDigit(HistoryKey[|"metrics:"|]);
    k
  }

  /** Distinct timestamps write distinct keys, and equal ones the same key. */
  lemma KeysDistinct(a: nat, b: nat)
    ensures Key(a) == Key(b) <==> a == b
  {
    if Key(a) == Key(b) {
      assert DigitsValue(DecimalText(a)) == DigitsValue(DecimalText(b));
    }
  }

  /** LRANGE / LTRIM over the inclusive index range start..stop, for the
      non-negative indices this code uses: out-of-range ends are clipped and
      an empty range selects nothing. */
  function ListRange<T>(list: seq<T>, start: nat, stop: nat): (r: seq<T>)
    ensures |r| == if start > stop || start >= |list| then 0 else Min(stop + 1, |list|) - start
    ensures forall i :: 0 <= i < |r| ==> r[i] == list[start + i]
  {
    if start > stop || start >= |list| then [] else list[start..Min(stop + 1, |list|)]
  }

  /** The list after one complete `cacheMetrics`: LPUSH m, then LTRIM 0 59. */
  function Record<T>(list: seq<T>, m: T): (r: seq<T>)
    ensures |r| == Min(|list| + 1, HistoryCap)
    ensures r[0] == m
    ensures forall i :: 1 <= i < |r| ==> r[i] == list[i - 1]
  {
    ListRange([m] + list, 0, HistoryCap - 1)
  }

  function Reverse<T>(s: seq<T>): (r: seq<T>)
    ensures |r| == |s|
    ensures forall i :: 0 <= i < |s| ==> r[i] == s[|s| - 1 - i]
  {
    seq(|s|, i requires 0 <= i < |s| => s[|s| - 1 - i])
  }

  /** `getMetricsHistory`: LRANGE 0 59, then reversed, so oldest first. */
  function MetricsHistory(list: seq<Metrics>): (r: seq<Metrics>)
    ensures |r| == Min(|list|, HistoryCap)
    ensures forall i :: 0 <= i < |r| ==> r[i] == list[|r| - 1 - i]
  {
    Reverse(ListRange(list, 0, HistoryCap - 1))
  }

  /** `getCurrentMetrics`: LINDEX 0, or null when the list is empty. */
  function CurrentMetrics(list: seq<Metrics>): (r: Option<Metrics>)
    ensures r.None? <==> |list| == 0
    ensures r.Some? ==> r.value == list[0]
    ensures |list| > 0 ==> r == Some(MetricsHistory(list)[|MetricsHistory(list)| - 1])
  {
    if |list| == 0 then None else Some(list[0])
  }

  /** The list after complete `cacheMetrics` calls for ms[0], ms[1], ...,
      starting from an empty list. */
  function ListAfterWrites(ms: seq<Metrics>): seq<Metrics> {
    if ms == [] then [] else Record(ListAfterWrites(ms[..|ms| - 1]), ms[|ms| - 1])
  }

  /** The newest min(|ms|, 60) writes, newest first. */
  function Newest<T>(ms: seq<T>): (r: seq<T>)
    ensures |r| == Min(|ms|, HistoryCap)
    ensures forall i :: 0 <= i < |r| ==> r[i] == ms[|ms| - 1 - i]
  {
    var r := Reverse(LastN(ms, HistoryCap));
    assert forall i :: 0 <= i < |r| ==> r[i] == ms[|ms| - 1 - i] by {
      forall i | 0 <= i < |r| {
        NewestAt(ms, i);
      }
    }
    r
  }

  /** Position i of the reversed last 60 writes is the i-th newest write. */
  lemma NewestAt<T>(ms: seq<T>, i: nat)
    requires i < Min(|ms|, HistoryCap)
    ensures Reverse(LastN(ms, HistoryCap))[i] == ms[|ms| - 1 - i]
  {
    var last := LastN(ms, HistoryCap);
    assert Reverse(last)[i] == last[|last| - 1 - i];
  }

  /** One more write keeps the list equal to the newest writes. */
  lemma RecordKeepsNewest<T>(p: seq<T>, x: T)
    ensures Record(Newest(p), x) == Newest(p + [x])
  {
    var prev := Newest(p);
    var l, want := Record(prev, x), Newest(p + [x]);
    assert |l| == |want|;
    forall i | 0 <= i < |l| ensures l[i] == want[i] {
      if i > 0 {
        assert l[i] == prev[i - 1] == p[|p| - i];
      }
    }
  }

  /** After N writes the list holds the last min(N, 60) snapshots, newest first. */
  lemma {:induction false} ListKeepsNewestWrites(ms: seq<Metrics>)
    ensures ListAfterWrites(ms) == Newest(ms)
  {
    if ms != [] {
      var p, x := ms[..|ms| - 1], ms[|ms| - 1];
      assert ms == p + [x];
      ListKeepsNewestWrites(p);
      RecordKeepsNewest(p, x);
    }
  }

  /** After N writes `getMetricsHistory` returns the last min(N, 60)
      snapshots in the order they were written. */
  lemma {:induction false} HistoryIsLastWrites(ms: seq<Metrics>)
    ensures MetricsHistory(ListAfterWrites(ms)) == LastN(ms, HistoryCap)
  {
    ListKeepsNewestWrites(ms);
    var h, want := MetricsHistory(ListAfterWrites(ms)), LastN(ms, HistoryCap);
    assert |h| == |want|;
    forall i | 0 <= i < |h| ensures h[i] == want[i] {
      assert h[i] == ListAfterWrites(ms)[|h| - 1 - i];
    }
  }

  /** The Redis server as the code sees it through its three connections. */
  class Store {
    /** The list at key `metrics:history`, head (most recent LPUSH) first. */
    var history: seq<Metrics>
    /** The keys written by SETEX. Expiry is clock-driven and not modelled. */
    var keyed: map<string, Entry>
    /** Everything PUBLISHed, in order. */
    var published: seq<Message>

    constructor ()
      ensures history == [] && keyed == map[] && published == []
    {
      history := [];
      keyed := map[];
      published := [];
    }

    /** `publishMetrics`: one message on `metrics:update`; the list is untouched. */
    method PublishMetrics(m: Metrics)
      modifies this`published
      ensures published == old(published) + [Message(MetricsChannel, m)]
    {
      published := published + [Message(MetricsChannel, m)];
    }

    /** `cacheMetrics` at wall-clock time `now`. Its three commands run in
        order (SETEX, LPUSH, LTRIM); `completed` says how many succeed before
        one is rejected, and `ok` reports whether the whole call resolved. */
    method CacheMetrics(m: Metrics, now: nat, completed: nat) returns (ok: bool)
      modifies this`history, this`keyed
      ensures ok <==> completed >= 3
      ensures keyed == if completed >= 1 then old(keyed)[Key(now) := Entry(m, KeyTtl)] else old(keyed)
      ensures history == if ok then Record(old(history), m)
                         else if completed == 2 then [m] + old(history)
                         else old(history)
      ensures ok ==> |history| <= HistoryCap && history[0] == m
    {
      ok := false;
      if completed < 1 { return; }
      keyed := keyed[Key(now) := Entry(m, KeyTtl)];
      if completed < 2 { return; }
      history := [m] + history;
      if completed < 3 { return; }
      history := ListRange(history, 0, HistoryCap - 1);
      ok := true;
    }

    /** `getMetricsHistory`: at most 60 snapshots, oldest first. */
    method GetMetricsHistory() returns (r: seq<Metrics>)
      ensures r == MetricsHistory(history)
      ensures |r| <= HistoryCap && (r == [] <==> history == [])
    {
      r := MetricsHistory(history);
    }

    /** `getCurrentMetrics`: the head of the list, or null. */
    method GetCurrentMetrics() returns (r: Option<Metrics>)
      ensures r == CurrentMetrics(history)
    {
      if |history| == 0 {
        r := None;
      } else {
        r := Some(history[0]);
      }
    }
  }
}
