/** Health statistics of one backend: a window of the last 100 probe results
    (pulse/metrics.go, pulse/status.go). Health is the exact rational where
    the program rounds a float64; times are integer nanoseconds. */
module Metrics {
  import opened Basics
  import opened Interval

  datatype Status = Up | Down | Removed

  const WINDOW := 100

  /** The integer behind a StatusType. */
  function Code(s: Status): nat {
    match s case Up => 0 case Down => 1 case Removed => 2
  }

  function CodeSum(record: seq<Status>): nat {
    if record == [] then 0 else CodeSum(record[..|record| - 1]) + Code(record[|record| - 1])
  }

  function Share(part: int, whole: nat): real
    requires whole > 0
  {
    part as real / whole as real
  }

  function Health(record: seq<Status>): real
    requires record != []
  {
    1.0 - Share(CodeSum(record), |record|)
  }

  /** The last min(n, 100) entries of a history. */
  function Window(history: seq<Status>): (w: seq<Status>)
    ensures |w| <= WINDOW && (history != [] ==> w != [])
  {
    if |history| <= WINDOW then history else history[|history| - WINDOW..]
  }

  /** Go's integer division of durations truncates toward zero. */
  function TruncDiv(a: int, b: int): int
    requires b > 0
  {
    if a >= 0 then a / b else -(-a / b)
  }

  /** What a Metrics object holds. */
  datatype Snapshot = Snapshot(status: Status, health: real, uptime: int, lastTs: int, record: seq<Status>)

  /** NewMetrics */
  function Initial(ts: int): Snapshot {
    Snapshot(Up, 1.0, 0, ts, [])
  }

  /** The zero value a backend carries until its first update arrives. */
  const ZERO := Snapshot(Up, 0.0, 0, 0, [])

  /** The record with one more status, and the oldest dropped if it is full. */
  function Slid(record: seq<Status>, status: Status): (r: seq<Status>)
    ensures r != []
  {
    var longer := record + [status];
    if |longer| > WINDOW then longer[1..] else longer
  }

  function Updated(m: Snapshot, status: Status, ts: int): Snapshot {
    var record := Slid(m.record, status);
    Snapshot(status, Health(record), if status != Up then 0 else m.uptime + TruncDiv(ts - m.lastTs, SECOND), ts, record)
  }

  /** Go truncates: the quotient is the largest in size that does not go past
      the dividend, with the dividend's sign. */
  lemma TruncDivExactly(a: int, b: int)
    requires b > 0
    ensures var q := TruncDiv(a, b);
            if a >= 0 then b * q <= a < b * q + b else b * q - b < a <= b * q
  {
    QuotientAndRest(a, b);
    QuotientAndRest(-a, b);
    if a < 0 {
      assert b * -(-a / b) == -(b * (-a / b));
    }
  }

  lemma QuotientAndRest(a: int, b: int)
    requires b > 0
    ensures b * (a / b) <= a < b * (a / b) + b
  {
    assert a == b * (a / b) + a % b;
  }

  /** A probe result and the time it was recorded at. */
  datatype Beat = Beat(status: Status, ts: int)

  function Feed(m: Snapshot, beats: seq<Beat>): Snapshot {
    if beats == [] then m
    else
      var last := beats[|beats| - 1];
      Updated(Feed(m, beats[..|beats| - 1]), last.status, last.ts)
  }

  function Statuses(beats: seq<Beat>): (h: seq<Status>)
    ensures |h| == |beats|
  {
    if beats == [] then [] else Statuses(beats[..|beats| - 1]) + [beats[|beats| - 1].status]
  }

  lemma {:induction false} FeedOne(m: Snapshot, beats: seq<Beat>, beat: Beat)
    ensures Feed(m, beats + [beat]) == Updated(Feed(m, beats), beat.status, beat.ts)
  {
    assert (beats + [beat])[..|beats|] == beats;
  }

  /** One update slides the window by one. */
  lemma WindowSlides(history: seq<Status>, m: Snapshot, status: Status, ts: int)
    requires m.record == Window(history)
    ensures Updated(m, status, ts).record == Window(history + [status])
  {}

  /** For every history, the record is exactly the last min(n, 100) statuses
      and health is one minus their mean code. */
  lemma {:induction false} SlidingWindow(t0: int, beats: seq<Beat>)
    ensures Feed(Initial(t0), beats).record == Window(Statuses(beats))
    ensures var h := Statuses(beats); Window(h) == if |h| <= 100 then h else h[|h| - 100..]
    ensures beats != [] ==> Feed(Initial(t0), beats).health == Health(Window(Statuses(beats)))
  {
    if beats != [] {
      var before := beats[..|beats| - 1];
      SlidingWindow(t0, before);
      var last := beats[|beats| - 1];
      WindowSlides(Statuses(before), Feed(Initial(t0), before), last.status, last.ts);
    }
  }

  /** Only Up and Down: what a monitor sends before it is removed. */
  predicate Probes(record: seq<Status>) {
    forall i :: 0 <= i < |record| ==> record[i] != Removed
  }

  function Ups(record: seq<Status>): (n: nat)
    ensures n <= |record|
  {
    if record == [] then 0 else Ups(record[..|record| - 1]) + (if record[|record| - 1] == Up then 1 else 0)
  }

  lemma {:induction false} CodeSumCountsDowns(record: seq<Status>)
    requires Probes(record)
    ensures CodeSum(record) == |record| - Ups(record)
    ensures Ups(record) == |record| <==> Down !in record
  {
    if record != [] {
      var init := record[..|record| - 1];
      CodeSumCountsDowns(init);
      assert record == init + [record[|record| - 1]];
    }
  }

  lemma ShareComplement(u: int, n: nat)
    requires n > 0
    ensures 1.0 - Share(n - u, n) == Share(u, n)
  {
    var x, y, m := Share(n - u, n), Share(u, n), n as real;
    assert x * m == (n - u) as real == m - u as real && y * m == u as real;
    NoZeroProduct(x + y - 1.0, m);
  }

  lemma NoZeroProduct(x: real, m: real)
    requires m > 0.0 && x * m == 0.0
    ensures x == 0.0
  {}

  lemma ShareOrder(u: int, v: int, n: nat)
    requires n > 0
    ensures u <= v <==> Share(u, n) <= Share(v, n)
  {
    var x, y := Share(u, n), Share(v, n);
    assert x * n as real == u as real && y * n as real == v as real;
    if x <= y {
      assert x * n as real <= y * n as real;
    } else {
      assert x * n as real > y * n as real;
    }
  }

  lemma ShareEnds(n: nat)
    requires n > 0
    ensures Share(0, n) == 0.0 && Share(n, n) == 1.0
  {}

  /** With Up and Down only, health is the share of Ups; it is 1 exactly when
      the window holds no Down. */
  lemma HealthIsUpShare(record: seq<Status>)
    requires record != [] && Probes(record)
    ensures Health(record) == Share(Ups(record), |record|)
    ensures 0.0 <= Health(record) <= 1.0
    ensures Health(record) == 1.0 <==> Down !in record
  {
    CodeSumCountsDowns(record);
    ShareComplement(Ups(record), |record|);
    ShareEnds(|record|);
    ShareOrder(0, Ups(record), |record|);
    ShareOrder(Ups(record), |record|, |record|);
    ShareOrder(|record|, Ups(record), |record|);
  }

  /** A final Removed can push health below zero, by 1/len at most. */
  lemma {:induction false} HealthAfterRemoved(record: seq<Status>)
    requires record != [] && Probes(record[..|record| - 1]) && record[|record| - 1] == Removed
    ensures Share(-1, |record|) <= Health(record) <= 1.0
    ensures Health(record) < 0.0 <==> Up !in record
  {
    var init := record[..|record| - 1];
    CountUps(init);
    assert record == init + [Removed];
    HealthWithRemoved(record);
    ShareRange(Ups(init) - 1, |record|);
  }

  lemma {:induction false} HealthWithRemoved(record: seq<Status>)
    requires record != [] && Probes(record[..|record| - 1]) && record[|record| - 1] == Removed
    ensures Health(record) == Share(Ups(record[..|record| - 1]) - 1, |record|)
  {
    var init := record[..|record| - 1];
    CodeSumCountsDowns(init);
    ShareComplement(Ups(init) - 1, |record|);
  }

  lemma ShareRange(u: int, n: nat)
    requires -1 <= u <= n && n > 0
    ensures Share(-1, n) <= Share(u, n) <= 1.0
    ensures Share(u, n) < 0.0 <==> u < 0
  {
    ShareEnds(n);
    ShareOrder(-1, u, n);
    ShareOrder(u, n, n);
    ShareOrder(0, u, n);
  }

  lemma {:induction false} CountUps(record: seq<Status>)
    ensures Ups(record) == 0 <==> Up !in record
  {
    if record != [] {
      CountUps(record[..|record| - 1]);
      assert record == record[..|record| - 1] + [record[|record| - 1]];
    }
  }

  /** Uptime of k Ups in a row since the counter was last zero, at t0. */
  predicate UpRun(beats: seq<Beat>, t0: int) {
    && (forall i :: 0 <= i < |beats| ==> beats[i].status == Up)
    && (beats != [] ==> t0 <= beats[0].ts)
    && (forall i, j :: 0 <= i < j < |beats| ==> beats[i].ts <= beats[j].ts)
  }

  /** Each Up drops the fraction of a second, so over k Ups the uptime falls
      short of the elapsed time by less than k seconds and never exceeds it. */
  lemma {:induction false} UptimeBounds(m: Snapshot, beats: seq<Beat>)
    requires m.uptime == 0 && beats != [] && UpRun(beats, m.lastTs)
    ensures var uptime, elapsed := Feed(m, beats).uptime, beats[|beats| - 1].ts - m.lastTs;
            elapsed - |beats| * SECOND < uptime * SECOND <= elapsed
    ensures Feed(m, beats).lastTs == beats[|beats| - 1].ts
  {
    if |beats| > 1 {
      UptimeBounds(m, beats[..|beats| - 1]);
    } else {
      assert beats[..0] == [];
    }
  }

  function LastTs(t0: int, beats: seq<Beat>): int {
    if beats == [] then t0 else beats[|beats| - 1].ts
  }

  /** A history in two parts: the last status of the first, if it has one, is
      not Up, and the second is Ups alone. */
  predicate CutAtLastUps(before: seq<Beat>, ups: seq<Beat>) {
    && (before != [] ==> before[|before| - 1].status != Up)
    && (forall i :: 0 <= i < |ups| ==> ups[i].status == Up)
  }

  lemma {:induction false} EveryHistoryCut(beats: seq<Beat>) returns (before: seq<Beat>, ups: seq<Beat>)
    ensures beats == before + ups && CutAtLastUps(before, ups)
  {
    if beats == [] || beats[|beats| - 1].status != Up {
      before, ups := beats, [];
    } else {
      var last := |beats| - 1;
      before, ups := EveryHistoryCut(beats[..last]);
      CutAndJoin(beats, last);
      ups := ups + [beats[last]];
    }
  }

  lemma {:induction false} LastReset(t0: int, beats: seq<Beat>)
    requires beats != [] ==> beats[|beats| - 1].status != Up
    ensures var m := Feed(Initial(t0), beats);
            m.uptime == 0 && m.lastTs == LastTs(t0, beats)
  {}

  lemma {:induction false} FeedAppend(m: Snapshot, a: seq<Beat>, b: seq<Beat>)
    ensures Feed(m, a + b) == Feed(Feed(m, a), b)
  {
    if b == [] {
      assert a + b == a;
    } else {
      var n := |b| - 1;
      FeedAppend(m, a, b[..n]);
      FeedSame(m, a + b[..n], Feed(m, a), b[..n], b[n]);
      LastOff(a, b);
    }
  }

  lemma {:induction false} FeedSame(m: Snapshot, a: seq<Beat>, k: Snapshot, b: seq<Beat>, last: Beat)
    requires Feed(m, a) == Feed(k, b)
    ensures Feed(m, a + [last]) == Feed(k, b + [last])
  {
    FeedOne(m, a, last);
    FeedOne(k, b, last);
  }

  /** Uptime over any history, which can be cut like this: it counts from the
      last status other than Up, or from the start if there was none, and falls
      short of the time since then by less than a second for each Up; a status
      other than Up sets it to zero. */
  lemma {:induction false} UptimeOfHistory(t0: int, before: seq<Beat>, ups: seq<Beat>)
    requires CutAtLastUps(before, ups)
    requires ups != [] ==> LastTs(t0, before) <= ups[0].ts
    requires forall i, j :: 0 <= i < j < |ups| ==> ups[i].ts <= ups[j].ts
    ensures var uptime, elapsed := Feed(Initial(t0), before + ups).uptime, LastTs(t0, before + ups) - LastTs(t0, before);
            if ups == [] then uptime == 0 else elapsed - |ups| * SECOND < uptime * SECOND <= elapsed
  {
    LastReset(t0, before);
    FeedAppend(Initial(t0), before, ups);
    if ups != [] {
      UptimeBounds(Feed(Initial(t0), before), ups);
    }
  }

  class HealthMetrics {
    var status: Status
    var health: real
    var uptime: int
    var lastTs: int
    var record: seq<Status>

    constructor (ts: int)
      ensures Value() == Initial(ts) && status == Up && health == 1.0 && uptime == 0 && record == []
    {
      status, health, uptime, lastTs, record := Up, 1.0, 0, ts, [];
    }

    function Value(): Snapshot
      reads this
    {
      Snapshot(status, health, uptime, lastTs, record)
    }

    method Update(newStatus: Status, ts: int) returns (copy: Snapshot)
      modifies this
      ensures Value() == Updated(old(Value()), newStatus, ts)
      ensures record == (if |old(record)| < 100 then old(record) else old(record)[1..]) + [newStatus] || |old(record)| > 100
      ensures copy == Value()
    {
      status := newStatus;
      health := 0.0;
      record := record + [newStatus];
      if |record| > WINDOW {
        record := record[1..];
      }
      for i := 0 to |record|
        invariant status == newStatus && uptime == old(uptime) && lastTs == old(lastTs)
        invariant record == Slid(old(record), newStatus)
        invariant health == CodeSum(record[..i]) as real
      {
        assert record[..i + 1][..i] == record[..i];
        health := health + Code(record[i]) as real;
      }
      assert record[..|record|] == record;
      health := 1.0 - health / |record| as real;
      if status != Up {
        uptime, lastTs := 0, ts;
      } else {
        uptime, lastTs := uptime + TruncDiv(ts - lastTs, SECOND), ts;
      }
      copy := Value();
    }
  }
}
