/** A backend's monitor and the sink that handles its messages
    (pulse/pulse.go, core/runtime.go). The loops around them are the Send,
    First and Second steps of module Runtime. */
module Pulse {
  import opened Basics
  import opened PulseOptions
  import opened Metrics
  import opened Model
  import opened Runtime
  import opened Context
  import Stash

  /** The monitor object. Its loop waits, then beats, until it is stopped; the
      first wait is drawn from [0, interval) to spread the probes. */
  class PulseMonitor {
    const interval: int
    const metrics: HealthMetrics
    var wait: int
    var closed: bool
    ghost const start: int
    ghost var beats: seq<Beat>

    constructor (interval: int, now: int)
      requires interval > 0
      ensures Valid() && fresh(metrics) && beats == [] && !closed
      ensures this.interval == interval && start == now
    {
      this.interval := interval;
      metrics := new HealthMetrics(now);
      wait, closed := interval, false;
      start, beats := now, [];
    }

    /** The object agrees with the monitor of module Runtime. */
    ghost predicate Valid()
      reads this, metrics
    {
      interval > 0 && 0 <= wait <= interval && metrics.Value() == Feed(Initial(start), beats)
    }

    /** New: there is a monitor exactly when the options are valid and the driver
        takes the target, and its interval is the validated one. */
    static method New(opts: PulseRequest, driver: bool, now: int) returns (monitor: PulseMonitor?, outcome: Outcome)
      modifies opts
      ensures var v := ValidatePulse(old(opts.Spec()), old(opts.delay));
              && opts.Spec() == v.spec && opts.delay == v.delay
              && outcome == (if v.outcome.Ok? && !driver then Err(ErrPulseDriver) else v.outcome)
      ensures monitor != null <==> outcome.Ok?
      ensures monitor != null ==>
                && fresh(monitor) && fresh(monitor.metrics) && monitor.Valid()
                && monitor.interval == opts.delay && monitor.start == now && monitor.beats == [] && !monitor.closed
    {
      monitor := null;
      ValidateMeaning(opts.Spec(), opts.delay);
      outcome := opts.Validate();
      if outcome.Ok? && !driver {
        outcome := Err(ErrPulseDriver);
      }
      if outcome.Ok? {
        monitor := new PulseMonitor(opts.delay, now);
      }
    }

    /** rand.Int63n(interval), which is defined because the interval is
        positive. */
    method Begin()
      requires Valid()
      modifies this`wait
      ensures Valid() && 0 <= wait < interval
    {
      var draw: int :| 0 <= draw < interval;
      wait := draw;
    }

    method Report(source: PulseId, status: Status, now: int) returns (message: Message)
      requires Valid()
      modifies this`wait, this`beats, metrics
      ensures Valid() && beats == old(beats) + [Beat(status, now)] && wait == interval
      ensures message == Message(source, Feed(Initial(start), beats))
    {
      var copy := metrics.Update(status, now);
      FeedOne(Initial(start), beats, Beat(status, now));
      beats := beats + [Beat(status, now)];
      message := Message(source, copy);
      wait := interval;
    }

    /** The whole loop, when the probes answer like this and the stop channel is
        closed after them: one message a probe with the metrics so far, and a
        last one saying Removed. */
    method Loop(source: PulseId, probes: seq<Beat>, end: int) returns (sent: seq<Message>)
      requires Valid() && beats == [] && Probes(Statuses(probes))
      modifies this`wait, this`beats, metrics
      ensures Valid() && beats == probes + [Beat(Removed, end)] && Reports(source, start, beats, sent)
      ensures forall i :: 0 <= i < |sent| ==> (sent[i].metrics.status == Removed <==> i == |probes|)
    {
      Begin();
      sent := [];
      for k := 0 to |probes|
        invariant Valid() && beats == probes[..k] && Reports(source, start, beats, sent)
      {
        var message := Report(source, probes[k].status, probes[k].ts);
        OneMoreReport(source, start, probes[..k], sent, probes[k]);
        assert probes[..k + 1] == probes[..k] + [probes[k]];
        sent := sent + [message];
      }
      assert probes[..|probes|] == probes;
      var last := Report(source, Removed, end);
      OneMoreReport(source, start, probes, sent, Beat(Removed, end));
      sent := sent + [last];
      RemovedComesLast(source, start, probes, end, sent);
    }

    /** close(p.stopCh) */
    method Stop() returns (outcome: Outcome)
      requires Valid()
      modifies this`closed
      ensures Valid() && closed && outcome == if old(closed) then Err(Panic) else Ok
    {
      outcome := if closed then Err(Panic) else Ok;
      closed := true;
    }
  }

  /** Every message carries the metrics of the beats up to it. */
  ghost predicate Reports(source: PulseId, start: int, beats: seq<Beat>, sent: seq<Message>) {
    |sent| == |beats| && forall i :: 0 <= i < |sent| ==> sent[i] == MessageAt(source, start, beats, i)
  }

  ghost function MessageAt(source: PulseId, start: int, beats: seq<Beat>, i: nat): Message
    requires i < |beats|
  {
    Message(source, Feed(Initial(start), beats[..i + 1]))
  }

  lemma {:induction false} OneMoreReport(source: PulseId, start: int, beats: seq<Beat>, sent: seq<Message>, beat: Beat)
    requires Reports(source, start, beats, sent)
    ensures Reports(source, start, beats + [beat], sent + [Message(source, Feed(Initial(start), beats + [beat]))])
  {
    var more := beats + [beat];
    forall i | 0 <= i < |beats| ensures MessageAt(source, start, more, i) == MessageAt(source, start, beats, i) {
      assert more[..i + 1] == beats[..i + 1];
    }
    assert more[..|beats| + 1] == more;
  }

  lemma {:induction false} RemovedComesLast(source: PulseId, start: int, probes: seq<Beat>, end: int, sent: seq<Message>)
    requires Probes(Statuses(probes)) && Reports(source, start, probes + [Beat(Removed, end)], sent)
    ensures forall i :: 0 <= i < |sent| ==> (sent[i].metrics.status == Removed <==> i == |probes|)
  {
    var beats := probes + [Beat(Removed, end)];
    forall i | 0 <= i < |sent| ensures sent[i].metrics.status == Removed <==> i == |probes| {
      assert sent[i] == MessageAt(source, start, beats, i);
      assert sent[i].metrics.status == beats[..i + 1][i].status;
      StatusAt(probes, i);
    }
  }

  lemma {:induction false} StatusAt(beats: seq<Beat>, i: nat)
    ensures i < |beats| ==> Statuses(beats)[i] == beats[i].status
  {
    if i + 1 < |beats| {
      StatusAt(beats[..|beats| - 1], i);
    }
  }

  /** The notification sink and its stash of weights. */
  class PulseSink {
    const ctx: Ctx
    var stash: map<PulseId, uint32>

    constructor (ctx: Ctx)
      ensures this.ctx == ctx && stash == map[]
    {
      this.ctx := ctx;
      stash := map[];
    }

    /** The sink about to handle a message, as the machine sees it. */
    ghost function Seen(sink: Sink): Machine
      reads this, ctx, ctx.ipvs, ctx.store
    {
      Machine(ctx.Value(), [], stash, sink)
    }

    /** The first critical section of processPulseUpdate. */
    method StoreMetrics(u: Message) returns (goOn: bool)
      requires ctx.Valid()
      modifies this, ctx
      ensures ctx.Valid() && ctx.store == old(ctx.store)
      ensures var N := FirstSection(ctx.env, old(Seen(Received(0, u))));
              ctx.Value() == N.ctx && stash == N.stash && (goOn <==> N.sink.Between?)
      ensures goOn ==> u.source.rsID in ctx.backends && ctx.backends[u.source.rsID].metrics == u.metrics
    {
      var rsID := u.source.rsID;
      if rsID !in ctx.backends || u.metrics.status == Removed {
        if u.source in stash {
          stash := stash - {u.source};
        }
        return false;
      }
      ctx.backends := ctx.backends[rsID := ctx.backends[rsID].(metrics := u.metrics)];
      goOn := true;
    }

    /** The part after the lock was released. */
    method AdjustWeight(u: Message, io: Io)
      requires ctx.Valid()
      modifies this, ctx, ctx.ipvs
      ensures ctx.Valid() && ctx.store == old(ctx.store)
      ensures var N := SecondSection(ctx.env, old(Seen(Between(0, u))), io);
              ctx.Value() == N.ctx && stash == N.stash
    {
      match u.metrics.status {
        case Up =>
          if u.source !in stash {
            return;
          }
          var weight := Stash.Scale(stash[u.source], u.metrics.health);
          var old_, outcome := ctx.UpdateBackend(u.source.rsID, weight, io);
          if outcome.Ok? && weight == stash[u.source] {
            stash := stash - {u.source};
          }
        case Down =>
          if u.source in stash {
            return;
          }
          var old_, outcome := ctx.UpdateBackend(u.source.rsID, 0, io);
          if outcome.Ok? {
            stash := stash[u.source := old_];
          }
        case Removed =>
      }
    }
  }
}
