/** What every interleaving keeps (core/runtime.go, pulse/pulse.go). */
module RuntimeTheorems {
  import opened Metrics
  import opened Options
  import opened Model
  import opened Effects
  import opened Stash
  import opened Runtime

  /** The context operations behind a step, at most one. */
  function OpsOf(env: Env, M: Machine, step: Step): seq<Op> {
    if !CanStep(M, step) || |M.monitors| != |M.ctx.monitors| then []
    else match step
      case Api(op, now) => [op]
      case Send(_, _, _) => []
      case First =>
        var u := M.sink.message;
        if u.source.rsID !in M.ctx.backends || u.metrics.status == Removed then []
        else [OpObserve(u.source.rsID, u.metrics)]
      case Second(io) =>
        match WantedWeight(M.stash, M.sink.message)
        case None => []
        case Some(weight) => [OpUpdateBackend(M.sink.message.source.rsID, weight, io)]
  }

  function Trace(env: Env, steps: seq<Step>): seq<Op> {
    if steps == [] then []
    else
      var n := |steps| - 1;
      Trace(env, steps[..n]) + OpsOf(env, After(env, START, steps[..n]), steps[n])
  }

  /** Every interleaving is, for the context, a run of its operations: all that
      is proved about runs holds of the concurrent system. */
  lemma {:induction false} ContextRuns(env: Env, steps: seq<Step>)
    ensures After(env, START, steps).ctx == Run(env, EMPTY, Trace(env, steps))
  {
    if steps != [] {
      var n := |steps| - 1;
      ContextRuns(env, steps[..n]);
      var M := After(env, START, steps[..n]);
      StepRuns(env, M, steps[n]);
      RunOfOne(env, Trace(env, steps[..n]), OpsOf(env, M, steps[n]));
    }
  }

  lemma StepRuns(env: Env, M: Machine, step: Step)
    ensures |OpsOf(env, M, step)| <= 1
    ensures Stepped(env, M, step).ctx ==
            if OpsOf(env, M, step) == [] then M.ctx else Apply(env, M.ctx, OpsOf(env, M, step)[0]).0
  {}

  lemma RunOfOne(env: Env, ops: seq<Op>, more: seq<Op>)
    requires |more| <= 1
    ensures Run(env, EMPTY, ops + more) ==
            if more == [] then Run(env, EMPTY, ops) else Apply(env, Run(env, EMPTY, ops), more[0]).0
  {
    if more == [] {
      assert ops + more == ops;
    } else {
      assert (ops + more)[..|ops|] == ops;
    }
  }

  /** The monitor has sent Removed and the sink has dealt with it. */
  predicate Consumed(M: Machine, m: nat) {
    m < |M.monitors| && M.monitors[m].done && !(M.sink.Received? && M.sink.from == m)
  }

  /** A monitor's beats: probes, and Removed at the very end. */
  predicate WellMeasured(monitor: Monitor) {
    var h := Statuses(monitor.beats);
    if monitor.done then h != [] && h[|h| - 1] == Removed && Probes(h[..|h| - 1]) else Probes(h)
  }

  /** The message in the sink is the last one its monitor sent. */
  predicate SinkAgrees(M: Machine) {
    match M.sink
    case Idle => true
    case Received(m, u) => Delivered(M, m, u)
    case Between(m, u) => Delivered(M, m, u) && u.metrics.status != Removed
  }

  predicate Delivered(M: Machine, m: nat, u: Message) {
    && m < |M.monitors| && m < |M.ctx.monitors|
    && u.source == M.ctx.monitors[m] && u.metrics == M.monitors[m].Metrics() && M.monitors[m].beats != []
    && (M.monitors[m].done <==> u.metrics.status == Removed)
  }

  predicate HasPending(M: Machine, id: PulseId, m: nat) {
    m < |M.monitors| && m < |M.ctx.monitors| && M.ctx.monitors[m] == id && !Consumed(M, m)
  }

  /** Every stash entry has a monitor whose Removed message is still to come. */
  ghost predicate StashOwned(M: Machine) {
    forall id :: id in M.stash ==> exists m :: HasPending(M, id, m)
  }

  predicate Orderly(M: Machine) {
    && |M.monitors| == |M.ctx.monitors|
    && SinkAgrees(M)
    && (forall m :: 0 <= m < |M.monitors| ==> WellMeasured(M.monitors[m]))
  }

  lemma MonitorsGrow(env: Env, st: State, op: Op)
    ensures st.monitors <= Apply(env, st, op).0.monitors
    ensures !op.OpCreateBackend? ==> Apply(env, st, op).0.monitors == st.monitors
  {
    var e := EffectOf(env, st, op);
  }

  lemma OneMoreBeat(start: int, beats: seq<Beat>, status: Status, ts: int)
    ensures Statuses(beats + [Beat(status, ts)]) == Statuses(beats) + [status]
    ensures Feed(Initial(start), beats + [Beat(status, ts)]) == Updated(Feed(Initial(start), beats), status, ts)
  {
    assert (beats + [Beat(status, ts)])[..|beats|] == beats;
  }

  lemma OrderlyKept(env: Env, M: Machine, step: Step)
    requires Orderly(M)
    ensures Orderly(Stepped(env, M, step))
  {
    if CanStep(M, step) {
      match step
      case Api(op, now) => OrderlyAfterApi(env, M, op, now);
      case Send(m, status, ts) => OrderlyAfterSend(M, m, status, ts);
      case First => OrderlyAfterFirst(env, M);
      case Second(io) => OrderlyAfterSecond(env, M, io);
    }
  }

  lemma OrderlyAfterApi(env: Env, M: Machine, op: Op, now: int)
    requires Orderly(M) && CanStep(M, Api(op, now))
    ensures Orderly(Next(env, M, Api(op, now)))
  {
    MonitorsGrow(env, M.ctx, op);
    OrderlyAfterStart(M, Apply(env, M.ctx, op).0, now);
  }

  lemma OrderlyAfterStart(M: Machine, ctx: State, now: int)
    requires Orderly(M) && M.ctx.monitors <= ctx.monitors
    ensures Orderly(M.(ctx := ctx, monitors := Started(M.monitors, |ctx.monitors|, now)))
  {}

  lemma OrderlyAfterSend(M: Machine, m: nat, status: Status, ts: int)
    requires Orderly(M) && CanStep(M, Send(m, status, ts))
    ensures Orderly(Sent(M, m, status, ts))
  {
    OneMoreBeat(M.monitors[m].start, M.monitors[m].beats, status, ts);
  }

  lemma OrderlyAfterFirst(env: Env, M: Machine)
    requires Orderly(M) && M.sink.Received?
    ensures Orderly(FirstSection(env, M))
  {
    MonitorsGrow(env, M.ctx, OpObserve(M.sink.message.source.rsID, M.sink.message.metrics));
  }

  lemma OrderlyAfterSecond(env: Env, M: Machine, io: Io)
    requires Orderly(M) && M.sink.Between?
    ensures Orderly(SecondSection(env, M, io))
  {
    var weight := WantedWeight(M.stash, M.sink.message);
    if weight.Some? {
      MonitorsGrow(env, M.ctx, OpUpdateBackend(M.sink.message.source.rsID, weight.value, io));
    }
  }

  lemma StashOwnedKept(env: Env, M: Machine, step: Step)
    requires Orderly(M) && StashOwned(M)
    ensures StashOwned(Stepped(env, M, step))
  {
    var N := Stepped(env, M, step);
    forall id | id in N.stash
      ensures exists m :: HasPending(N, id, m)
    {
      var _ := PendingAfter(env, M, step, id);
    }
  }

  lemma PendingAfter(env: Env, M: Machine, step: Step, id: PulseId) returns (m: nat)
    requires Orderly(M) && StashOwned(M) && id in Stepped(env, M, step).stash
    ensures HasPending(Stepped(env, M, step), id, m)
  {
    var N := Stepped(env, M, step);
    if id in M.stash {
      m :| HasPending(M, id, m);
      StaysPending(env, M, step, id, m);
    } else {
      m := M.sink.from;
    }
  }

  lemma StaysPending(env: Env, M: Machine, step: Step, id: PulseId, m: nat)
    requires Orderly(M) && HasPending(M, id, m) && id in Stepped(env, M, step).stash
    ensures HasPending(Stepped(env, M, step), id, m)
  {
    if CanStep(M, step) {
      match step
      case Api(op, now) => MonitorsGrow(env, M.ctx, op);
      case Send(_, _, _) =>
      case First => MonitorsGrow(env, M.ctx, OpObserve(M.sink.message.source.rsID, M.sink.message.metrics));
      case Second(io) =>
        var weight := WantedWeight(M.stash, M.sink.message);
        if weight.Some? {
          MonitorsGrow(env, M.ctx, OpUpdateBackend(M.sink.message.source.rsID, weight.value, io));
        }
    }
  }

  lemma {:induction false} AlwaysOrderly(env: Env, steps: seq<Step>)
    ensures Orderly(After(env, START, steps)) && StashOwned(After(env, START, steps))
  {
    if steps != [] {
      var n := |steps| - 1;
      AlwaysOrderly(env, steps[..n]);
      OrderlyKept(env, After(env, START, steps[..n]), steps[n]);
      StashOwnedKept(env, After(env, START, steps[..n]), steps[n]);
    }
  }

  /** The stash leaks nothing: on every interleaving, re-creation under the same
      id included, once each monitor ever started for an id has sent its Removed
      message and the sink has consumed it, the stash has no entry for the id. */
  lemma NoLeak(env: Env, steps: seq<Step>, id: PulseId)
    requires var M := After(env, START, steps);
             forall m :: 0 <= m < |M.ctx.monitors| && M.ctx.monitors[m] == id ==> Consumed(M, m)
    ensures id !in After(env, START, steps).stash
  {
    AlwaysOrderly(env, steps);
  }

  lemma HealthKept(env: Env, st: State, op: Op)
    requires HealthyView(st) && (op.OpObserve? ==> 0.0 <= op.metrics.health <= 1.0)
    ensures HealthyView(Apply(env, st, op).0)
  {
    var e := EffectOf(env, st, op);
  }

  lemma MessageHealth(M: Machine)
    requires Orderly(M) && M.sink.Received? && M.sink.message.metrics.status != Removed
    ensures 0.0 <= M.sink.message.metrics.health <= 1.0
  {
    var monitor := M.monitors[M.sink.from];
    SlidingWindow(monitor.start, monitor.beats);
    ProbesOfPrefix(Statuses(monitor.beats));
    HealthIsUpShare(Window(Statuses(monitor.beats)));
  }

  lemma {:induction false} AlwaysHealthy(env: Env, steps: seq<Step>)
    ensures HealthyView(After(env, START, steps).ctx)
  {
    if steps != [] {
      var n := |steps| - 1;
      var M := After(env, START, steps[..n]);
      AlwaysHealthy(env, steps[..n]);
      AlwaysOrderly(env, steps[..n]);
      StepRuns(env, M, steps[n]);
      var ops := OpsOf(env, M, steps[n]);
      if ops != [] {
        if ops[0].OpObserve? {
          ObservedHealth(env, M, steps[n]);
        }
        HealthKept(env, M.ctx, ops[0]);
      }
    }
  }

  /** Only the sink stores metrics, and only those of an Up or Down message. */
  lemma ObservedHealth(env: Env, M: Machine, step: Step)
    requires Orderly(M) && OpsOf(env, M, step) != [] && OpsOf(env, M, step)[0].OpObserve?
    ensures 0.0 <= OpsOf(env, M, step)[0].metrics.health <= 1.0
  {
    MessageHealth(M);
  }
}
