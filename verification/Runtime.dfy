/** The concurrent system (core/runtime.go, pulse/pulse.go): API calls under the
    context's lock, monitors that send their metrics, and one sink goroutine
    that works through each message in two critical sections, releasing the
    lock in between. Steps of different goroutines interleave freely. */
module Runtime {
  import opened Basics
  import opened Metrics
  import opened Options
  import opened Model
  import opened Stash

  /** pulse.Update */
  datatype Message = Message(source: PulseId, metrics: Snapshot)

  /** A monitor goroutine: what it has measured since it started, whether it has
      sent its final Removed message, and which weight changes that its handled
      messages called for the kernel accepted. */
  datatype Monitor = Monitor(start: int, beats: seq<Beat>, done: bool, accepted: seq<bool>)
  {
    function Metrics(): Snapshot { Feed(Initial(start), beats) }
  }

  /** Where the sink goroutine is. */
  datatype Sink =
    | Idle
    | Received(from: nat, message: Message)  // before the first critical section
    | Between(from: nat, message: Message)   // between the two

  datatype Machine = Machine(ctx: State, monitors: seq<Monitor>, stash: map<PulseId, uint32>, sink: Sink)

  const START := Machine(EMPTY, [], map[], Idle)

  datatype Step =
    | Api(op: Op, now: int)
    | Send(m: nat, status: Status, ts: int)
    | First
    | Second(io: Io)

  /** A monitor delivers when the sink is idle; it reports Removed, once, after
      its stop channel is closed, and may still report a probe before that. */
  predicate CanStep(M: Machine, step: Step) {
    match step
    case Api(op, now) => !op.OpObserve?
    case Send(m, status, ts) =>
      && M.sink.Idle? && m < |M.monitors| && !M.monitors[m].done
      && (status == Removed ==> m in M.ctx.stopped)
    case First => M.sink.Received?
    case Second(io) => M.sink.Between?
  }

  /** The monitors a context operation has started. */
  function Started(monitors: seq<Monitor>, n: nat, now: int): seq<Monitor> {
    if n <= |monitors| then monitors else monitors + seq(n - |monitors|, _ => Monitor(now, [], false, []))
  }

  function Handled(monitors: seq<Monitor>, m: nat, ok: bool): seq<Monitor> {
    if m < |monitors| then monitors[m := monitors[m].(accepted := monitors[m].accepted + [ok])] else monitors
  }

  function Sent(M: Machine, m: nat, status: Status, ts: int): Machine
    requires m < |M.monitors| && m < |M.ctx.monitors|
  {
    var measured := M.monitors[m].(beats := M.monitors[m].beats + [Beat(status, ts)], done := status == Removed);
    M.(monitors := M.monitors[m := measured],
       sink := Received(m, Message(M.ctx.monitors[m], measured.Metrics())))
  }

  /** The first critical section of processPulseUpdate. */
  function FirstSection(env: Env, M: Machine): Machine
    requires M.sink.Received?
  {
    var u := M.sink.message;
    if u.source.rsID !in M.ctx.backends || u.metrics.status == Removed then
      M.(stash := M.stash - {u.source}, sink := Idle, monitors := Handled(M.monitors, M.sink.from, true))
    else
      M.(ctx := Apply(env, M.ctx, OpObserve(u.source.rsID, u.metrics)).0,
         sink := Between(M.sink.from, u))
  }

  /** The weight the second part asks the context for, if any. */
  function WantedWeight(stash: map<PulseId, uint32>, u: Message): Option<uint32> {
    match u.metrics.status
    case Up => if u.source in stash then Some(Scale(stash[u.source], u.metrics.health)) else None
    case Down => if u.source in stash then None else Some(0)
    case Removed => None
  }

  /** The stash after the weight was changed from `old_` to `weight`. */
  function Restashed(stash: map<PulseId, uint32>, u: Message, old_: uint32, weight: uint32): map<PulseId, uint32> {
    match u.metrics.status
    case Up => if u.source in stash && weight == stash[u.source] then stash - {u.source} else stash
    case Down => stash[u.source := old_]
    case Removed => stash
  }

  /** The second part: UpdateBackend takes the lock again. */
  function SecondSection(env: Env, M: Machine, io: Io): Machine
    requires M.sink.Between?
  {
    var u := M.sink.message;
    match WantedWeight(M.stash, u)
    case None => M.(sink := Idle, monitors := Handled(M.monitors, M.sink.from, true))
    case Some(weight) =>
      var (ctx, outcome) := Apply(env, M.ctx, OpUpdateBackend(u.source.rsID, weight, io));
      var old_ := if u.source.rsID in M.ctx.backends then M.ctx.backends[u.source.rsID].options.spec.weight else 0;
      M.(ctx := ctx,
         stash := if outcome.Ok? then Restashed(M.stash, u, old_, weight) else M.stash,
         sink := Idle,
         monitors := Handled(M.monitors, M.sink.from, outcome.Ok?))
  }

  function Next(env: Env, M: Machine, step: Step): Machine
    requires CanStep(M, step) && |M.monitors| == |M.ctx.monitors|
  {
    match step
    case Api(op, now) =>
      var ctx := Apply(env, M.ctx, op).0;
      M.(ctx := ctx, monitors := Started(M.monitors, |ctx.monitors|, now))
    case Send(m, status, ts) => Sent(M, m, status, ts)
    case First => FirstSection(env, M)
    case Second(io) => SecondSection(env, M, io)
  }

  /** Every health the context shows is between 0 and 1. */
  predicate HealthyView(st: State) {
    forall rs :: rs in st.backends ==> 0.0 <= st.backends[rs].metrics.health <= 1.0
  }

  /** A step that is not possible does not happen. */
  function Stepped(env: Env, M: Machine, step: Step): Machine {
    if CanStep(M, step) && |M.monitors| == |M.ctx.monitors| then Next(env, M, step) else M
  }

  function After(env: Env, M: Machine, steps: seq<Step>): Machine {
    if steps == [] then M else Stepped(env, After(env, M, steps[..|steps| - 1]), steps[|steps| - 1])
  }
}
