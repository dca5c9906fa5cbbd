/** The weight of a live backend inside the concurrent system follows the
    stash machine on its own monitor's messages, whatever else goes on
    (core/runtime.go, core/context.go, pulse/pulse.go). */
module WeightTheorems {
  import opened Basics
  import opened Metrics
  import opened Options
  import opened Model
  import opened Effects
  import opened Invariants
  import opened Runs
  import opened Stash
  import opened Runtime
  import opened RuntimeTheorems

  function History(M: Machine, m: nat): seq<Status>
    requires m < |M.monitors|
  {
    Statuses(M.monitors[m].beats)
  }

  predicate InFlight(M: Machine, m: nat) {
    !M.sink.Idle? && M.sink.from == m
  }

  /** The statuses of the messages the sink has finished with. */
  function Processed(M: Machine, m: nat): seq<Status>
    requires m < |M.monitors|
  {
    var h := History(M, m);
    if InFlight(M, m) && h != [] then h[..|h| - 1] else h
  }

  function StashEntry(stash: map<PulseId, uint32>, id: PulseId): Option<uint32> {
    if id in stash then Some(stash[id]) else None
  }

  /** Backend rs is alive under monitor m alone, its earlier incarnations are
      over, and its weight and stash entry are what the stash machine gives for
      the messages processed so far, starting from w0. */
  predicate Follows(M: Machine, m: nat, rs: string, w0: uint32) {
    && Watched(M, m, rs)
    && |M.monitors[m].accepted| == |Processed(M, m)|
    && Course(M.ctx.backends[rs].options.spec.weight, StashEntry(M.stash, M.ctx.monitors[m]))
       == Follow(w0, Processed(M, m), M.monitors[m].accepted)
  }

  predicate Watched(M: Machine, m: nat, rs: string) {
    && m < |M.monitors| && m < |M.ctx.monitors| && m !in M.ctx.stopped && !M.monitors[m].done
    && rs in M.ctx.backends && M.ctx.backends[rs].monitor == m && M.ctx.monitors[m].rsID == rs
    && (forall n :: 0 <= n < |M.ctx.monitors| && n != m && M.ctx.monitors[n].rsID == rs ==> Consumed(M, n))
  }

  /** The operation does not touch backend rs. */
  predicate Spares(st: State, op: Op, rs: string)
    requires rs in st.backends
  {
    && !((op.OpUpdateBackend? || op.OpRemoveBackend?) && op.rsID == rs)
    && !(op.OpRemoveService? && op.vsID in st.services && st.services[op.vsID].ref == st.backends[rs].service.ref)
  }

  lemma SparedStays(env: Env, st: State, op: Op, rs: string)
    requires Sound(env, st) && rs in st.backends && Spares(st, op, rs)
    ensures var after := Apply(env, st, op).0;
            && rs in after.backends
            && after.backends[rs].options == st.backends[rs].options
            && after.backends[rs].monitor == st.backends[rs].monitor
            && (st.backends[rs].monitor !in st.stopped ==> st.backends[rs].monitor !in after.stopped)
  {
    var e := EffectOf(env, st, op);
    SparesMeans(env, st, op, e, rs);
    SparedByEffect(env, st, e, rs);
  }

  /** The effect changes neither the backend nor its monitor. */
  predicate Passes(st: State, e: Effect, rs: string)
    requires rs in st.backends
  {
    && (e.NewWeight? || e.BackendGone? || e.MonitorStopped? ==> e.rsID != rs)
    && (e.ServiceGone? ==> rs !in e.cleaned)
  }

  lemma SparesMeans(env: Env, st: State, op: Op, e: Effect, rs: string)
    requires Enabled(env, st, e) && Caused(st, op, e) && rs in st.backends && Spares(st, op, rs)
    ensures Passes(st, e, rs)
  {}

  lemma SparedByEffect(env: Env, st: State, e: Effect, rs: string)
    requires Enabled(env, st, e) && Identities(st) && rs in st.backends && Passes(st, e, rs)
    ensures var after := Change(env, st, e);
            && rs in after.backends
            && after.backends[rs].options == st.backends[rs].options
            && after.backends[rs].monitor == st.backends[rs].monitor
            && (st.backends[rs].monitor !in st.stopped ==> st.backends[rs].monitor !in after.stopped)
  {}

  predicate StepSpares(M: Machine, step: Step, rs: string)
    requires rs in M.ctx.backends
  {
    step.Api? ==> Spares(M.ctx, step.op, rs)
  }

  lemma FollowsKept(env: Env, M: Machine, step: Step, m: nat, rs: string, w0: uint32)
    requires Orderly(M) && Sound(env, M.ctx) && Follows(M, m, rs, w0) && StepSpares(M, step, rs)
    ensures Follows(Stepped(env, M, step), m, rs, w0)
  {
    if CanStep(M, step) {
      match step
      case Api(op, now) => FollowsAfterApi(env, M, op, now, m, rs, w0);
      case Send(n, status, ts) => FollowsAfterSend(M, n, status, ts, m, rs, w0);
      case First => FollowsAfterFirst(env, M, m, rs, w0);
      case Second(io) =>
        if M.sink.from == m {
          FollowsOwnSecond(env, M, io, m, rs, w0);
        } else {
          FollowsOtherSecond(env, M, io, m, rs, w0);
        }
    }
  }

  lemma FollowsAfterApi(env: Env, M: Machine, op: Op, now: int, m: nat, rs: string, w0: uint32)
    requires Orderly(M) && Sound(env, M.ctx) && Follows(M, m, rs, w0) && Spares(M.ctx, op, rs)
    requires CanStep(M, Api(op, now))
    ensures Follows(Next(env, M, Api(op, now)), m, rs, w0)
  {
    WatchedAfterApi(env, M, op, now, m, rs);
    var N := Next(env, M, Api(op, now));
    assert Processed(N, m) == Processed(M, m);
    SparedStays(env, M.ctx, op, rs);
    MonitorsGrow(env, M.ctx, op);
  }

  lemma WatchedAfterApi(env: Env, M: Machine, op: Op, now: int, m: nat, rs: string)
    requires Orderly(M) && Sound(env, M.ctx) && Watched(M, m, rs) && Spares(M.ctx, op, rs)
    requires CanStep(M, Api(op, now))
    ensures Watched(Next(env, M, Api(op, now)), m, rs)
    ensures Next(env, M, Api(op, now)).monitors[m] == M.monitors[m]
  {
    SparedStays(env, M.ctx, op, rs);
    MonitorsGrow(env, M.ctx, op);
    NoSecondMonitor(env, M.ctx, op, rs);
  }

  /** No monitor is started for an id that is taken. */
  lemma NoSecondMonitor(env: Env, st: State, op: Op, rs: string)
    requires rs in st.backends
    ensures forall n :: |st.monitors| <= n < |Apply(env, st, op).0.monitors| ==> Apply(env, st, op).0.monitors[n].rsID != rs
  {
    var e := EffectOf(env, st, op);
  }

  lemma FollowsAfterSend(M: Machine, n: nat, status: Status, ts: int, m: nat, rs: string, w0: uint32)
    requires Orderly(M) && Follows(M, m, rs, w0) && CanStep(M, Send(n, status, ts))
    ensures Follows(Sent(M, n, status, ts), m, rs, w0)
  {
    OneMoreBeat(M.monitors[n].start, M.monitors[n].beats, status, ts);
    var N := Sent(M, n, status, ts);
    assert Processed(N, m) == Processed(M, m);
  }

  /** A message in the sink from another monitor is about another backend. */
  lemma OthersAreElsewhere(M: Machine, m: nat, rs: string)
    requires Orderly(M) && Watched(M, m, rs) && !M.sink.Idle? && M.sink.from != m
    ensures M.sink.message.source.rsID != rs
  {}

  lemma FollowsAfterFirst(env: Env, M: Machine, m: nat, rs: string, w0: uint32)
    requires Orderly(M) && Sound(env, M.ctx) && Follows(M, m, rs, w0) && M.sink.Received?
    ensures Follows(FirstSection(env, M), m, rs, w0)
  {
    if M.sink.from == m {
      ObserveSpares(env, M.ctx, M.sink.message, rs);
    } else {
      OthersAreElsewhere(M, m, rs);
      FollowsOtherFirst(env, M, m, rs, w0);
    }
  }

  lemma ObserveSpares(env: Env, st: State, u: Message, rs: string)
    requires rs in st.backends
    ensures var after := Apply(env, st, OpObserve(u.source.rsID, u.metrics)).0;
            && rs in after.backends && after.monitors == st.monitors && after.stopped == st.stopped
            && after.backends[rs].options == st.backends[rs].options
            && after.backends[rs].monitor == st.backends[rs].monitor
  {}

  /** Steps that leave what concerns backend rs as it is. */
  predicate Elsewhere(M: Machine, N: Machine, m: nat, rs: string)
    requires m < |M.monitors| && rs in M.ctx.backends && m < |M.ctx.monitors|
  {
    && rs in N.ctx.backends && N.ctx.backends[rs].options == M.ctx.backends[rs].options
    && N.ctx.backends[rs].monitor == M.ctx.backends[rs].monitor
    && N.ctx.monitors == M.ctx.monitors && N.ctx.stopped == M.ctx.stopped
    && m < |N.monitors| && N.monitors[m] == M.monitors[m] && (InFlight(N, m) <==> InFlight(M, m))
    && StashEntry(N.stash, M.ctx.monitors[m]) == StashEntry(M.stash, M.ctx.monitors[m])
    && (forall n :: 0 <= n < |M.monitors| && Consumed(M, n) ==> Consumed(N, n))
  }

  lemma FollowsElsewhere(M: Machine, N: Machine, m: nat, rs: string, w0: uint32)
    requires Follows(M, m, rs, w0) && Elsewhere(M, N, m, rs)
    ensures Follows(N, m, rs, w0)
  {}

  lemma FollowsOtherFirst(env: Env, M: Machine, m: nat, rs: string, w0: uint32)
    requires Orderly(M) && Follows(M, m, rs, w0) && M.sink.Received? && M.sink.from != m
    requires M.sink.message.source.rsID != rs
    ensures Follows(FirstSection(env, M), m, rs, w0)
  {
    ObserveSpares(env, M.ctx, M.sink.message, rs);
    FollowsElsewhere(M, FirstSection(env, M), m, rs, w0);
  }

  lemma FollowsOtherSecond(env: Env, M: Machine, io: Io, m: nat, rs: string, w0: uint32)
    requires Orderly(M) && Sound(env, M.ctx) && Follows(M, m, rs, w0) && M.sink.Between? && M.sink.from != m
    ensures Follows(SecondSection(env, M, io), m, rs, w0)
  {
    OthersAreElsewhere(M, m, rs);
    SecondIsElsewhere(env, M, io, m, rs);
    FollowsElsewhere(M, SecondSection(env, M, io), m, rs, w0);
  }

  lemma SecondIsElsewhere(env: Env, M: Machine, io: Io, m: nat, rs: string)
    requires Watched(M, m, rs) && M.sink.Between? && M.sink.from != m && M.sink.message.source.rsID != rs
    ensures Elsewhere(M, SecondSection(env, M, io), m, rs)
  {
    var weight := WantedWeight(M.stash, M.sink.message);
    if weight.Some? {
      OtherUpdate(env, M.ctx, M.sink.message.source.rsID, weight.value, io, rs);
    }
  }

  lemma OtherUpdate(env: Env, st: State, qs: string, weight: uint32, io: Io, rs: string)
    requires rs in st.backends && qs != rs
    ensures var after := Apply(env, st, OpUpdateBackend(qs, weight, io)).0;
            && rs in after.backends && after.backends[rs] == st.backends[rs]
            && after.monitors == st.monitors && after.stopped == st.stopped
  {}

  /** The sink's second part is one step of the stash machine. */
  lemma FollowsOwnSecond(env: Env, M: Machine, io: Io, m: nat, rs: string, w0: uint32)
    requires Orderly(M) && Sound(env, M.ctx) && Follows(M, m, rs, w0) && M.sink.Between? && M.sink.from == m
    ensures Follows(SecondSection(env, M, io), m, rs, w0)
  {
    var h := History(M, m);
    MessageOfHistory(M, m);
    OwnSecondDelivers(env, M, io, m, rs);
    var N := SecondSection(env, M, io);
    OwnSecondHistory(env, M, io, m);
    FollowStep(w0, h, N.monitors[m].accepted);
  }

  lemma MessageOfHistory(M: Machine, m: nat)
    requires Orderly(M) && M.sink.Between? && M.sink.from == m
    ensures var u, h := M.sink.message, History(M, m);
            && h != [] && u.metrics.status == h[|h| - 1] && u.metrics.health == Health(Window(h))
            && Processed(M, m) == h[..|h| - 1]
  {
    SlidingWindow(M.monitors[m].start, M.monitors[m].beats);
    LastStatus(M.monitors[m].start, M.monitors[m].beats);
  }

  lemma OwnSecondHistory(env: Env, M: Machine, io: Io, m: nat)
    requires M.sink.Between? && M.sink.from == m && m < |M.monitors|
    ensures var N := SecondSection(env, M, io);
            m < |N.monitors| && Processed(N, m) == History(M, m)
  {}

  lemma FollowStep(w0: uint32, h: seq<Status>, oks: seq<bool>)
    requires h != [] && |oks| == |h|
    ensures var n := |h| - 1;
            Follow(w0, h, oks) == Deliver(Follow(w0, h[..n], oks[..n]), h[n], Health(Window(h)), oks[n])
  {}

  lemma LastStatus(start: int, beats: seq<Beat>)
    requires beats != []
    ensures var h := Statuses(beats); Feed(Initial(start), beats).status == h[|h| - 1]
  {}

  lemma OwnSecondDelivers(env: Env, M: Machine, io: Io, m: nat, rs: string)
    requires Orderly(M) && Sound(env, M.ctx) && Watched(M, m, rs) && M.sink.Between? && M.sink.from == m
    ensures var N := SecondSection(env, M, io);
            && Watched(N, m, rs)
            && |N.monitors[m].accepted| == |M.monitors[m].accepted| + 1
            && N.monitors[m].accepted[..|M.monitors[m].accepted|] == M.monitors[m].accepted
            && var ok := N.monitors[m].accepted[|M.monitors[m].accepted|];
               Course(N.ctx.backends[rs].options.spec.weight, StashEntry(N.stash, N.ctx.monitors[m])) ==
               Deliver(Course(M.ctx.backends[rs].options.spec.weight, StashEntry(M.stash, M.ctx.monitors[m])),
                       M.sink.message.metrics.status, M.sink.message.metrics.health, ok)
  {
    var weight := WantedWeight(M.stash, M.sink.message);
    if weight.Some? {
      var op := OpUpdateBackend(rs, weight.value, io);
      MonitorsGrow(env, M.ctx, op);
      OwnUpdate(env, M.ctx, rs, weight.value, io);
    }
  }

  lemma OwnUpdate(env: Env, st: State, rs: string, weight: uint32, io: Io)
    requires rs in st.backends
    ensures var (after, outcome) := Apply(env, st, OpUpdateBackend(rs, weight, io));
            && rs in after.backends && after.stopped == st.stopped
            && after.backends[rs].monitor == st.backends[rs].monitor
            && after.backends[rs].options.spec.weight == if outcome.Ok? then weight else st.backends[rs].options.spec.weight
  {}

  /** The run leaves backend rs alone from step k on. */
  predicate Undisturbed(env: Env, steps: seq<Step>, k: nat, rs: string) {
    forall i :: k <= i < |steps| ==>
      rs in After(env, START, steps[..i]).ctx.backends ==> StepSpares(After(env, START, steps[..i]), steps[i], rs)
  }

  /** On every interleaving, as long as nobody updates or removes backend rs by
      hand, it keeps following its own messages. */
  lemma {:induction false} KeepsFollowing(env: Env, steps: seq<Step>, k: nat, m: nat, rs: string, w0: uint32)
    requires k <= |steps| && Follows(After(env, START, steps[..k]), m, rs, w0) && Undisturbed(env, steps, k, rs)
    ensures Follows(After(env, START, steps), m, rs, w0)
  {
    if k == |steps| {
      assert steps[..k] == steps;
    } else {
      PrefixUndisturbed(env, steps, k, rs);
      assert steps[..|steps| - 1][..k] == steps[..k];
      KeepsFollowing(env, steps[..|steps| - 1], k, m, rs, w0);
      FollowsLast(env, steps, m, rs, w0);
    }
  }

  lemma FollowsLast(env: Env, steps: seq<Step>, m: nat, rs: string, w0: uint32)
    requires steps != [] && Follows(After(env, START, steps[..|steps| - 1]), m, rs, w0)
    requires StepSpares(After(env, START, steps[..|steps| - 1]), steps[|steps| - 1], rs)
    ensures Follows(After(env, START, steps), m, rs, w0)
  {
    var before := steps[..|steps| - 1];
    AlwaysOrderly(env, before);
    SoundAfter(env, before);
    FollowsKept(env, After(env, START, before), steps[|steps| - 1], m, rs, w0);
  }

  lemma SoundAfter(env: Env, steps: seq<Step>)
    ensures Sound(env, After(env, START, steps).ctx)
  {
    ContextRuns(env, steps);
    AlwaysSound(env, Trace(env, steps));
  }

  lemma PrefixUndisturbed(env: Env, steps: seq<Step>, k: nat, rs: string)
    requires k < |steps| && Undisturbed(env, steps, k, rs)
    ensures Undisturbed(env, steps[..|steps| - 1], k, rs)
    ensures rs in After(env, START, steps[..|steps| - 1]).ctx.backends ==>
              StepSpares(After(env, START, steps[..|steps| - 1]), steps[|steps| - 1], rs)
  {
    var n := |steps| - 1;
    forall i | k <= i < n ensures steps[..n][..i] == steps[..i] {}
  }

  lemma ProcessedAreProbes(M: Machine, m: nat, rs: string)
    requires Orderly(M) && Watched(M, m, rs)
    ensures Probes(Processed(M, m))
  {
    ProbesOfPrefix(History(M, m));
  }

  /** Weight conservation in the running system, under arbitrary kernel
      failures and interleavings: the weight the backend was created with is
      the stashed one, or the current one when nothing is stashed, and the
      current weight never exceeds it. */
  lemma WeightIsConserved(env: Env, steps: seq<Step>, m: nat, rs: string, w0: uint32)
    requires Follows(After(env, START, steps), m, rs, w0)
    ensures var M := After(env, START, steps);
            var entry := StashEntry(M.stash, M.ctx.monitors[m]);
            && (if entry.Some? then entry.value else M.ctx.backends[rs].options.spec.weight) == w0
            && M.ctx.backends[rs].options.spec.weight <= w0
  {
    var M := After(env, START, steps);
    AlwaysOrderly(env, steps);
    ProcessedAreProbes(M, m, rs);
    WeightConserved(w0, Processed(M, m), M.monitors[m].accepted);
  }

  /** The weight law in the running system: if the kernel accepted every weight
      change so far, the weight has its stateless meaning and the stash entry
      is there exactly while the window of processed messages holds a Down. */
  lemma WeightHasMeaning(env: Env, steps: seq<Step>, m: nat, rs: string, w0: uint32)
    requires w0 > 0 && Follows(After(env, START, steps), m, rs, w0)
    requires false !in After(env, START, steps).monitors[m].accepted
    ensures var M := After(env, START, steps);
            var h := Processed(M, m);
            && M.ctx.backends[rs].options.spec.weight == Weight(w0, h)
            && (M.ctx.monitors[m] in M.stash <==> Down in Window(h))
            && (M.ctx.monitors[m] in M.stash ==> M.stash[M.ctx.monitors[m]] == w0)
  {
    var M := After(env, START, steps);
    AlwaysOrderly(env, steps);
    ProcessedAreProbes(M, m, rs);
    NoRefusals(M.monitors[m].accepted);
    StashLaw(w0, Processed(M, m));
  }

  lemma NoRefusals(oks: seq<bool>)
    requires false !in oks
    ensures oks == AllOk(|oks|)
  {
    forall i | 0 <= i < |oks| ensures oks[i] { assert oks[i] in oks; }
  }
}
