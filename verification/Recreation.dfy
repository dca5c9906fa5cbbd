/** What becomes of a backend's weight when its id was in use before: when the
    new backend is sure to follow its own messages, and what else can happen
    (core/context.go, core/runtime.go, pulse/pulse.go). */
module Recreation {
  import opened Basics
  import opened Metrics
  import opened Options
  import opened IpvsTable
  import opened Model
  import opened Effects
  import opened Invariants
  import opened Runs
  import opened Stash
  import opened Runtime
  import opened RuntimeTheorems
  import opened WeightTheorems

  lemma AfterLast(env: Env, M: Machine, steps: seq<Step>, step: Step)
    ensures After(env, M, steps + [step]) == Stepped(env, After(env, M, steps), step)
  {
    assert (steps + [step])[..|steps|] == steps;
  }

  lemma {:induction false} AfterAppend(env: Env, M: Machine, a: seq<Step>, b: seq<Step>)
    ensures After(env, M, a + b) == After(env, After(env, M, a), b)
  {
    if b == [] {
      assert a + b == a;
    } else {
      var n := |b| - 1;
      AfterAppend(env, M, a, b[..n]);
      AfterLast(env, M, a + b[..n], b[n]);
      AfterLast(env, After(env, M, a), b[..n], b[n]);
      LastOff(a, b);
    }
  }

  /** Monitor n was started for an earlier backend called rs. */
  predicate Earlier(M: Machine, n: nat, rs: string) {
    n < |M.ctx.monitors| && n < |M.monitors| && M.ctx.monitors[n].rsID == rs
  }

  /** A backend creation that succeeds. */
  predicate Creates(env: Env, M: Machine, op: Op) {
    op.OpCreateBackend? && Apply(env, M.ctx, op).1.Ok?
  }

  /** The kernel accepts a new weight for the backend when it has no failure of
      its own. */
  predicate Fits(st: State, rs: string) {
    && rs in st.backends && ValidProtocol(BackKey(st, rs).protocol)
    && ValidForwarding(st.backends[rs].options.spec.fwd)
    && HasDest(st.kernel, BackKey(st, rs), BackDest(st, rs))
  }

  lemma CreatedEffect(env: Env, st: State, op: Op) returns (e: Effect)
    requires op.OpCreateBackend? && Apply(env, st, op).1.Ok?
    ensures e.NewBackend? && e.vsID == op.vsID && e.rsID == op.rsID && e.backend.spec.weight > 0
    ensures Enabled(env, st, e) && Alike(Apply(env, st, op).0, Change(env, st, e))
  {
    e := EffectOfCreateBackend(env, st, op.vsID, op.rsID, op.backend, op.io);
    CreatedWeight(env, st, op);
  }

  lemma CreatedWeight(env: Env, st: State, op: Op)
    requires op.OpCreateBackend? && CreateBackend(env, st, op.vsID, op.rsID, op.backend, op.io).1.Ok?
    ensures Labelled(st, op.vsID, PrepareBackend(env, op.backend).0).spec.weight > 0
  {
    WasReady(env, st, op);
    PrepareBackendNormalises(env, op.backend, []);
  }

  lemma WasReady(env: Env, st: State, op: Op)
    requires op.OpCreateBackend? && CreateBackend(env, st, op.vsID, op.rsID, op.backend, op.io).1.Ok?
    ensures PrepareBackend(env, op.backend).1.Ok?
  {}

  lemma CreatedFresh(env: Env, st: State, op: Op)
    requires op.OpCreateBackend? && Apply(env, st, op).1.Ok?
    ensures var after := Apply(env, st, op).0;
            && after.monitors == st.monitors + [PulseId(op.vsID, op.rsID)] && after.stopped == st.stopped
            && op.rsID in after.backends && after.backends[op.rsID].monitor == |st.monitors|
            && after.backends[op.rsID].options.spec.weight > 0
  {
    var e := CreatedEffect(env, st, op);
  }

  lemma CreatedFits(env: Env, st: State, op: Op)
    requires op.OpCreateBackend? && Apply(env, st, op).1.Ok? && Sound(env, st)
    ensures Fits(Apply(env, st, op).0, op.rsID)
  {
    var e := CreatedEffect(env, st, op);
    PlacedWhenWritten(env, st, e);
    var _ := SoundKept(env, st, op);
    assert Placed(Apply(env, st, op).0, op.rsID);
  }

  /** The machine after the creation: what the theorems below start from. */
  predicate Newborn(M: Machine, N: Machine, op: Op, w0: uint32)
    requires op.OpCreateBackend?
  {
    var m := |M.ctx.monitors|;
    && |M.monitors| == m && |N.monitors| == |N.ctx.monitors| == m + 1 && N.monitors[..m] == M.monitors
    && N.ctx.monitors == M.ctx.monitors + [PulseId(op.vsID, op.rsID)] && N.ctx.stopped == M.ctx.stopped
    && N.monitors[m].beats == [] && N.monitors[m].accepted == [] && !N.monitors[m].done
    && N.sink == M.sink && N.stash == M.stash
    && op.rsID in N.ctx.backends && N.ctx.backends[op.rsID].monitor == m
    && N.ctx.backends[op.rsID].options.spec.weight == w0 > 0
    && Fits(N.ctx, op.rsID)
  }

  lemma CreationIsNewborn(env: Env, M: Machine, op: Op, now: int) returns (w0: uint32)
    requires Orderly(M) && Sound(env, M.ctx) && Creates(env, M, op)
    ensures Newborn(M, Stepped(env, M, Api(op, now)), op, w0)
  {
    CreatedFresh(env, M.ctx, op);
    CreatedFits(env, M.ctx, op);
    w0 := Apply(env, M.ctx, op).0.backends[op.rsID].options.spec.weight;
  }

  /** The backend's weight is the one its own messages call for. */
  predicate OnCourse(M: Machine, m: nat, rs: string, w0: uint32) {
    && m < |M.monitors| && rs in M.ctx.backends && |M.monitors[m].accepted| == |Processed(M, m)|
    && M.ctx.backends[rs].options.spec.weight == Follow(w0, Processed(M, m), M.monitors[m].accepted).weight
  }

  /** The new backend has heard nothing yet, and the last message about its
      predecessor, Removed, is in the sink's hands. */
  predicate Waiting(M: Machine, m: nat, rs: string, w0: uint32) {
    && m < |M.monitors| && m < |M.ctx.monitors| && m !in M.ctx.stopped && !M.monitors[m].done
    && rs in M.ctx.backends && M.ctx.backends[rs].monitor == m && M.ctx.monitors[m].rsID == rs
    && M.monitors[m].beats == [] && M.monitors[m].accepted == []
    && M.ctx.backends[rs].options.spec.weight == w0
    && M.sink.Received? && M.sink.from != m && M.sink.message.metrics.status == Removed
    && (M.ctx.monitors[m] in M.stash ==> M.sink.message.source == M.ctx.monitors[m])
    && (forall n :: 0 <= n < |M.ctx.monitors| && n != m && n != M.sink.from && M.ctx.monitors[n].rsID == rs ==>
          Consumed(M, n))
  }

  lemma WaitingKept(env: Env, M: Machine, step: Step, m: nat, rs: string, w0: uint32)
    requires Orderly(M) && Sound(env, M.ctx) && Waiting(M, m, rs, w0) && StepSpares(M, step, rs)
    ensures var N := Stepped(env, M, step); Waiting(N, m, rs, w0) || Follows(N, m, rs, w0)
  {
    if CanStep(M, step) {
      match step
      case Api(op, now) => WaitingAfterApi(env, M, op, now, m, rs, w0);
      case First =>
    }
  }

  lemma WaitingAfterApi(env: Env, M: Machine, op: Op, now: int, m: nat, rs: string, w0: uint32)
    requires Orderly(M) && Sound(env, M.ctx) && Waiting(M, m, rs, w0) && Spares(M.ctx, op, rs)
    requires CanStep(M, Api(op, now))
    ensures Waiting(Next(env, M, Api(op, now)), m, rs, w0)
  {
    SparedStays(env, M.ctx, op, rs);
    MonitorsGrow(env, M.ctx, op);
    NoSecondMonitor(env, M.ctx, op, rs);
  }

  /** The new backend follows its own messages, or will once the message in the
      sink is dealt with. */
  predicate Underway(M: Machine, m: nat, rs: string, w0: uint32) {
    Follows(M, m, rs, w0) || Waiting(M, m, rs, w0)
  }

  lemma UnderwayIsOnCourse(M: Machine, m: nat, rs: string, w0: uint32)
    requires Underway(M, m, rs, w0)
    ensures OnCourse(M, m, rs, w0)
  {}

  lemma {:induction false} StaysUnderway(env: Env, steps: seq<Step>, k: nat, m: nat, rs: string, w0: uint32)
    requires k <= |steps| && Underway(After(env, START, steps[..k]), m, rs, w0) && Undisturbed(env, steps, k, rs)
    ensures Underway(After(env, START, steps), m, rs, w0)
  {
    if k == |steps| {
      assert steps[..k] == steps;
    } else {
      PrefixUndisturbed(env, steps, k, rs);
      assert steps[..|steps| - 1][..k] == steps[..k];
      StaysUnderway(env, steps[..|steps| - 1], k, m, rs, w0);
      UnderwayLast(env, steps, m, rs, w0);
    }
  }

  lemma UnderwayLast(env: Env, steps: seq<Step>, m: nat, rs: string, w0: uint32)
    requires steps != [] && Underway(After(env, START, steps[..|steps| - 1]), m, rs, w0)
    requires StepSpares(After(env, START, steps[..|steps| - 1]), steps[|steps| - 1], rs)
    ensures Underway(After(env, START, steps), m, rs, w0)
  {
    var before := steps[..|steps| - 1];
    AlwaysOrderly(env, before);
    SoundAfter(env, before);
    UnderwayStep(env, After(env, START, before), steps[|steps| - 1], m, rs, w0);
  }

  lemma UnderwayStep(env: Env, M: Machine, step: Step, m: nat, rs: string, w0: uint32)
    requires Orderly(M) && Sound(env, M.ctx) && Underway(M, m, rs, w0) && StepSpares(M, step, rs)
    ensures Underway(Stepped(env, M, step), m, rs, w0)
  {
    if Follows(M, m, rs, w0) {
      FollowsKept(env, M, step, m, rs, w0);
    } else {
      WaitingKept(env, M, step, m, rs, w0);
    }
  }

  /** If all earlier monitors of the id have sent their last message, the new
      backend is on its way. */
  lemma UnderwayAtBirth(env: Env, M: Machine, N: Machine, op: Op, w0: uint32)
    requires Orderly(M) && StashOwned(M) && StoppedKnown(M.ctx) && op.OpCreateBackend? && Newborn(M, N, op, w0)
    requires forall n: nat :: Earlier(M, n, op.rsID) ==> M.monitors[n].done
    ensures Underway(N, |M.ctx.monitors|, op.rsID, w0)
    ensures (forall n: nat :: Earlier(M, n, op.rsID) ==> Consumed(M, n)) ==> Follows(N, |M.ctx.monitors|, op.rsID, w0)
  {
    var m, rs, id := |M.ctx.monitors|, op.rsID, PulseId(op.vsID, op.rsID);
    if M.sink.Received? && Earlier(M, M.sink.from, rs) {
      LastWordPending(M, id);
      assert Waiting(N, m, rs, w0);
    } else {
      AllOver(M, rs);
      assert forall n :: !HasPending(M, id, n);
      assert Follows(N, m, rs, w0);
    }
  }

  /** Creating a backend starts such a course, at the positive weight Fill
      guarantees, once the Removed messages of all earlier monitors of that id
      have been consumed. */
  lemma CreationStartsCourse(env: Env, steps: seq<Step>, op: Op, now: int)
    requires Creates(env, After(env, START, steps), op)
    requires var M := After(env, START, steps); forall n: nat :: Earlier(M, n, op.rsID) ==> Consumed(M, n)
    ensures var M, N := After(env, START, steps), After(env, START, steps + [Api(op, now)]);
            && op.rsID in N.ctx.backends
            && var w0 := N.ctx.backends[op.rsID].options.spec.weight;
               w0 > 0 && Follows(N, |M.monitors|, op.rsID, w0)
  {
    var M := After(env, START, steps);
    AlwaysOrderly(env, steps);
    SoundAfter(env, steps);
    AfterLast(env, START, steps, Api(op, now));
    var w0 := CreationIsNewborn(env, M, op, now);
    UnderwayAtBirth(env, M, After(env, START, steps + [Api(op, now)]), op, w0);
  }

  lemma AllOver(M: Machine, rs: string)
    requires Orderly(M) && (forall n: nat :: Earlier(M, n, rs) ==> M.monitors[n].done)
    requires !(M.sink.Received? && Earlier(M, M.sink.from, rs))
    ensures forall n :: 0 <= n < |M.ctx.monitors| && M.ctx.monitors[n].rsID == rs ==> Consumed(M, n)
  {
    assert forall n :: 0 <= n < |M.ctx.monitors| && M.ctx.monitors[n].rsID == rs ==> Earlier(M, n, rs);
  }

  /** With one Removed message in the sink, only its id can still be stashed. */
  lemma LastWordPending(M: Machine, id: PulseId)
    requires Orderly(M) && StashOwned(M) && (forall n: nat :: Earlier(M, n, id.rsID) ==> M.monitors[n].done)
    requires M.sink.Received? && Earlier(M, M.sink.from, id.rsID)
    ensures M.sink.message.metrics.status == Removed
    ensures id in M.stash ==> M.sink.message.source == id
    ensures forall n :: 0 <= n < |M.ctx.monitors| && n != M.sink.from && M.ctx.monitors[n].rsID == id.rsID ==> Consumed(M, n)
  {
    forall n | 0 <= n < |M.ctx.monitors| && n != M.sink.from && M.ctx.monitors[n].rsID == id.rsID
      ensures Consumed(M, n)
    {
      assert Earlier(M, n, id.rsID);
    }
    if id in M.stash {
      var n :| HasPending(M, id, n);
      assert Earlier(M, n, id.rsID);
    }
  }

  /** Monitor k reports once, and the sink handles the message with a kernel
      that does not fail. */
  function Talk(k: nat, status: Status, ts: int): seq<Step> {
    [Send(k, status, ts), First, Second(CLEAN)]
  }

  function Heard(monitor: Monitor, status: Status, ts: int): Monitor {
    monitor.(beats := monitor.beats + [Beat(status, ts)], accepted := monitor.accepted + [true])
  }

  /** The weight of backend rs and the stash entry under monitor k's id. */
  function CourseOf(M: Machine, k: nat, rs: string): Course
    requires k < |M.ctx.monitors| && rs in M.ctx.backends
  {
    Course(M.ctx.backends[rs].options.spec.weight, StashEntry(M.stash, M.ctx.monitors[k]))
  }

  /** Monitor k, started for a backend called rs, can report on the backend of
      that name, whose it need not be any more. */
  predicate CanTalk(M: Machine, k: nat, rs: string) {
    && M.sink.Idle? && |M.monitors| == |M.ctx.monitors| && k < |M.monitors| && !M.monitors[k].done
    && M.ctx.monitors[k].rsID == rs && Fits(M.ctx, rs)
  }

  /** What such an exchange does. */
  ghost predicate Exchanged(M: Machine, N: Machine, k: nat, status: Status, ts: int, rs: string)
    requires CanTalk(M, k, rs)
  {
    && N.sink.Idle? && N.ctx.monitors == M.ctx.monitors && Fits(N.ctx, rs)
    && N.monitors == M.monitors[k := Heard(M.monitors[k], status, ts)]
    && CourseOf(N, k, rs) ==
       Deliver(CourseOf(M, k, rs), status, Health(Window(Statuses(M.monitors[k].beats) + [status])), true)
    && (forall id :: id != M.ctx.monitors[k] ==> StashEntry(N.stash, id) == StashEntry(M.stash, id))
  }

  lemma Exchange(env: Env, M: Machine, k: nat, status: Status, ts: int, rs: string)
    requires CanTalk(M, k, rs) && status != Removed
    ensures Exchanged(M, After(env, M, Talk(k, status, ts)), k, status, ts, rs)
  {
    var seen := FirstSection(env, Sent(M, k, status, ts));
    SeenAfterSend(env, M, k, status, ts, rs);
    HandledMessage(env, seen, rs);
    ExchangedBySteps(M, seen, SecondSection(env, seen, CLEAN), k, status, ts, rs);
    TalkHandled(env, M, k, status, ts, rs);
  }

  /** The machine between the two critical sections for this message. */
  predicate SeenFrom(M: Machine, seen: Machine, k: nat, status: Status, ts: int, rs: string)
    requires CanTalk(M, k, rs)
  {
    && seen.sink.Between? && seen.sink.from == k && seen.ctx.monitors == M.ctx.monitors && seen.stash == M.stash
    && seen.monitors == M.monitors[k := M.monitors[k].(beats := M.monitors[k].beats + [Beat(status, ts)])]
    && Fits(seen.ctx, rs) && seen.ctx.backends[rs].options == M.ctx.backends[rs].options
    && seen.sink.message.source == M.ctx.monitors[k] && seen.sink.message.metrics.status == status
    && seen.sink.message.metrics.health == Health(Window(Statuses(M.monitors[k].beats) + [status]))
  }

  lemma SeenAfterSend(env: Env, M: Machine, k: nat, status: Status, ts: int, rs: string)
    requires CanTalk(M, k, rs) && status != Removed
    ensures SeenFrom(M, FirstSection(env, Sent(M, k, status, ts)), k, status, ts, rs)
  {
    SentMessage(M, k, status, ts);
    ObservedFits(env, M.ctx, rs, Sent(M, k, status, ts).sink.message.metrics);
  }

  lemma ExchangedBySteps(M: Machine, seen: Machine, N: Machine, k: nat, status: Status, ts: int, rs: string)
    requires CanTalk(M, k, rs) && SeenFrom(M, seen, k, status, ts, rs)
    requires N.sink.Idle? && N.ctx.monitors == seen.ctx.monitors && Fits(N.ctx, rs)
    requires N.monitors == seen.monitors[k := seen.monitors[k].(accepted := seen.monitors[k].accepted + [true])]
    requires var u := seen.sink.message;
             && CourseOf(N, k, rs) == Deliver(CourseOf(seen, k, rs), u.metrics.status, u.metrics.health, true)
             && (forall id :: id != u.source ==> StashEntry(N.stash, id) == StashEntry(seen.stash, id))
    ensures Exchanged(M, N, k, status, ts, rs)
  {}

  lemma TalkHandled(env: Env, M: Machine, k: nat, status: Status, ts: int, rs: string)
    requires CanTalk(M, k, rs) && status != Removed
    ensures var sent := Sent(M, k, status, ts);
            var seen := FirstSection(env, sent);
            && seen.sink == Between(k, sent.sink.message)
            && After(env, M, Talk(k, status, ts)) == SecondSection(env, seen, CLEAN)
  {
    SeenAfterSend(env, M, k, status, ts, rs);
    ThreeSteps(env, M, Send(k, status, ts), First, Second(CLEAN));
  }

  lemma ThreeSteps(env: Env, M: Machine, a: Step, b: Step, c: Step)
    ensures After(env, M, [a, b, c]) == Stepped(env, Stepped(env, Stepped(env, M, a), b), c)
  {
    TwoSteps(env, M, a, b);
    AfterLast(env, M, [a, b], c);
    assert [a, b] + [c] == [a, b, c];
  }

  lemma SentMessage(M: Machine, k: nat, status: Status, ts: int)
    requires k < |M.monitors| && k < |M.ctx.monitors|
    ensures var u := Sent(M, k, status, ts).sink.message;
            && u.source == M.ctx.monitors[k] && u.metrics.status == status
            && u.metrics.health == Health(Window(Statuses(M.monitors[k].beats) + [status]))
  {
    var monitor := M.monitors[k];
    OneMoreBeat(monitor.start, monitor.beats, status, ts);
    SlidingWindow(monitor.start, monitor.beats + [Beat(status, ts)]);
  }

  lemma ObservedFits(env: Env, st: State, rs: string, metrics: Snapshot)
    requires Fits(st, rs)
    ensures var after := Apply(env, st, OpObserve(rs, metrics)).0;
            && Fits(after, rs) && after.monitors == st.monitors
            && after.backends[rs].options == st.backends[rs].options
  {}

  lemma ReweightedFits(env: Env, st: State, rs: string, weight: uint32)
    requires Fits(st, rs)
    ensures var (after, outcome) := Apply(env, st, OpUpdateBackend(rs, weight, CLEAN));
            && outcome.Ok? && Fits(after, rs) && after.monitors == st.monitors
            && after.backends[rs].options.spec.weight == weight
  {}

  lemma HandledMessage(env: Env, M: Machine, rs: string)
    requires M.sink.Between? && M.sink.message.source.rsID == rs && M.sink.message.metrics.status != Removed
    requires M.sink.from < |M.monitors| && M.sink.from < |M.ctx.monitors|
    requires M.ctx.monitors[M.sink.from] == M.sink.message.source && Fits(M.ctx, rs)
    ensures var N, k, u := SecondSection(env, M, CLEAN), M.sink.from, M.sink.message;
            && N.sink.Idle? && N.ctx.monitors == M.ctx.monitors && Fits(N.ctx, rs)
            && N.monitors == M.monitors[k := M.monitors[k].(accepted := M.monitors[k].accepted + [true])]
            && CourseOf(N, k, rs) == Deliver(CourseOf(M, k, rs), u.metrics.status, u.metrics.health, true)
            && (forall id :: id != u.source ==> StashEntry(N.stash, id) == StashEntry(M.stash, id))
  {
    var weight := WantedWeight(M.stash, M.sink.message);
    if weight.Some? {
      ReweightedFits(env, M.ctx, rs, weight.value);
    }
  }

  const REFUSE := CLEAN.(up := false)

  /** The sink finishes with the message it holds, while the kernel refuses any
      change of weight. */
  function Drain(M: Machine): seq<Step> {
    match M.sink
    case Idle => []
    case Between(_, _) => [Second(REFUSE)]
    case Received(_, u) =>
      if u.source.rsID !in M.ctx.backends || u.metrics.status == Removed then [First] else [First, Second(REFUSE)]
  }

  lemma Drained(env: Env, M: Machine, rs: string)
    requires |M.monitors| == |M.ctx.monitors| && Fits(M.ctx, rs)
    ensures var N := After(env, M, Drain(M));
            && N.sink.Idle? && N.ctx.monitors == M.ctx.monitors && |N.monitors| == |M.monitors| && Fits(N.ctx, rs)
            && N.ctx.backends[rs].options == M.ctx.backends[rs].options
            && (forall k :: 0 <= k < |M.monitors| ==>
                  N.monitors[k].done == M.monitors[k].done && N.monitors[k].beats == M.monitors[k].beats)
            && (forall k :: 0 <= k < |M.monitors| && !InFlight(M, k) ==> N.monitors[k] == M.monitors[k])
  {
    DrainEnds(env, M);
    if M.sink.Received? {
      DrainFirst(env, M, rs);
      if M.sink.message.source.rsID in M.ctx.backends && M.sink.message.metrics.status != Removed {
        DrainSecond(env, FirstSection(env, M), rs);
      }
    } else if M.sink.Between? {
      DrainSecond(env, M, rs);
    }
  }

  lemma DrainEnds(env: Env, M: Machine)
    requires |M.monitors| == |M.ctx.monitors|
    ensures After(env, M, Drain(M)) ==
            if M.sink.Idle? then M
            else if M.sink.Between? then SecondSection(env, M, REFUSE)
            else if FirstSection(env, M).sink.Between? then SecondSection(env, FirstSection(env, M), REFUSE)
            else FirstSection(env, M)
  {
    if M.sink.Between? {
      OneStep(env, M, Second(REFUSE));
    } else if M.sink.Received? {
      FirstKeepsCount(env, M);
      OneStep(env, M, First);
      TwoSteps(env, M, First, Second(REFUSE));
    }
  }

  lemma OneStep(env: Env, M: Machine, a: Step)
    ensures After(env, M, [a]) == Stepped(env, M, a)
  {
    AfterLast(env, M, [], a);
    assert [] + [a] == [a];
  }

  lemma TwoSteps(env: Env, M: Machine, a: Step, b: Step)
    ensures After(env, M, [a, b]) == Stepped(env, Stepped(env, M, a), b)
  {
    OneStep(env, M, a);
    AfterLast(env, M, [a], b);
    assert [a] + [b] == [a, b];
  }

  lemma FirstKeepsCount(env: Env, M: Machine)
    requires M.sink.Received? && |M.monitors| == |M.ctx.monitors|
    ensures var N := FirstSection(env, M); |N.monitors| == |N.ctx.monitors|
  {}

  lemma DrainFirst(env: Env, M: Machine, rs: string)
    requires |M.monitors| == |M.ctx.monitors| && Fits(M.ctx, rs) && M.sink.Received?
    ensures var N, u := FirstSection(env, M), M.sink.message;
            && N.ctx.monitors == M.ctx.monitors && |N.monitors| == |M.monitors| && Fits(N.ctx, rs)
            && N.ctx.backends[rs].options == M.ctx.backends[rs].options
            && (forall k :: 0 <= k < |M.monitors| ==>
                  N.monitors[k].done == M.monitors[k].done && N.monitors[k].beats == M.monitors[k].beats)
            && (forall k :: 0 <= k < |M.monitors| && k != M.sink.from ==> N.monitors[k] == M.monitors[k])
            && if u.source.rsID !in M.ctx.backends || u.metrics.status == Removed
               then N.sink.Idle? else N.sink == Between(M.sink.from, u)
  {}

  lemma DrainSecond(env: Env, M: Machine, rs: string)
    requires |M.monitors| == |M.ctx.monitors| && Fits(M.ctx, rs) && M.sink.Between?
    ensures var N := SecondSection(env, M, REFUSE);
            && N.ctx == M.ctx && N.sink.Idle? && |N.monitors| == |M.monitors|
            && (forall k :: 0 <= k < |M.monitors| ==>
                  N.monitors[k].done == M.monitors[k].done && N.monitors[k].beats == M.monitors[k].beats)
            && (forall k :: 0 <= k < |M.monitors| && k != M.sink.from ==> N.monitors[k] == M.monitors[k])
  {}

  /** What a weight has to be while the new backend has heard nothing, and after
      it has heard one Down that the kernel put into effect. */
  lemma CourseAtFirst(M: Machine, m: nat, rs: string, w0: uint32)
    requires M.sink.Idle? && m < |M.monitors| && rs in M.ctx.backends
    ensures M.monitors[m].beats == [] && M.monitors[m].accepted == [] ==>
              (OnCourse(M, m, rs, w0) <==> M.ctx.backends[rs].options.spec.weight == w0)
    ensures forall ts :: M.monitors[m].beats == [Beat(Down, ts)] && M.monitors[m].accepted == [true] ==>
              (OnCourse(M, m, rs, w0) <==> M.ctx.backends[rs].options.spec.weight == 0)
  {
    forall ts | M.monitors[m].beats == [Beat(Down, ts)] && M.monitors[m].accepted == [true]
      ensures OnCourse(M, m, rs, w0) <==> M.ctx.backends[rs].options.spec.weight == 0
    {
      OneDown(w0, ts);
    }
  }

  lemma OneDown(w0: uint32, ts: int)
    ensures Statuses([Beat(Down, ts)]) == [Down]
    ensures Follow(w0, [Down], [true]).weight == 0
  {
    assert [Beat(Down, ts)][..0] == [] && [Down][..0] == [] && [true][..0] == [];
    assert Follow(w0, [], []) == Course(w0, None);
  }

  /** A newborn backend under monitor m while monitor n, of an earlier backend
      of the same name, still reports; the sink is idle. */
  predicate Contested(M: Machine, m: nat, n: nat, rs: string, w0: uint32) {
    && m != n && CanTalk(M, m, rs) && CanTalk(M, n, rs)
    && M.monitors[m].beats == [] && M.monitors[m].accepted == []
    && M.ctx.backends[rs].options.spec.weight == w0 > 0
    && Probes(Statuses(M.monitors[n].beats))
  }

  predicate Quiet(steps: seq<Step>) {
    forall i :: 0 <= i < |steps| ==> !steps[i].Api?
  }

  /** `talk` lets a monitor report with the given status. */
  ghost predicate Exchanges(talk: (Machine, nat, Status) -> Machine) {
    forall M, k, status, rs :: CanTalk(M, k, rs) && status != Removed ==>
      Exchanged(M, talk(M, k, status), k, status, 0, rs)
  }

  lemma TalkOn(talk: (Machine, nat, Status) -> Machine, M: Machine, k: nat, status: Status, j: nat, rs: string)
    requires Exchanges(talk) && CanTalk(M, k, rs) && status != Removed && CanTalk(M, j, rs)
    ensures CanTalk(talk(M, k, status), j, rs) && Exchanged(M, talk(M, k, status), k, status, 0, rs)
  {}

  /** Where the two monitors can lead: one, two or three messages on. */
  ghost predicate SomewhereAstray(talk: (Machine, nat, Status) -> Machine, M: Machine, m: nat, n: nat, rs: string, w0: uint32) {
    var up := talk(M, n, Up);
    || !OnCourse(talk(M, m, Down), m, rs, w0) || !OnCourse(talk(M, n, Down), m, rs, w0) || !OnCourse(up, m, rs, w0)
    || !OnCourse(talk(up, n, Down), m, rs, w0) || !OnCourse(talk(talk(up, m, Down), n, Up), m, rs, w0)
  }

  lemma Astray(talk: (Machine, nat, Status) -> Machine, M: Machine, m: nat, n: nat, rs: string, w0: uint32)
    requires Exchanges(talk) && Contested(M, m, n, rs, w0)
    ensures SomewhereAstray(talk, M, m, n, rs, w0)
  {
    TalkOn(talk, M, m, Down, n, rs);
    TalkOn(talk, M, n, Down, n, rs);
    if M.ctx.monitors[m] in M.stash {
      AstrayByDown(M, talk(M, m, Down), m, n, m, rs, w0);
    } else if M.ctx.monitors[n] !in M.stash {
      AstrayByDown(M, talk(M, n, Down), m, n, n, rs, w0);
    } else {
      AstrayByEntry(talk, M, m, n, rs, w0);
    }
  }

  /** The new backend's own Down meets an entry already there, or one of the
      earlier monitor meets none. */
  lemma AstrayByDown(M: Machine, N: Machine, m: nat, n: nat, k: nat, rs: string, w0: uint32)
    requires Contested(M, m, n, rs, w0) && (k == m || k == n)
    requires M.ctx.monitors[k] in M.stash <==> k == m
    requires Exchanged(M, N, k, Down, 0, rs)
    ensures !OnCourse(N, m, rs, w0)
  {
    CourseAtFirst(N, m, rs, w0);
  }

  /** The earlier monitor has a stash entry of its own, under another service's
      id: an Up from it sets some weight; if that is the right one, it is wrong
      after the next message. */
  lemma AstrayByEntry(talk: (Machine, nat, Status) -> Machine, M: Machine, m: nat, n: nat, rs: string, w0: uint32)
    requires Exchanges(talk) && Contested(M, m, n, rs, w0)
    requires M.ctx.monitors[m] !in M.stash && M.ctx.monitors[n] in M.stash
    ensures SomewhereAstray(talk, M, m, n, rs, w0)
  {
    TalkOn(talk, M, n, Up, n, rs);
    TalkOn(talk, M, n, Up, m, rs);
    var N := talk(M, n, Up);
    CourseAtFirst(N, m, rs, w0);
    if N.ctx.backends[rs].options.spec.weight == w0 {
      if M.ctx.monitors[n] !in N.stash {
        TalkOn(talk, N, n, Down, n, rs);
        AstrayWhenGone(M, N, talk(N, n, Down), m, n, rs, w0);
      } else {
        TalkOn(talk, N, m, Down, n, rs);
        TalkOn(talk, talk(N, m, Down), n, Up, n, rs);
        TwiceUp(M, N, talk(N, m, Down), talk(talk(N, m, Down), n, Up), m, n, rs, w0);
      }
    }
  }

  lemma AstrayWhenGone(M: Machine, N: Machine, P: Machine, m: nat, n: nat, rs: string, w0: uint32)
    requires Contested(M, m, n, rs, w0) && Exchanged(M, N, n, Up, 0, rs) && M.ctx.monitors[n] !in N.stash
    requires CanTalk(N, n, rs) && Exchanged(N, P, n, Down, 0, rs)
    ensures !OnCourse(P, m, rs, w0)
  {
    CourseAtFirst(P, m, rs, w0);
  }

  lemma TwiceUp(M: Machine, N: Machine, P: Machine, Q: Machine, m: nat, n: nat, rs: string, w0: uint32)
    requires Contested(M, m, n, rs, w0) && M.ctx.monitors[m] !in M.stash && M.ctx.monitors[n] in M.stash
    requires Exchanged(M, N, n, Up, 0, rs) && N.ctx.backends[rs].options.spec.weight == w0 && M.ctx.monitors[n] in N.stash
    requires CanTalk(N, m, rs) && Exchanged(N, P, m, Down, 0, rs)
    requires CanTalk(P, n, rs) && Exchanged(P, Q, n, Up, 0, rs)
    ensures !OnCourse(Q, m, rs, w0)
  {
    var s, h := M.stash[M.ctx.monitors[n]], Statuses(M.monitors[n].beats);
    FirstUp(M, N, m, n, rs, w0);
    SecondUp(N, P, Q, m, n, rs, w0, s, h + [Up]);
    ScaleGrows(s, h + [Up]);
    CourseAtFirst(Q, m, rs, w0);
  }

  lemma FirstUp(M: Machine, N: Machine, m: nat, n: nat, rs: string, w0: uint32)
    requires Contested(M, m, n, rs, w0) && M.ctx.monitors[m] !in M.stash && M.ctx.monitors[n] in M.stash
    requires Exchanged(M, N, n, Up, 0, rs) && N.ctx.backends[rs].options.spec.weight == w0 && M.ctx.monitors[n] in N.stash
    ensures var s, h := M.stash[M.ctx.monitors[n]], Statuses(M.monitors[n].beats);
            && StashEntry(N.stash, N.ctx.monitors[n]) == Some(s) && Statuses(N.monitors[n].beats) == h + [Up]
            && Scale(s, Health(Window(h + [Up]))) == w0
    ensures N.monitors[m] == M.monitors[m] && N.ctx.monitors == M.ctx.monitors
  {
    OneMoreBeat(M.monitors[n].start, M.monitors[n].beats, Up, 0);
  }

  lemma SecondUp(N: Machine, P: Machine, Q: Machine, m: nat, n: nat, rs: string, w0: uint32, s: uint32, h: seq<Status>)
    requires m != n && CanTalk(N, m, rs) && Exchanged(N, P, m, Down, 0, rs)
    requires CanTalk(P, n, rs) && Exchanged(P, Q, n, Up, 0, rs)
    requires N.ctx.monitors[m] != N.ctx.monitors[n] && StashEntry(N.stash, N.ctx.monitors[n]) == Some(s)
    requires N.monitors[m].beats == [] && N.monitors[m].accepted == [] && Statuses(N.monitors[n].beats) == h
    ensures Q.sink.Idle? && m < |Q.monitors| && Q.monitors[m].beats == [Beat(Down, 0)] && Q.monitors[m].accepted == [true]
    ensures rs in Q.ctx.backends && Q.ctx.backends[rs].options.spec.weight == Scale(s, Health(Window(h + [Up])))
  {}

  /** Such a place can be reached without any further request. */
  lemma AstraySteps(env: Env, M: Machine, m: nat, n: nat, rs: string, w0: uint32) returns (more: seq<Step>)
    requires Contested(M, m, n, rs, w0)
    ensures Quiet(more) && !OnCourse(After(env, M, more), m, rs, w0)
  {
    var run := (A: Machine, steps: seq<Step>) => After(env, A, steps);
    var up, down, back := Talk(n, Up, 0), Talk(m, Down, 0), Talk(n, Down, 0);
    AfterAppend(env, M, up, back);
    AfterAppend(env, M, up, down);
    AfterAppend(env, M, up + down, up);
    var talk := (A: Machine, k: nat, status: Status) => run(A, Talk(k, status, 0));
    forall A, k, status, qs | CanTalk(A, k, qs) && status != Removed
      ensures Exchanged(A, talk(A, k, status), k, status, 0, qs)
    {
      Exchange(env, A, k, status, 0, qs);
    }
    Astray(talk, M, m, n, rs, w0);
    more := Script(run, talk, N => !OnCourse(N, m, rs, w0), M, m, n);
  }

  lemma Script(run: (Machine, seq<Step>) -> Machine, talk: (Machine, nat, Status) -> Machine, astray: Machine -> bool,
               M: Machine, m: nat, n: nat)
    returns (more: seq<Step>)
    requires var up, down, back := Talk(n, Up, 0), Talk(m, Down, 0), Talk(n, Down, 0);
             run(M, up + back) == run(run(M, up), back) && run(M, up + down + up) == run(run(run(M, up), down), up)
    requires forall A, k, status :: talk(A, k, status) == run(A, Talk(k, status, 0))
    requires var up := talk(M, n, Up);
             || astray(talk(M, m, Down)) || astray(talk(M, n, Down)) || astray(up)
             || astray(talk(up, n, Down)) || astray(talk(talk(up, m, Down), n, Up))
    ensures Quiet(more) && astray(run(M, more))
  {
    var up, down, back := Talk(n, Up, 0), Talk(m, Down, 0), Talk(n, Down, 0);
    more := if astray(talk(M, m, Down)) then down
            else if astray(talk(M, n, Down)) then back
            else if astray(talk(M, n, Up)) then up
            else if astray(talk(talk(M, n, Up), n, Down)) then up + back
            else up + down + up;
  }

  lemma QuietSpares(env: Env, steps: seq<Step>, more: seq<Step>, rs: string)
    requires Quiet(more)
    ensures Undisturbed(env, steps + more, |steps|, rs)
  {}

  /** If an earlier monitor of the id has yet to send its last message, some
      continuation that leaves the new backend alone leads its weight astray. */
  lemma PendingLeadsAstray(env: Env, M: Machine, N: Machine, op: Op, n: nat, w0: uint32) returns (more: seq<Step>)
    requires Orderly(M) && op.OpCreateBackend? && Newborn(M, N, op, w0)
    requires Earlier(M, n, op.rsID) && !M.monitors[n].done
    ensures Quiet(more) && !OnCourse(After(env, N, more), |M.ctx.monitors|, op.rsID, w0)
  {
    var m, rs, drain := |M.ctx.monitors|, op.rsID, Drain(N);
    Drained(env, N, rs);
    var D := After(env, N, drain);
    assert N.monitors[n] == M.monitors[n] && N.ctx.monitors[n] == M.ctx.monitors[n];
    assert !InFlight(N, m);
    more := AstraySteps(env, D, m, n, rs, w0);
    AfterAppend(env, N, drain, more);
    more := drain + more;
  }

  /** The machine's life after the steps so far and the creation. */
  ghost predicate NeverAstray(env: Env, steps: seq<Step>, m: nat, rs: string, w0: uint32) {
    forall more: seq<Step> :: Undisturbed(env, steps + more, |steps|, rs) ==>
      OnCourse(After(env, START, steps + more), m, rs, w0)
  }

  /** Re-creation, exactly: whatever else goes on, a new backend that nobody
      touches by hand keeps the weight its own messages call for, if and only if
      by the time of its creation every earlier monitor of its id had sent its
      last message. */
  lemma RecreationExactly(env: Env, steps: seq<Step>, op: Op, now: int)
    requires Creates(env, After(env, START, steps), op)
    ensures var M, N := After(env, START, steps), After(env, START, steps + [Api(op, now)]);
            && op.rsID in N.ctx.backends && N.ctx.backends[op.rsID].options.spec.weight > 0
            && (NeverAstray(env, steps + [Api(op, now)], |M.ctx.monitors|, op.rsID,
                            N.ctx.backends[op.rsID].options.spec.weight)
                <==> forall n: nat :: Earlier(M, n, op.rsID) ==> M.monitors[n].done)
  {
    var M, all := After(env, START, steps), steps + [Api(op, now)];
    AlwaysOrderly(env, steps);
    SoundAfter(env, steps);
    AfterLast(env, START, steps, Api(op, now));
    var N := After(env, START, all);
    var w0 := CreationIsNewborn(env, M, op, now);
    if forall n: nat :: Earlier(M, n, op.rsID) ==> M.monitors[n].done {
      UnderwayAtBirth(env, M, N, op, w0);
      UnderwayNeverAstray(env, all, |M.ctx.monitors|, op.rsID, w0);
    } else {
      var n: nat :| Earlier(M, n, op.rsID) && !M.monitors[n].done;
      var more := PendingLeadsAstray(env, M, N, op, n, w0);
      QuietSpares(env, all, more, op.rsID);
      AfterAppend(env, START, all, more);
    }
  }

  lemma UnderwayNeverAstray(env: Env, steps: seq<Step>, m: nat, rs: string, w0: uint32)
    requires Underway(After(env, START, steps), m, rs, w0)
    ensures NeverAstray(env, steps, m, rs, w0)
  {
    forall more: seq<Step> | Undisturbed(env, steps + more, |steps|, rs)
      ensures OnCourse(After(env, START, steps + more), m, rs, w0)
    {
      assert (steps + more)[..|steps|] == steps;
      StaysUnderway(env, steps + more, |steps|, m, rs, w0);
      UnderwayIsOnCourse(After(env, START, steps + more), m, rs, w0);
    }
  }
}
