/** What the context shows of a backend's metrics, and of a service's health, in
    the running system (core/runtime.go, core/context.go). */
module Displays {
  import opened Basics
  import opened Metrics
  import opened Options
  import opened Model
  import opened Effects
  import opened Runs
  import opened Stash
  import opened Runtime
  import opened RuntimeTheorems
  import opened WeightTheorems
  import opened Recreation
  import Sync
  import opened Context

  /** The next step of the sink stores the metrics of a message about rs. */
  predicate Stores(M: Machine, step: Step, rs: string) {
    && step.First? && M.sink.Received? && M.sink.message.source.rsID == rs
    && rs in M.ctx.backends && M.sink.message.metrics.status != Removed
  }

  /** The first critical section: an Up or Down about a registered backend is
      stored with it, and nothing else; any other message only clears the stash
      entry of its source. */
  lemma FirstStores(env: Env, M: Machine)
    requires M.sink.Received?
    ensures var N, u, rs := FirstSection(env, M), M.sink.message, M.sink.message.source.rsID;
            if Stores(M, First, rs) then
              && rs in N.ctx.backends && N.ctx.backends == M.ctx.backends[rs := N.ctx.backends[rs]]
              && N.ctx.backends[rs].metrics == u.metrics
              && N.ctx.backends[rs].options == M.ctx.backends[rs].options
              && N.ctx.backends[rs].monitor == M.ctx.backends[rs].monitor
              && N.ctx.(backends := M.ctx.backends) == M.ctx
              && N.stash == M.stash && N.sink == Between(M.sink.from, u)
            else
              && N.ctx == M.ctx && N.sink.Idle? && u.source !in N.stash
              && forall id :: id != u.source ==> StashEntry(N.stash, id) == StashEntry(M.stash, id)
  {}

  /** A backend shows no metrics when it is created, and only such a step
      changes what it shows. */
  lemma OnlyFirstStores(env: Env, M: Machine, step: Step, rs: string)
    requires rs in Stepped(env, M, step).ctx.backends
    ensures var shown := Stepped(env, M, step).ctx.backends[rs].metrics;
            && (rs !in M.ctx.backends ==> shown == Snapshot(Up, 0.0, 0, 0, []))
            && (rs in M.ctx.backends && !Stores(M, step, rs) ==> shown == M.ctx.backends[rs].metrics)
  {
    StepRuns(env, M, step);
    var ops := OpsOf(env, M, step);
    if ops != [] {
      OnlyObserving(env, M.ctx, ops[0], rs);
    }
  }

  lemma OnlyObserving(env: Env, st: State, op: Op, rs: string)
    requires rs in Apply(env, st, op).0.backends
    ensures var shown := Apply(env, st, op).0.backends[rs].metrics;
            && (rs !in st.backends ==> shown == Snapshot(Up, 0.0, 0, 0, []))
            && (rs in st.backends && !(op.OpObserve? && op.rsID == rs) ==> shown == st.backends[rs].metrics)
  {
    var e := EffectOf(env, st, op);
  }

  /** What monitor m has measured and the sink's first section has dealt with. */
  function Noticed(M: Machine, m: nat): seq<Beat>
    requires m < |M.monitors|
  {
    var beats := M.monitors[m].beats;
    if M.sink.Received? && M.sink.from == m && beats != [] then beats[..|beats| - 1] else beats
  }

  /** Backend rs is alive under monitor m alone and shows what that has
      measured, or nothing as long as none of it was noticed. */
  predicate Displays(M: Machine, m: nat, rs: string) {
    && Watched(M, m, rs)
    && M.ctx.backends[rs].metrics ==
       if Noticed(M, m) == [] then Snapshot(Up, 0.0, 0, 0, []) else Feed(Initial(M.monitors[m].start), Noticed(M, m))
  }

  lemma WatchedKept(env: Env, M: Machine, step: Step, m: nat, rs: string)
    requires Orderly(M) && Sound(env, M.ctx) && Watched(M, m, rs) && StepSpares(M, step, rs)
    ensures var N := Stepped(env, M, step);
            && Watched(N, m, rs) && N.monitors[m].start == M.monitors[m].start
            && (Stores(M, step, rs) ==> M.sink.from == m)
  {
    if CanStep(M, step) {
      match step
      case Api(op, now) => WatchedAfterApi(env, M, op, now, m, rs);
      case Send(n, status, ts) =>
      case First => WatchedAfterFirst(env, M, m, rs);
      case Second(io) => WatchedAfterSecond(env, M, io, m, rs);
    }
  }

  lemma WatchedAfterFirst(env: Env, M: Machine, m: nat, rs: string)
    requires Orderly(M) && Watched(M, m, rs) && M.sink.Received?
    ensures var N := FirstSection(env, M);
            && Watched(N, m, rs) && N.monitors[m].start == M.monitors[m].start
            && (Stores(M, First, rs) ==> M.sink.from == m)
  {
    FirstStores(env, M);
  }

  lemma WatchedAfterSecond(env: Env, M: Machine, io: Io, m: nat, rs: string)
    requires Orderly(M) && Watched(M, m, rs) && M.sink.Between?
    ensures var N := SecondSection(env, M, io);
            Watched(N, m, rs) && N.monitors[m].start == M.monitors[m].start
  {
    var weight := WantedWeight(M.stash, M.sink.message);
    if weight.Some? {
      ReweightingSpares(env, M.ctx, M.sink.message.source.rsID, weight.value, io, rs);
    }
  }

  lemma ReweightingSpares(env: Env, st: State, qs: string, weight: uint32, io: Io, rs: string)
    requires rs in st.backends
    ensures var after := Apply(env, st, OpUpdateBackend(qs, weight, io)).0;
            && rs in after.backends && after.backends[rs].monitor == st.backends[rs].monitor
            && after.monitors == st.monitors && after.stopped == st.stopped
  {}

  /** What the sink notices next is the whole of what m has measured. */
  lemma NoticedKept(env: Env, M: Machine, step: Step, m: nat, rs: string)
    requires Orderly(M) && Watched(M, m, rs) && m < |Stepped(env, M, step).monitors|
    ensures var N := Stepped(env, M, step);
            if Stores(M, step, rs) && M.sink.from == m
            then Noticed(N, m) == M.monitors[m].beats != [] && M.sink.message.metrics == M.monitors[m].Metrics()
            else Noticed(N, m) == Noticed(M, m)
  {
    if CanStep(M, step) {
      match step
      case Api(op, now) =>
      case Send(n, status, ts) => assert (M.monitors[n].beats + [Beat(status, ts)])[..|M.monitors[n].beats|] == M.monitors[n].beats;
      case First => FirstNotices(env, M, m, rs);
      case Second(io) =>
    }
  }

  lemma FirstNotices(env: Env, M: Machine, m: nat, rs: string)
    requires Orderly(M) && Watched(M, m, rs) && M.sink.Received?
    ensures var N := FirstSection(env, M);
            && m < |N.monitors| && N.monitors[m].beats == M.monitors[m].beats && !N.sink.Received?
            && (M.sink.from == m ==> Stores(M, First, rs) && M.sink.message.metrics == M.monitors[m].Metrics())
  {}

  lemma DisplaysKept(env: Env, M: Machine, step: Step, m: nat, rs: string)
    requires Orderly(M) && Sound(env, M.ctx) && Displays(M, m, rs) && StepSpares(M, step, rs)
    ensures Displays(Stepped(env, M, step), m, rs)
  {
    WatchedKept(env, M, step, m, rs);
    NoticedKept(env, M, step, m, rs);
    if Stores(M, step, rs) {
      FirstStores(env, M);
    } else {
      OnlyFirstStores(env, M, step, rs);
    }
  }

  /** On every interleaving, as long as nobody updates or removes backend rs by
      hand, it shows what its own monitor has measured. */
  lemma {:induction false} KeepsDisplaying(env: Env, steps: seq<Step>, k: nat, m: nat, rs: string)
    requires k <= |steps| && Displays(After(env, START, steps[..k]), m, rs) && Undisturbed(env, steps, k, rs)
    ensures Displays(After(env, START, steps), m, rs)
  {
    if k == |steps| {
      assert steps[..k] == steps;
    } else {
      PrefixUndisturbed(env, steps, k, rs);
      assert steps[..|steps| - 1][..k] == steps[..k];
      KeepsDisplaying(env, steps[..|steps| - 1], k, m, rs);
      DisplaysLast(env, steps, m, rs);
    }
  }

  lemma DisplaysLast(env: Env, steps: seq<Step>, m: nat, rs: string)
    requires steps != [] && Displays(After(env, START, steps[..|steps| - 1]), m, rs)
    requires StepSpares(After(env, START, steps[..|steps| - 1]), steps[|steps| - 1], rs)
    ensures Displays(After(env, START, steps), m, rs)
  {
    var before := steps[..|steps| - 1];
    AlwaysOrderly(env, before);
    SoundAfter(env, before);
    DisplaysKept(env, After(env, START, before), steps[|steps| - 1], m, rs);
  }

  /** It starts with the creation, once the earlier monitors of the id are over. */
  lemma CreationDisplays(env: Env, steps: seq<Step>, op: Op, now: int)
    requires Creates(env, After(env, START, steps), op)
    requires var M := After(env, START, steps); forall n: nat :: Earlier(M, n, op.rsID) ==> Consumed(M, n)
    ensures Displays(After(env, START, steps + [Api(op, now)]), |After(env, START, steps).monitors|, op.rsID)
  {
    var M := After(env, START, steps);
    AlwaysOrderly(env, steps);
    SoundAfter(env, steps);
    CreationStartsCourse(env, steps, op, now);
    AfterLast(env, START, steps, Api(op, now));
    var _ := CreationIsNewborn(env, M, op, now);
    CreatedFresh(env, M.ctx, op);
    OnlyFirstStores(env, M, Api(op, now), op.rsID);
  }

  /** The health shown is the share of Ups among the last 100 probes noticed, and
      the status the latest. */
  lemma HealthDisplayed(M: Machine, m: nat, rs: string)
    requires Orderly(M) && Displays(M, m, rs) && Noticed(M, m) != []
    ensures var h, shown := Statuses(Noticed(M, m)), M.ctx.backends[rs].metrics;
            && shown.status == h[|h| - 1] && Window(h) != []
            && shown.health == Ups(Window(h)) as real / |Window(h)| as real
            && (shown.health == 1.0 <==> Down !in Window(h))
  {
    var beats, start := Noticed(M, m), M.monitors[m].start;
    SlidingWindow(start, beats);
    LastStatus(start, beats);
    NoticedProbes(M, m);
    ProbesOfPrefix(Statuses(beats));
    HealthIsUpShare(Window(Statuses(beats)));
  }

  lemma NoticedProbes(M: Machine, m: nat)
    requires Orderly(M) && m < |M.monitors| && !M.monitors[m].done
    ensures Probes(Statuses(Noticed(M, m)))
  {
    if Noticed(M, m) != M.monitors[m].beats {
      ProbesOfPrefix(Statuses(M.monitors[m].beats));
    }
  }

  /** The share of Ups among the last 100 probes noticed of monitor m. */
  function UpShare(M: Machine, m: nat): real
    requires m < |M.monitors|
  {
    var w := Window(Statuses(Noticed(M, m)));
    if w == [] then 0.0 else Ups(w) as real / |w| as real
  }

  predicate AllDisplay(M: Machine, ids: seq<string>) {
    forall i :: 0 <= i < |ids| ==>
      ids[i] in M.ctx.backends && Displays(M, M.ctx.backends[ids[i]].monitor, ids[i])
  }

  function SumOfShares(M: Machine, ids: seq<string>): real
    requires AllDisplay(M, ids)
  {
    if ids == [] then 0.0
    else SumOfShares(M, ids[..|ids| - 1]) + UpShare(M, M.ctx.backends[ids[|ids| - 1]].monitor)
  }

  /** The health of a service, which GetService gives as the mean over its
      backends, is the mean of the shares of Ups their monitors have reported. */
  lemma ServiceHealthDisplayed(M: Machine, ids: seq<string>)
    requires Orderly(M) && AllDisplay(M, ids) && ids != []
    ensures Sync.Ids(ids) <= M.ctx.backends.Keys
    ensures MeanHealth(M.ctx, ids) == SumOfShares(M, ids) / |ids| as real
  {
    SharesAddUp(M, ids);
  }

  lemma {:induction false} SharesAddUp(M: Machine, ids: seq<string>)
    requires Orderly(M) && AllDisplay(M, ids)
    ensures Sync.Ids(ids) <= M.ctx.backends.Keys && HealthSum(M.ctx, ids) == SumOfShares(M, ids)
  {
    if ids != [] {
      var n := |ids| - 1;
      SharesAddUp(M, ids[..n]);
      OneShare(M, ids[n]);
    }
  }

  lemma OneShare(M: Machine, rs: string)
    requires Orderly(M) && rs in M.ctx.backends && Displays(M, M.ctx.backends[rs].monitor, rs)
    ensures M.ctx.backends[rs].metrics.health == UpShare(M, M.ctx.backends[rs].monitor)
  {
    if Noticed(M, M.ctx.backends[rs].monitor) != [] {
      HealthDisplayed(M, M.ctx.backends[rs].monitor, rs);
    }
  }
}
