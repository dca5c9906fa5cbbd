/** Runs that show what the program does not keep. Each is stated for any
    accepted options, with a kernel that never fails on its own unless it says
    so; Example gives such options. */
module Witnesses {
  import opened Basics
  import opened Net
  import opened Options
  import opened PulseOptions
  import opened Metrics
  import opened IpvsTable
  import opened Model
  import opened Effects
  import opened Invariants
  import opened Runs
  import opened Stash
  import opened Runtime
  import opened RuntimeTheorems
  import opened WeightTheorems
  import opened Recreation
  import Agreement
  import Context
  import opened Displays

  /** Options for a service and for a backend that fits it. */
  predicate Accepted(env: Env, s: ServiceOptions, b: BackendOptions) {
    && FillService(env, s).1.Ok? && PrepareBackend(env, b).1.Ok?
    && AddrFamily(PrepareBackend(env, b).0.ip) == AddrFamily(FillService(env, s).0.ip)
  }

  /** Every name resolves to 10.0.0.1 and every target can be probed. */
  const EXAMPLE := Env(_ => Some([10, 0, 0, 1]), None, (_, _, _) => true)

  function Web(): ServiceOptions {
    ServiceOptions(ServiceSpec("web", 80, "", "", "", false), [])
  }

  function Node(weight: uint32): BackendOptions {
    BackendOptions(BackendSpec("node", 8080, weight, "", None, ""), [])
  }

  lemma Example(weight: uint32)
    requires weight > 0
    ensures Accepted(EXAMPLE, Web(), Node(weight))
    ensures PrepareBackend(EXAMPLE, Node(weight)).0.spec.weight == weight
  {
    FillServiceMeaning(EXAMPLE, Web());
    PrepareBackendMeaning(EXAMPLE, Node(weight));
    ValidateMeaning(PulseSpec("", ""), 0);
  }

  /** One service without backends; monitors of earlier ones may remain. */
  predicate Bare(st: State, v: string, o: ServiceOptions) {
    && st.services == map[v := Service(0, 0, o)] && st.backends == map[] && st.store == None && st.nextRef > 0
    && KeyOf(o) in st.kernel && st.kernel[KeyOf(o)].dests == map[] && ValidProtocol(o.spec.protocol)
    && (forall m :: m in st.stopped ==> m < |st.monitors|)
  }

  /** The same with one backend, which has the latest monitor. */
  predicate Housed(st: State, v: string, rs: string, o: ServiceOptions, weight: uint32) {
    && st.services == map[v := Service(0, 0, o)] && st.backends.Keys == {rs} && st.store == None && st.nextRef > 0
    && st.backends[rs].service == st.services[v] && st.backends[rs].options.spec.weight == weight
    && |st.monitors| > 0 && st.backends[rs].monitor == |st.monitors| - 1
    && st.monitors[|st.monitors| - 1] == PulseId(v, rs)
    && KeyOf(o) in st.kernel && st.kernel[KeyOf(o)].dests.Keys == {BackDest(st, rs)}
    && ValidProtocol(o.spec.protocol) && ValidForwarding(st.backends[rs].options.spec.fwd)
    && (forall m :: m in st.stopped ==> m < |st.monitors| - 1)
  }

  lemma FirstService(env: Env, v: string, s: ServiceOptions)
    requires FillService(env, s).1.Ok?
    ensures var (st, outcome) := Apply(env, EMPTY, OpCreateService(v, s, CLEAN));
            outcome.Ok? && Bare(st, v, FillService(env, s).0) && st.monitors == [] && st.stopped == {}
  {
    FillServiceNormalises(env, s, []);
  }

  lemma MovesIn(env: Env, st: State, v: string, rs: string, o: ServiceOptions, b: BackendOptions)
    requires Bare(st, v, o) && PrepareBackend(env, b).1.Ok? && AddrFamily(PrepareBackend(env, b).0.ip) == AddrFamily(o.ip)
    ensures var (after, outcome) := Apply(env, st, OpCreateBackend(v, rs, b, CLEAN));
            && outcome.Ok? && Housed(after, v, rs, o, PrepareBackend(env, b).0.spec.weight)
            && after.monitors == st.monitors + [PulseId(v, rs)] && after.stopped == st.stopped
  {
    PrepareBackendNormalises(env, b, []);
    CreationAttaches(env, st, v, rs, b);
    Settles(st, v, rs, o, PrepareBackend(env, b).0);
  }

  lemma CreationAttaches(env: Env, st: State, v: string, rs: string, b: BackendOptions)
    requires PrepareBackend(env, b).1.Ok?
    ensures Apply(env, st, OpCreateBackend(v, rs, b, CLEAN)) == AttachBackend(st, v, rs, PrepareBackend(env, b).0, CLEAN)
  {}

  lemma Settles(st: State, v: string, rs: string, o: ServiceOptions, b: BackendOptions)
    requires Bare(st, v, o) && AddrFamily(b.ip) == AddrFamily(o.ip) && ValidForwarding(b.spec.fwd)
    ensures var (after, outcome) := AttachBackend(st, v, rs, b, CLEAN);
            && outcome.Ok? && Housed(after, v, rs, o, b.spec.weight)
            && after.monitors == st.monitors + [PulseId(v, rs)] && after.stopped == st.stopped
  {}

  lemma MovesOut(env: Env, st: State, v: string, rs: string, o: ServiceOptions, weight: uint32)
    requires Housed(st, v, rs, o, weight)
    ensures var (after, outcome) := Apply(env, st, OpRemoveBackend(rs, CLEAN));
            && outcome.Ok? && Bare(after, v, o) && after.monitors == st.monitors
            && after.stopped == st.stopped + {|st.monitors| - 1}
  {}

  /** The backend holds a service object that is not registered any more, at an
      address the kernel does not know any more. */
  predicate Stranded(st: State, v: string, rs: string) {
    && v !in st.services && rs in st.backends && BackKey(st, rs) !in st.kernel
    && st.backends[rs].monitor !in st.stopped
  }

  lemma UpdatedThenRemoved(env: Env, st: State, v: string, rs: string, s: ServiceOptions, weight: uint32)
    requires FillService(env, s).1.Ok? && Housed(st, v, rs, FillService(env, s).0, weight)
    ensures var (mid, updated) := Apply(env, st, OpUpdateService(v, s, CLEAN));
            var (after, removed) := Apply(env, mid, OpRemoveService(v, CLEAN));
            updated.Ok? && removed.Ok? && Stranded(after, v, rs)
  {
    var (mid, updated) := Apply(env, st, OpUpdateService(v, s, CLEAN));
    StaleAfterUpdate(env, st, v, rs, s, weight);
    assert Orphans(mid, mid.services[v]) == {};
  }

  lemma StaleAfterUpdate(env: Env, st: State, v: string, rs: string, s: ServiceOptions, weight: uint32)
    requires FillService(env, s).1.Ok? && Housed(st, v, rs, FillService(env, s).0, weight)
    ensures var (mid, updated) := Apply(env, st, OpUpdateService(v, s, CLEAN));
            && updated.Ok? && mid.backends == st.backends && mid.stopped == st.stopped && v in mid.services
            && mid.services[v].ref != st.backends[rs].service.ref && Key(mid, v) == Key(st, v) && Key(st, v) in mid.kernel
  {}

  function Creation(v: string, rs: string, s: ServiceOptions, b: BackendOptions): seq<Op> {
    [OpCreateService(v, s, CLEAN), OpCreateBackend(v, rs, b, CLEAN)]
  }

  lemma PairRun(env: Env, v: string, rs: string, s: ServiceOptions, b: BackendOptions)
    requires Accepted(env, s, b)
    ensures var st := Run(env, EMPTY, Creation(v, rs, s, b));
            Housed(st, v, rs, FillService(env, s).0, PrepareBackend(env, b).0.spec.weight) && st.stopped == {}
  {
    var first := OpCreateService(v, s, CLEAN);
    FirstService(env, v, s);
    MovesIn(env, Apply(env, EMPTY, first).0, v, rs, FillService(env, s).0, b);
    TwoOps(env, EMPTY, first, OpCreateBackend(v, rs, b, CLEAN));
  }

  lemma TwoOps(env: Env, st: State, first: Op, second: Op)
    ensures Run(env, st, [first, second]) == Apply(env, Apply(env, st, first).0, second).0
  {
    RunLast(env, st, [], first);
    RunLast(env, st, [first], second);
    assert [] + [first] == [first] && [first] + [second] == [first, second];
  }

  /** Updating a service and then removing it leaves its backend behind without
      a destination; nothing fails on the way. */
  lemma StaleRun(env: Env, v: string, rs: string, s: ServiceOptions, b: BackendOptions)
    requires Accepted(env, s, b)
    ensures var ops := Creation(v, rs, s, b) + [OpUpdateService(v, s, CLEAN), OpRemoveService(v, CLEAN)];
            Stranded(Run(env, EMPTY, ops), v, rs) && !BackendsInKernel(Run(env, EMPTY, ops))
  {
    PairRun(env, v, rs, s, b);
    var st := Run(env, EMPTY, Creation(v, rs, s, b));
    UpdatedThenRemoved(env, st, v, rs, s, PrepareBackend(env, b).0.spec.weight);
    TwoOps(env, st, OpUpdateService(v, s, CLEAN), OpRemoveService(v, CLEAN));
    RunAppend(env, EMPTY, Creation(v, rs, s, b), [OpUpdateService(v, s, CLEAN), OpRemoveService(v, CLEAN)]);
    StrandedIsNotPlaced(Run(env, EMPTY, Creation(v, rs, s, b) + [OpUpdateService(v, s, CLEAN), OpRemoveService(v, CLEAN)]), v, rs);
  }

  lemma StrandedIsNotPlaced(st: State, v: string, rs: string)
    requires Stranded(st, v, rs)
    ensures !BackendsInKernel(st)
  {
    assert !Placed(st, rs);
  }

  /** Removing what such a run leaves behind fails, and trying again panics:
      no failure of the kernel's own is needed for either. */
  lemma StrandedPanics(env: Env, st: State, v: string, rs: string)
    requires Stranded(st, v, rs)
    ensures var (after, outcome) := Apply(env, st, OpRemoveBackend(rs, CLEAN));
            outcome == Err(ErrIpvsSyscallFailed) && Apply(env, after, OpRemoveBackend(rs, CLEAN)).1 == Err(Panic)
  {}

  /** A failed DelDestPort, a second attempt that panics, and the removal of the
      service, whose clean-up panics too: the process goes on, with a registered
      backend the kernel knows nothing about. */
  lemma PanicRun(env: Env, v: string, rs: string, s: ServiceOptions, b: BackendOptions)
    requires Accepted(env, s, b)
    ensures var refused := OpRemoveBackend(rs, CLEAN.(up := false));
            var st := Run(env, EMPTY, Creation(v, rs, s, b));
            var (st1, first) := Apply(env, st, refused);
            var (st2, second) := Apply(env, st1, OpRemoveBackend(rs, CLEAN));
            var (st3, third) := Apply(env, st2, OpRemoveService(v, CLEAN));
            && first == Err(ErrIpvsSyscallFailed) && second == Err(Panic) && third == Err(Panic)
            && v !in st3.services && rs in st3.backends && BackKey(st3, rs) !in st3.kernel
  {
    PairRun(env, v, rs, s, b);
    PanicsOn(env, Run(env, EMPTY, Creation(v, rs, s, b)), v, rs, FillService(env, s).0, PrepareBackend(env, b).0.spec.weight);
  }

  lemma PanicsOn(env: Env, st: State, v: string, rs: string, o: ServiceOptions, weight: uint32)
    requires Housed(st, v, rs, o, weight)
    ensures var (st1, first) := Apply(env, st, OpRemoveBackend(rs, CLEAN.(up := false)));
            var (st2, second) := Apply(env, st1, OpRemoveBackend(rs, CLEAN));
            var (st3, third) := Apply(env, st2, OpRemoveService(v, CLEAN));
            && first == Err(ErrIpvsSyscallFailed) && second == Err(Panic) && third == Err(Panic)
            && v !in st3.services && rs in st3.backends && BackKey(st3, rs) !in st3.kernel
  {
    var st1 := Apply(env, st, OpRemoveBackend(rs, CLEAN.(up := false))).0;
    var st2 := Apply(env, st1, OpRemoveBackend(rs, CLEAN)).0;
    assert st2.services == st.services && st2.backends == st.backends && st2.kernel == st.kernel;
    assert st2.backends[rs].monitor in st2.stopped;
    CutShort(st2, v, rs);
  }

  lemma CutShort(st: State, v: string, rs: string)
    requires v in st.services && rs in st.backends && st.backends[rs].service == st.services[v]
    requires st.backends[rs].monitor in st.stopped && Key(st, v) in st.kernel && ValidProtocol(Key(st, v).protocol)
    ensures var (after, outcome) := RemoveService(st, v, CLEAN);
            outcome == Err(Panic) && v !in after.services && rs in after.backends && BackKey(after, rs) !in after.kernel
  {
    var orphans := Orphans(st, st.services[v]);
    assert rs in orphans && st.backends[rs].monitor in MonitorsOf(st, orphans);
  }

  /** The second of two services at one address is refused by the kernel after
      it was written to the store. */
  lemma RefusedRun(env: Env, v: string, w: string, s: ServiceOptions)
    requires v != w && FillService(env, s).1.Ok?
    ensures var st := Run(env, EMPTY, [OpSetStore(Kv(map[], map[])), OpCreateService(v, s, CLEAN)]);
            var (after, outcome) := Apply(env, st, OpCreateService(w, s, CLEAN));
            && Agreement.Agrees(st) && outcome == Err(ErrIpvsSyscallFailed) && !Agreement.Agrees(after)
            && w in after.store.value.services && w !in after.services
  {
    var kv := Kv(map[], map[]);
    var start, o := EMPTY.(store := Some(kv)), FillService(env, s).0;
    FillServiceNormalises(env, s, []);
    CreationRegisters(env, start, v, s);
    CreationRegisters(env, RegisterService(start, v, o, CLEAN).0, w, s);
    RefusedSecond(start, v, w, o);
    AttachThenCreate(env, kv, OpCreateService(v, s, CLEAN));
  }

  lemma AttachThenCreate(env: Env, kv: Kv, op: Op)
    ensures Run(env, EMPTY, [OpSetStore(kv), op]) == Apply(env, EMPTY.(store := Some(kv)), op).0
  {
    TwoOps(env, EMPTY, OpSetStore(kv), op);
  }

  lemma CreationRegisters(env: Env, st: State, v: string, s: ServiceOptions)
    requires FillService(env, s).1.Ok?
    ensures Apply(env, st, OpCreateService(v, s, CLEAN)) == RegisterService(st, v, FillService(env, s).0, CLEAN)
  {}

  lemma RefusedSecond(st: State, v: string, w: string, o: ServiceOptions)
    requires st == EMPTY.(store := Some(Kv(map[], map[]))) && v != w && ValidProtocol(o.spec.protocol)
    ensures var mid := RegisterService(st, v, o, CLEAN).0;
            var (after, outcome) := RegisterService(mid, w, o, CLEAN);
            && Agreement.Agrees(mid) && outcome == Err(ErrIpvsSyscallFailed) && !Agreement.Agrees(after)
            && w in after.store.value.services && w !in after.services
  {}

  lemma HousedFits(st: State, v: string, rs: string, o: ServiceOptions, weight: uint32)
    requires Housed(st, v, rs, o, weight)
    ensures Fits(st, rs)
  {}

  lemma StaysHoused(env: Env, st: State, v: string, rs: string, o: ServiceOptions, weight: uint32, metrics: Snapshot, now: uint32)
    requires Housed(st, v, rs, o, weight)
    ensures Housed(Apply(env, st, OpObserve(rs, metrics)).0, v, rs, o, weight)
    ensures var after := Apply(env, st, OpUpdateBackend(rs, now, CLEAN)).0;
            Housed(after, v, rs, o, now) && after.stopped == st.stopped
  {}

  lemma TalkKeepsHouse(env: Env, M: Machine, k: nat, status: Status, ts: int, v: string, rs: string, o: ServiceOptions, weight: uint32)
    requires CanTalk(M, k, rs) && status != Removed && Housed(M.ctx, v, rs, o, weight)
    ensures var N := After(env, M, Talk(k, status, ts));
            rs in N.ctx.backends && Housed(N.ctx, v, rs, o, N.ctx.backends[rs].options.spec.weight)
  {
    var sent := Sent(M, k, status, ts);
    TalkHandled(env, M, k, status, ts, rs);
    SentMessage(M, k, status, ts);
    StaysHoused(env, M.ctx, v, rs, o, weight, sent.sink.message.metrics, 0);
    HandlingKeepsHouse(env, FirstSection(env, sent), v, rs, o, weight);
  }

  lemma HandlingKeepsHouse(env: Env, M: Machine, v: string, rs: string, o: ServiceOptions, weight: uint32)
    requires M.sink.Between? && M.sink.message.source.rsID == rs && Housed(M.ctx, v, rs, o, weight)
    ensures var N := SecondSection(env, M, CLEAN);
            rs in N.ctx.backends && Housed(N.ctx, v, rs, o, N.ctx.backends[rs].options.spec.weight)
  {
    var wanted := WantedWeight(M.stash, M.sink.message);
    if wanted.Some? {
      StaysHoused(env, M.ctx, v, rs, o, weight, M.sink.message.metrics, wanted.value);
    }
  }

  function FirstHalf(v: string, rs: string, s: ServiceOptions, b: BackendOptions): seq<Step> {
    [Api(OpCreateService(v, s, CLEAN), 0), Api(OpCreateBackend(v, rs, b, CLEAN), 0)] + Talk(0, Down, 1)
  }

  /** A backend is created, goes down and is removed; another one is created
      under its id and reports Up before its predecessor's last message. */
  function Leftover(v: string, rs: string, s: ServiceOptions, old_: BackendOptions, new_: BackendOptions): seq<Step> {
    FirstHalf(v, rs, s, old_)
    + [Api(OpRemoveBackend(rs, CLEAN), 2), Api(OpCreateBackend(v, rs, new_, CLEAN), 2)] + Talk(1, Up, 3)
  }

  /** Then the new backend is left with the weight of the old one, whatever its
      own, and nothing in the stash will change that. */
  lemma LeftoverRun(env: Env, v: string, rs: string, s: ServiceOptions, old_: BackendOptions, new_: BackendOptions)
    requires Accepted(env, s, old_) && Accepted(env, s, new_)
    ensures var M := After(env, START, Leftover(v, rs, s, old_, new_));
            && rs in M.ctx.backends && M.ctx.backends[rs].monitor == 1
            && M.ctx.backends[rs].options.spec.weight == PrepareBackend(env, old_).0.spec.weight
            && PulseId(v, rs) !in M.stash
  {
    var again := [Api(OpRemoveBackend(rs, CLEAN), 2), Api(OpCreateBackend(v, rs, new_, CLEAN), 2)];
    DownAndStashed(env, v, rs, s, old_);
    SecondLife(env, After(env, START, FirstHalf(v, rs, s, old_)), v, rs, FillService(env, s).0, new_,
               PrepareBackend(env, old_).0.spec.weight);
    AfterAppend(env, START, FirstHalf(v, rs, s, old_), again);
    AfterAppend(env, START, FirstHalf(v, rs, s, old_) + again, Talk(1, Up, 3));
  }

  lemma SecondLife(env: Env, M: Machine, v: string, rs: string, o: ServiceOptions, b: BackendOptions, entry: uint32)
    requires rs in M.ctx.backends && Housed(M.ctx, v, rs, o, M.ctx.backends[rs].options.spec.weight)
    requires M.ctx.monitors == [PulseId(v, rs)] && |M.monitors| == 1 && M.sink.Idle?
    requires StashEntry(M.stash, PulseId(v, rs)) == Some(entry)
    requires PrepareBackend(env, b).1.Ok? && AddrFamily(PrepareBackend(env, b).0.ip) == AddrFamily(o.ip)
    ensures var again := [Api(OpRemoveBackend(rs, CLEAN), 2), Api(OpCreateBackend(v, rs, b, CLEAN), 2)];
            var N := After(env, After(env, M, again), Talk(1, Up, 3));
            && rs in N.ctx.backends && N.ctx.backends[rs].monitor == 1
            && N.ctx.backends[rs].options.spec.weight == entry && PulseId(v, rs) !in N.stash
  {
    var again := [Api(OpRemoveBackend(rs, CLEAN), 2), Api(OpCreateBackend(v, rs, b, CLEAN), 2)];
    SceneTwo(env, M, v, rs, o, b);
    ComesUp(env, After(env, M, again), v, rs, o, PrepareBackend(env, b).0.spec.weight, entry);
  }

  lemma DownAndStashed(env: Env, v: string, rs: string, s: ServiceOptions, b: BackendOptions)
    requires Accepted(env, s, b)
    ensures var N := After(env, START, FirstHalf(v, rs, s, b));
            && rs in N.ctx.backends
            && Housed(N.ctx, v, rs, FillService(env, s).0, N.ctx.backends[rs].options.spec.weight)
            && N.ctx.monitors == [PulseId(v, rs)] && |N.monitors| == 1 && N.sink.Idle?
            && StashEntry(N.stash, PulseId(v, rs)) == Some(PrepareBackend(env, b).0.spec.weight)
  {
    var creation := [Api(OpCreateService(v, s, CLEAN), 0), Api(OpCreateBackend(v, rs, b, CLEAN), 0)];
    SceneOne(env, v, rs, s, b);
    GoesDown(env, After(env, START, creation), v, rs, FillService(env, s).0, PrepareBackend(env, b).0.spec.weight);
    AfterAppend(env, START, creation, Talk(0, Down, 1));
  }

  lemma GoesDown(env: Env, M: Machine, v: string, rs: string, o: ServiceOptions, weight: uint32)
    requires Housed(M.ctx, v, rs, o, weight) && M.ctx.monitors == [PulseId(v, rs)]
    requires M.monitors == [Monitor(0, [], false, [])] && M.sink.Idle? && M.stash == map[]
    ensures var N := After(env, M, Talk(0, Down, 1));
            && rs in N.ctx.backends && Housed(N.ctx, v, rs, o, N.ctx.backends[rs].options.spec.weight)
            && N.ctx.monitors == [PulseId(v, rs)] && |N.monitors| == 1
            && N.sink.Idle? && StashEntry(N.stash, PulseId(v, rs)) == Some(weight)
  {
    HousedFits(M.ctx, v, rs, o, weight);
    Exchange(env, M, 0, Down, 1, rs);
    TalkKeepsHouse(env, M, 0, Down, 1, v, rs, o, weight);
  }

  lemma ComesUp(env: Env, M: Machine, v: string, rs: string, o: ServiceOptions, weight: uint32, entry: uint32)
    requires Housed(M.ctx, v, rs, o, weight) && M.ctx.monitors == [PulseId(v, rs), PulseId(v, rs)] && |M.monitors| == 2
    requires M.monitors[1] == Monitor(2, [], false, []) && M.sink.Idle?
    requires StashEntry(M.stash, PulseId(v, rs)) == Some(entry)
    ensures var N := After(env, M, Talk(1, Up, 3));
            && rs in N.ctx.backends && N.ctx.backends[rs].monitor == 1
            && N.ctx.backends[rs].options.spec.weight == entry && PulseId(v, rs) !in N.stash
  {
    HousedFits(M.ctx, v, rs, o, weight);
    Exchange(env, M, 1, Up, 3, rs);
    TalkKeepsHouse(env, M, 1, Up, 3, v, rs, o, weight);
    EntryTakesOver(M, After(env, M, Talk(1, Up, 3)), rs, entry);
  }

  lemma EntryTakesOver(M: Machine, N: Machine, rs: string, entry: uint32)
    requires CanTalk(M, 1, rs) && Exchanged(M, N, 1, Up, 3, rs) && M.monitors[1].beats == []
    requires StashEntry(M.stash, M.ctx.monitors[1]) == Some(entry)
    ensures N.ctx.backends[rs].options.spec.weight == entry && M.ctx.monitors[1] !in N.stash
  {
    FullHealth(entry);
  }

  lemma FullHealth(weight: uint32)
    ensures Statuses([]) == [] && Scale(weight, Health(Window([] + [Up]))) == weight
  {
    UpAlone();
    ScaleIsFloor(weight, 1.0, weight);
  }

  lemma TwoApis(env: Env, M: Machine, first: Op, second: Op, now: int)
    requires |M.monitors| == |M.ctx.monitors| && !first.OpObserve? && !second.OpObserve?
    ensures var N := After(env, M, [Api(first, now), Api(second, now)]);
            var mid := Apply(env, M.ctx, first).0;
            && N.ctx == Apply(env, mid, second).0
            && N.sink == M.sink && N.stash == M.stash
            && N.monitors == Started(Started(M.monitors, |mid.monitors|, now), |N.ctx.monitors|, now)
  {
    MonitorsGrow(env, M.ctx, first);
    OneApi(env, M, first, now);
    OneApi(env, After(env, M, [Api(first, now)]), second, now);
    AfterAppend(env, M, [Api(first, now)], [Api(second, now)]);
    assert [Api(first, now)] + [Api(second, now)] == [Api(first, now), Api(second, now)];
  }

  lemma OneApi(env: Env, M: Machine, op: Op, now: int)
    requires |M.monitors| == |M.ctx.monitors| && !op.OpObserve?
    ensures After(env, M, [Api(op, now)]) == Next(env, M, Api(op, now))
  {
    AfterLast(env, M, [], Api(op, now));
    assert [] + [Api(op, now)] == [Api(op, now)];
  }

  lemma SceneOne(env: Env, v: string, rs: string, s: ServiceOptions, b: BackendOptions)
    requires Accepted(env, s, b)
    ensures var M := After(env, START, [Api(OpCreateService(v, s, CLEAN), 0), Api(OpCreateBackend(v, rs, b, CLEAN), 0)]);
            && Housed(M.ctx, v, rs, FillService(env, s).0, PrepareBackend(env, b).0.spec.weight)
            && M.ctx.monitors == [PulseId(v, rs)] && M.monitors == [Monitor(0, [], false, [])]
            && M.sink.Idle? && M.stash == map[]
  {
    FirstService(env, v, s);
    MovesIn(env, Apply(env, EMPTY, OpCreateService(v, s, CLEAN)).0, v, rs, FillService(env, s).0, b);
    TwoApis(env, START, OpCreateService(v, s, CLEAN), OpCreateBackend(v, rs, b, CLEAN), 0);
  }

  lemma SceneTwo(env: Env, M: Machine, v: string, rs: string, o: ServiceOptions, b: BackendOptions)
    requires rs in M.ctx.backends && Housed(M.ctx, v, rs, o, M.ctx.backends[rs].options.spec.weight)
    requires |M.monitors| == |M.ctx.monitors| == 1
    requires PrepareBackend(env, b).1.Ok? && AddrFamily(PrepareBackend(env, b).0.ip) == AddrFamily(o.ip)
    ensures var N := After(env, M, [Api(OpRemoveBackend(rs, CLEAN), 2), Api(OpCreateBackend(v, rs, b, CLEAN), 2)]);
            && Housed(N.ctx, v, rs, o, PrepareBackend(env, b).0.spec.weight)
            && N.ctx.monitors == M.ctx.monitors + [PulseId(v, rs)]
            && N.monitors == M.monitors + [Monitor(2, [], false, [])]
            && N.sink == M.sink && N.stash == M.stash
  {
    MovesOut(env, M.ctx, v, rs, o, M.ctx.backends[rs].options.spec.weight);
    MovesIn(env, Apply(env, M.ctx, OpRemoveBackend(rs, CLEAN)).0, v, rs, o, b);
    TwoApis(env, M, OpRemoveBackend(rs, CLEAN), OpCreateBackend(v, rs, b, CLEAN), 2);
  }

  /** A weight of 7 asked for, 100 in effect. */
  lemma HundredForSeven(v: string, rs: string)
    ensures var M := After(EXAMPLE, START, Leftover(v, rs, Web(), Node(100), Node(7)));
            rs in M.ctx.backends && M.ctx.backends[rs].options.spec.weight == 100
    ensures PrepareBackend(EXAMPLE, Node(7)).0.spec.weight == 7
  {
    Example(100);
    Example(7);
    LeftoverRun(EXAMPLE, v, rs, Web(), Node(100), Node(7));
  }

  /** A backend shows health 0 and then, once its first Up is handled, 1; so does
      its service. */
  lemma FirstUpShows(env: Env, v: string, rs: string, s: ServiceOptions, b: BackendOptions)
    requires Accepted(env, s, b)
    ensures var creation := [Api(OpCreateService(v, s, CLEAN), 0), Api(OpCreateBackend(v, rs, b, CLEAN), 0)];
            var M, N := After(env, START, creation), After(env, START, creation + Talk(0, Up, 1));
            && rs in M.ctx.backends && M.ctx.backends[rs].metrics.health == 0.0
            && rs in N.ctx.backends && N.ctx.backends[rs].metrics.health == 1.0
            && Context.MeanHealth(N.ctx, [rs]) == 1.0
  {
    var creation := [Api(OpCreateService(v, s, CLEAN), 0), Api(OpCreateBackend(v, rs, b, CLEAN), 0)];
    var M := After(env, START, creation);
    SceneOne(env, v, rs, s, b);
    UpShows(env, M, v, rs, FillService(env, s).0, PrepareBackend(env, b).0.spec.weight);
    AfterAppend(env, START, creation, Talk(0, Up, 1));
    OneBackend(After(env, M, Talk(0, Up, 1)).ctx, rs);
    NothingShownYet(env, v, rs, s, b);
  }

  lemma NothingShownYet(env: Env, v: string, rs: string, s: ServiceOptions, b: BackendOptions)
    requires Accepted(env, s, b)
    ensures var M := After(env, START, [Api(OpCreateService(v, s, CLEAN), 0), Api(OpCreateBackend(v, rs, b, CLEAN), 0)]);
            rs in M.ctx.backends && M.ctx.backends[rs].metrics.health == 0.0
  {
    SceneOne(env, v, rs, s, b);
    TwoApis(env, START, OpCreateService(v, s, CLEAN), OpCreateBackend(v, rs, b, CLEAN), 0);
    FirstService(env, v, s);
    OnlyObserving(env, Apply(env, EMPTY, OpCreateService(v, s, CLEAN)).0, OpCreateBackend(v, rs, b, CLEAN), rs);
  }

  lemma UpShows(env: Env, M: Machine, v: string, rs: string, o: ServiceOptions, weight: uint32)
    requires Housed(M.ctx, v, rs, o, weight) && M.ctx.monitors == [PulseId(v, rs)]
    requires M.monitors == [Monitor(0, [], false, [])] && M.sink.Idle? && M.stash == map[]
    ensures var N := After(env, M, Talk(0, Up, 1));
            rs in N.ctx.backends && N.ctx.backends[rs].metrics.health == 1.0
  {
    HousedFits(M.ctx, v, rs, o, weight);
    var sent := Sent(M, 0, Up, 1);
    SentMessage(M, 0, Up, 1);
    TalkHandled(env, M, 0, Up, 1, rs);
    FirstStores(env, sent);
    UpAlone();
    NothingStashed(env, FirstSection(env, sent));
  }

  lemma UpAlone()
    ensures Statuses([]) == [] && Health(Window([] + [Up])) == 1.0
  {
    var one := [] + [Up];
    assert |one| == 1 && one[0] == Up;
    AllUp(one);
  }

  lemma {:induction false} AllUp(record: seq<Status>)
    requires 0 < |record| <= 100 && forall i :: 0 <= i < |record| ==> record[i] == Up
    ensures Health(Window(record)) == 1.0
  {
    HealthIsUpShare(record);
  }

  lemma NothingStashed(env: Env, M: Machine)
    requires M.sink.Between? && M.sink.message.metrics.status == Up && M.stash == map[]
    ensures SecondSection(env, M, CLEAN).ctx == M.ctx
  {}

  lemma OneBackend(st: State, rs: string)
    requires rs in st.backends && st.backends[rs].metrics.health == 1.0
    ensures Context.MeanHealth(st, [rs]) == 1.0
  {
    assert [rs][..0] == [] && Context.HealthSum(st, []) == 0.0;
    assert Context.HealthSum(st, [rs]) == 1.0;
    Context.ShareBounds(1.0, 1.0);
  }
}
