/** When requests succeed, and when context and store stay in agreement, said
    in terms a caller can check beforehand (core/context.go, core/store.go). */
module Agreement {
  import opened Basics
  import opened Net
  import opened Options
  import opened Metrics
  import opened IpvsTable
  import opened Model
  import opened Effects
  import opened Invariants
  import opened Runs
  import opened Shutdown
  import opened Reconcile
  import opened Convergence
  import opened Sync
  import opened SyncTheorems

  /** Context and store have the same ids, services are stored as registered, and
      backends with their host, port and forwarding method. */
  predicate Agrees(st: State) {
    && st.store.Some?
    && st.services.Keys == st.store.value.services.Keys && st.backends.Keys == st.store.value.backends.Keys
    && (forall v :: v in st.services ==> st.services[v].options.spec == st.store.value.services[v])
    && (forall rs :: rs in st.backends ==> SameStored(st.backends[rs].options.spec, st.store.value.backends[rs]))
  }

  predicate SameStored(live: BackendSpec, stored: BackendSpec) {
    live.host == stored.host && live.port == stored.port && live.fwd == stored.fwd
  }

  lemma AgreesIsSettled(st: State)
    ensures st.store.Some? ==> (Agrees(st) <==> Settled(ViewOf(st)))
  {
    if st.store.Some? {
      var w := ViewOf(st);
      SameKeys(st);
      assert forall v :: v in st.services ==> w.services[v] == st.services[v].options;
      assert forall rs :: rs in st.backends ==> w.backends[rs].options == st.backends[rs].options;
    }
  }

  /** The store does what it is asked. */
  predicate StoreAnswers(io: Io) {
    io.put && io.del && io.lost == {}
  }

  function IoOf(op: Op): Io {
    if op.OpObserve? || op.OpSetStore? then CLEAN else op.io
  }

  /** The options get a new service as far as the kernel, which does not take it. */
  predicate RefusedService(env: Env, st: State, v: string, o: ServiceOptions, io: Io) {
    && FillService(env, o).1.Ok? && v !in st.services
    && !(io.up && KeyOf(FillService(env, o).0) !in st.kernel)
  }

  /** The options get an update as far as the kernel, which does not take it,
      and they differ from the registered ones. */
  predicate RefusedUpdate(env: Env, st: State, v: string, o: ServiceOptions, io: Io) {
    && FillService(env, o).1.Ok? && v in st.services && !io.up
    && KeyOf(FillService(env, o).0) == Key(st, v)
    && st.services[v].options.spec != FillService(env, o).0.spec
  }

  predicate RefusedBackend(env: Env, st: State, v: string, rs: string, o: BackendOptions, io: Io) {
    && PrepareBackend(env, o).1.Ok? && rs !in st.backends && v in st.services
    && AddrFamily(PrepareBackend(env, o).0.ip) == AddrFamily(st.services[v].options.ip)
    && !(io.up && !HasDest(st.kernel, Key(st, v), DestOf(PrepareBackend(env, o).0)))
  }

  /** The removal stops short of the maps: the monitor was stopped before, or
      the kernel does not delete the destination. */
  predicate StuckBackend(st: State, rs: string, io: Io) {
    && rs in st.backends
    && !(st.backends[rs].monitor !in st.stopped && io.up && HasDest(st.kernel, BackKey(st, rs), BackDest(st, rs)))
  }

  /** The request sets context and store apart. */
  predicate Splits(env: Env, st: State, op: Op) {
    match op
    case OpCreateService(v, o, io) => RefusedService(env, st, v, o, io)
    case OpUpdateService(v, o, io) => RefusedService(env, st, v, o, io) || RefusedUpdate(env, st, v, o, io)
    case OpRemoveService(v, io) => v in st.services && !io.up
    case OpCreateBackend(v, rs, o, io) => RefusedBackend(env, st, v, rs, o, io)
    case OpUpdateBackend(_, _, _) => false
    case OpRemoveBackend(rs, io) => StuckBackend(st, rs, io)
    case OpObserve(_, _) => false
    case OpSetStore(_) => false
  }

  /** As long as the store answers, a request keeps context and store in
      agreement exactly when it does not fall under one of these cases, all of
      them told from the state and the kernel's readiness before the call. The
      store is written before the kernel is asked, and nothing is taken back. */
  lemma AgreementExactly(env: Env, st: State, op: Op)
    requires Sound(env, st) && Agrees(st) && !op.OpSetStore? && StoreAnswers(IoOf(op))
    ensures Agrees(Apply(env, st, op).0) <==> !Splits(env, st, op)
  {
    if op.OpCreateService? || op.OpUpdateService? || op.OpRemoveService? {
      ServiceAgreement(env, st, op);
    } else if op.OpCreateBackend? {
      CreateBackendAgrees(env, st, op.vsID, op.rsID, op.backend, op.io);
    } else if op.OpRemoveBackend? {
      RemovedBackendAgreement(env, st, op);
    } else {
      LiveBackendAgreement(env, st, op);
    }
  }

  lemma ServiceAgreement(env: Env, st: State, op: Op)
    requires Sound(env, st) && Agrees(st) && StoreAnswers(IoOf(op))
    requires op.OpCreateService? || op.OpUpdateService? || op.OpRemoveService?
    ensures Agrees(Apply(env, st, op).0) <==> !Splits(env, st, op)
  {
    match op
    case OpCreateService(v, o, io) => CreateAgrees(env, st, v, o, io);
    case OpUpdateService(v, o, io) => UpdateAgrees(env, st, v, o, io);
    case OpRemoveService(v, io) => RemovalAgrees(env, st, v, io);
  }

  lemma RemovedBackendAgreement(env: Env, st: State, op: Op)
    requires Normal(env, st) && Agrees(st) && StoreAnswers(IoOf(op)) && op.OpRemoveBackend?
    ensures Agrees(Apply(env, st, op).0) <==> !Splits(env, st, op)
  {
    ApplyRemoveBackend(env, st, op);
    BackendRemovalAgrees(env, st, op.rsID, op.io);
  }

  lemma LiveBackendAgreement(env: Env, st: State, op: Op)
    requires Agrees(st) && (op.OpUpdateBackend? || op.OpObserve?)
    ensures Agrees(Apply(env, st, op).0)
  {
    if op.OpUpdateBackend? {
      ReweightingAgrees(st, op.rsID, op.weight, op.io);
    } else {
      ObservingAgrees(st, op.rsID, op.metrics);
    }
  }

  lemma CreateAgrees(env: Env, st: State, v: string, o: ServiceOptions, io: Io)
    requires Agrees(st) && StoreAnswers(io)
    ensures Agrees(CreateService(env, st, v, o, io).0) <==> !RefusedService(env, st, v, o, io)
  {
    var (filled, outcome) := FillService(env, o);
    if outcome.Ok? {
      FillServiceNormalises(env, o, []);
      RegisterAgrees(st, v, filled, io);
    }
  }

  lemma RegisterAgrees(st: State, v: string, o: ServiceOptions, io: Io)
    requires Agrees(st) && StoreAnswers(io) && ValidProtocol(o.spec.protocol)
    ensures Agrees(RegisterService(st, v, o, io).0) <==> v in st.services || (io.up && KeyOf(o) !in st.kernel)
  {}

  lemma UpdateAgrees(env: Env, st: State, v: string, o: ServiceOptions, io: Io)
    requires ServicesInKernel(st) && Agrees(st) && StoreAnswers(io)
    ensures Agrees(Model.UpdateService(env, st, v, o, io).0) <==>
            !RefusedService(env, st, v, o, io) && !RefusedUpdate(env, st, v, o, io)
  {
    var (filled, outcome) := FillService(env, o);
    if outcome.Ok? {
      FillServiceNormalises(env, o, filled.ip);
      if v in st.services {
        ReplaceAgrees(st, v, filled, io);
      } else {
        CreateAgrees(env, st, v, filled, io);
      }
    }
  }

  lemma ReplaceAgrees(st: State, v: string, o: ServiceOptions, io: Io)
    requires ServicesInKernel(st) && Agrees(st) && StoreAnswers(io) && v in st.services && ValidProtocol(o.spec.protocol)
    ensures Agrees(ReplaceService(st, v, o, io).0) <==>
            io.up || KeyOf(o) != Key(st, v) || st.services[v].options.spec == o.spec
  {
    ReplaceOutcome(st, v, o, io);
    ReplaceStored(st, v, o, io);
  }

  lemma ReplaceOutcome(st: State, v: string, o: ServiceOptions, io: Io)
    requires ServicesInKernel(st) && StoreAnswers(io) && v in st.services && ValidProtocol(o.spec.protocol)
    ensures ReplaceService(st, v, o, io).1 == Err(ErrIpvsSyscallFailed) <==> KeyOf(o) == Key(st, v) && !io.up
  {}

  lemma ReplaceStored(st: State, v: string, o: ServiceOptions, io: Io)
    requires Agrees(st) && StoreAnswers(io) && v in st.services
    ensures var (after, outcome) := ReplaceService(st, v, o, io);
            Agrees(after) <==>
            outcome != Err(ErrIpvsSyscallFailed) || st.services[v].options.spec == o.spec
  {}

  lemma CreateBackendAgrees(env: Env, st: State, v: string, rs: string, o: BackendOptions, io: Io)
    requires Sound(env, st) && Agrees(st) && StoreAnswers(io)
    ensures Agrees(CreateBackend(env, st, v, rs, o, io).0) <==> !RefusedBackend(env, st, v, rs, o, io)
  {
    CreateIsAttach(env, st, v, rs, o, io);
    if PrepareBackend(env, o).1.Ok? {
      PrepareBackendNormalises(env, o, []);
      if v in st.services {
        FillServiceNormalises(env, ServiceOptions(st.services[v].options.spec, []), []);
      }
      AttachAgrees(st, v, rs, PrepareBackend(env, o).0, io);
    }
  }

  lemma CreateIsAttach(env: Env, st: State, v: string, rs: string, o: BackendOptions, io: Io)
    ensures var (prepared, ready) := PrepareBackend(env, o);
            CreateBackend(env, st, v, rs, o, io) ==
            if ready.Ok? then AttachBackend(st, v, rs, prepared, io) else (st, ready)
  {}

  lemma AttachAgrees(st: State, v: string, rs: string, o: BackendOptions, io: Io)
    requires ServicesInKernel(st) && Agrees(st) && StoreAnswers(io) && ValidForwarding(o.spec.fwd)
    requires v in st.services ==> ValidProtocol(Key(st, v).protocol)
    ensures Agrees(AttachBackend(st, v, rs, o, io).0) <==>
            || rs in st.backends || v !in st.services || AddrFamily(o.ip) != AddrFamily(st.services[v].options.ip)
            || (io.up && !HasDest(st.kernel, Key(st, v), DestOf(o)))
  {
    AttachOutcome(st, v, rs, o, io);
    AttachStored(st, v, rs, o, io);
  }

  /** The checks of createBackend and the store let the request through. */
  predicate ReachesKernel(st: State, v: string, rs: string, o: BackendOptions, io: Io) {
    && rs !in st.backends && v in st.services && AddrFamily(o.ip) == AddrFamily(st.services[v].options.ip)
    && (st.store.Some? ==> io.put)
  }

  lemma AttachOutcome(st: State, v: string, rs: string, o: BackendOptions, io: Io)
    requires ServicesInKernel(st) && ValidForwarding(o.spec.fwd)
    requires v in st.services ==> ValidProtocol(Key(st, v).protocol)
    ensures var outcome := AttachBackend(st, v, rs, o, io).1;
            && (outcome.Ok? <==> ReachesKernel(st, v, rs, o, io) && io.up && !HasDest(st.kernel, Key(st, v), DestOf(o)))
            && (outcome == Err(ErrIpvsSyscallFailed) <==> ReachesKernel(st, v, rs, o, io) && !outcome.Ok?)
  {}

  lemma AttachStored(st: State, v: string, rs: string, o: BackendOptions, io: Io)
    requires Agrees(st) && StoreAnswers(io)
    ensures var (after, outcome) := AttachBackend(st, v, rs, o, io);
            Agrees(after) <==> outcome != Err(ErrIpvsSyscallFailed)
  {}

  lemma ReweightingAgrees(st: State, rs: string, weight: uint32, io: Io)
    requires Agrees(st)
    ensures Agrees(UpdateBackend(st, rs, weight, io).0)
  {}

  lemma ObservingAgrees(st: State, rs: string, metrics: Snapshot)
    requires Agrees(st)
    ensures Agrees(Observe(st, rs, metrics))
  {}

  /** A clean-up cut short by a panic leaves the rest in both. */
  lemma RemovalAgrees(env: Env, st: State, v: string, io: Io)
    requires Sound(env, st) && Agrees(st) && StoreAnswers(io)
    ensures Agrees(RemoveService(st, v, io).0) <==> !(v in st.services && !io.up)
  {
    if v in st.services {
      RemovalSucceeds(env, st, OpRemoveService(v, io));
      RemovalShape(st, v, io);
    }
  }

  lemma RemovalShape(st: State, v: string, io: Io)
    requires Agrees(st) && StoreAnswers(io) && v in st.services
    ensures Agrees(RemoveService(st, v, io).0) <==> RemoveService(st, v, io).1 != Err(ErrIpvsSyscallFailed)
  {}

  lemma BackendRemovalAgrees(env: Env, st: State, rs: string, io: Io)
    requires Normal(env, st) && Agrees(st) && StoreAnswers(io)
    ensures Agrees(RemoveBackend(st, rs, io).0) <==> !StuckBackend(st, rs, io)
  {
    BackendRemovalOutcome(env, st, rs, io);
    BackendRemovalStored(st, rs, io);
  }

  lemma BackendRemovalOutcome(env: Env, st: State, rs: string, io: Io)
    requires Normal(env, st)
    ensures RemoveBackend(st, rs, io).1.Ok? <==> rs in st.backends && !StuckBackend(st, rs, io)
  {}

  lemma BackendRemovalStored(st: State, rs: string, io: Io)
    requires Agrees(st) && StoreAnswers(io)
    ensures var (after, outcome) := RemoveBackend(st, rs, io);
            Agrees(after) <==> outcome.Ok? || rs !in st.backends
  {
    var (after, outcome) := RemoveBackend(st, rs, io);
    if rs in st.backends && outcome.Err? {
      assert rs in after.backends && rs !in after.store.value.backends;
    }
  }

  /** In step, one need not look at the kernel table: the cases can be told from
      the two maps and the kernel's readiness alone. */
  predicate SplitsInView(env: Env, st: State, op: Op) {
    match op
    case OpCreateService(v, o, io) => NotTaken(env, st, v, o, io)
    case OpUpdateService(v, o, io) => NotTaken(env, st, v, o, io) || RefusedUpdate(env, st, v, o, io)
    case OpRemoveService(v, io) => v in st.services && !io.up
    case OpCreateBackend(v, rs, o, io) => DestNotTaken(env, st, v, rs, o, io)
    case OpUpdateBackend(_, _, _) => false
    case OpRemoveBackend(rs, io) => rs in st.backends && !io.up
    case OpObserve(_, _) => false
    case OpSetStore(_) => false
  }

  predicate DestNotTaken(env: Env, st: State, v: string, rs: string, o: BackendOptions, io: Io) {
    && PrepareBackend(env, o).1.Ok? && rs !in st.backends && v in st.services
    && AddrFamily(PrepareBackend(env, o).0.ip) == AddrFamily(st.services[v].options.ip)
    && !(io.up && FreeDest(ViewOf(st), v, DestOf(PrepareBackend(env, o).0)))
  }

  predicate NotTaken(env: Env, st: State, v: string, o: ServiceOptions, io: Io) {
    && FillService(env, o).1.Ok? && v !in st.services
    && !(io.up && FreeAddress(ViewOf(st), KeyOf(FillService(env, o).0)))
  }

  lemma AgreementInStep(env: Env, st: State, op: Op)
    requires InStep(env, st) && Agrees(st) && !op.OpSetStore? && StoreAnswers(IoOf(op))
    ensures Agrees(Apply(env, st, op).0) <==> !SplitsInView(env, st, op)
  {
    AgreementExactly(env, st, op);
    SplitsAsSeen(env, st, op);
  }

  lemma SplitsAsSeen(env: Env, st: State, op: Op)
    requires InStep(env, st)
    ensures Splits(env, st, op) <==> SplitsInView(env, st, op)
  {
    match op
    case OpCreateService(v, o, io) => NotTakenAsSeen(env, st, v, o, io);
    case OpUpdateService(v, o, io) => NotTakenAsSeen(env, st, v, o, io);
    case OpCreateBackend(v, rs, o, io) => RefusedAsSeen(env, st, v, rs, o, io);
    case OpRemoveBackend(rs, io) => StuckAsSeen(env, st, rs, io);
    case OpRemoveService(v, io) =>
    case OpUpdateBackend(rs, weight, io) =>
    case OpObserve(rs, metrics) =>
    case OpSetStore(kv) =>
  }

  lemma NotTakenAsSeen(env: Env, st: State, v: string, o: ServiceOptions, io: Io)
    requires ServicesInKernel(st) && NoStrayService(st)
    ensures RefusedService(env, st, v, o, io) <==> NotTaken(env, st, v, o, io)
  {
    AddressFreeExactly(st, KeyOf(FillService(env, o).0));
  }

  lemma RefusedAsSeen(env: Env, st: State, v: string, rs: string, o: BackendOptions, io: Io)
    requires InStep(env, st)
    ensures RefusedBackend(env, st, v, rs, o, io) <==> DestNotTaken(env, st, v, rs, o, io)
  {
    if v in st.services {
      DestFreeExactly(env, st, v, DestOf(PrepareBackend(env, o).0));
    }
  }

  lemma StuckAsSeen(env: Env, st: State, rs: string, io: Io)
    requires BackendsInKernel(st) && Unwedged(st)
    ensures StuckBackend(st, rs, io) <==> rs in st.backends && !io.up
  {
    if rs in st.backends {
      assert Placed(st, rs);
    }
  }

  /** The store answers and none of the cases arises. */
  predicate Smooth(env: Env, st: State, op: Op) {
    !op.OpSetStore? && StoreAnswers(IoOf(op)) && !Splits(env, st, op)
  }

  /** Every operation of the run is such a request. */
  predicate SmoothRun(env: Env, st: State, ops: seq<Op>) {
    ops != [] ==>
      var before := ops[..|ops| - 1];
      SmoothRun(env, st, before) && Smooth(env, Run(env, st, before), ops[|ops| - 1])
  }

  /** After any number of such requests, however many of them were rejected or
      panicked, synchronising with the store changes nothing. */
  lemma SmoothRunsNeedNoSync(env: Env, st: State, ops: seq<Op>, o: Orders, io: Answers)
    requires Sound(env, st) && Agrees(st) && SmoothRun(env, st, ops)
    requires SyncPossible(env, Run(env, st, ops), o, io)
    ensures StoreSync(env, Run(env, st, ops), o, io) == Run(env, st, ops)
  {
    SmoothRunsAgree(env, st, ops);
    AgreesIsSettled(Run(env, st, ops));
    SettledSyncIsNoOp(env, Run(env, st, ops), o, io);
  }

  lemma {:induction false} SmoothRunsAgree(env: Env, st: State, ops: seq<Op>)
    requires Sound(env, st) && Agrees(st) && SmoothRun(env, st, ops)
    ensures Sound(env, Run(env, st, ops)) && Agrees(Run(env, st, ops))
  {
    if ops != [] {
      var n := |ops| - 1;
      SmoothRunsAgree(env, st, ops[..n]);
      SmoothOneMore(env, st, ops[..n], ops[n]);
      LastOff([], ops);
    }
  }

  lemma SmoothOneMore(env: Env, st: State, ops: seq<Op>, op: Op)
    requires Sound(env, Run(env, st, ops)) && Agrees(Run(env, st, ops)) && Smooth(env, Run(env, st, ops), op)
    ensures Sound(env, Run(env, st, ops + [op])) && Agrees(Run(env, st, ops + [op]))
  {
    RunLast(env, st, ops, op);
    SmoothStep(env, Run(env, st, ops), op);
  }

  lemma SmoothStep(env: Env, st: State, op: Op)
    requires Sound(env, st) && Agrees(st) && Smooth(env, st, op)
    ensures Sound(env, Apply(env, st, op).0) && Agrees(Apply(env, st, op).0)
  {
    var _ := SoundKept(env, st, op);
    AgreementExactly(env, st, op);
  }

  /** In step, a service can be created exactly when its options are valid, its
      id is free and no registered service has its address. */
  lemma CreateServiceSucceedsExactly(env: Env, st: State, v: string, o: ServiceOptions, io: Io)
    requires InStep(env, st)
    ensures CreateService(env, st, v, o, io).1.Ok? <==>
            && FillService(env, o).1.Ok? && v !in st.services
            && (st.store.Some? ==> io.put) && io.up
            && forall u :: u in st.services ==> !SameAddress(st.services[u].options, FillService(env, o).0)
  {
    if FillService(env, o).1.Ok? {
      FillServiceNormalises(env, o, []);
      AddressFreeExactly(st, KeyOf(FillService(env, o).0));
      FreeByFields(st, FillService(env, o).0);
    }
  }

  lemma FreeByFields(st: State, o: ServiceOptions)
    ensures FreeAddress(ViewOf(st), KeyOf(o)) <==> forall u :: u in st.services ==> !SameAddress(st.services[u].options, o)
  {
    forall u | u in st.services
      ensures ViewOf(st).services[u] == st.services[u].options
      ensures KeyOf(st.services[u].options) == KeyOf(o) <==> SameAddress(st.services[u].options, o)
    {
      KeysExactly(st.services[u].options, o);
    }
  }

  lemma AddressFreeExactly(st: State, k: ServiceKey)
    requires ServicesInKernel(st) && NoStrayService(st)
    ensures k in st.kernel <==> !FreeAddress(ViewOf(st), k)
  {
    assert forall v :: v in st.services ==> ViewOf(st).services[v] == st.services[v].options;
    if k in st.kernel {
      var v :| IsAt(st, v, k);
      assert ViewOf(st).services[v] == st.services[v].options;
    }
  }

  /** In step, a backend can be created exactly when its options are valid, its
      id is free, its service is registered with the same address family, and
      no backend of that service has its destination. */
  lemma CreateBackendSucceedsExactly(env: Env, st: State, v: string, rs: string, o: BackendOptions, io: Io)
    requires InStep(env, st)
    ensures CreateBackend(env, st, v, rs, o, io).1.Ok? <==>
            && PrepareBackend(env, o).1.Ok? && rs !in st.backends && v in st.services
            && (InFourBytes(PrepareBackend(env, o).0.ip) <==> InFourBytes(st.services[v].options.ip))
            && (st.store.Some? ==> io.put) && io.up
            && forall qs :: BackendOf(st, qs, v) ==> !SameTarget(st.backends[qs].options, PrepareBackend(env, o).0)
  {
    CreateIsAttach(env, st, v, rs, o, io);
    if PrepareBackend(env, o).1.Ok? {
      PrepareBackendNormalises(env, o, []);
      AttachSucceedsExactly(env, st, v, rs, PrepareBackend(env, o).0, io);
      FamilyExactly(PrepareBackend(env, o).0.ip);
      if v in st.services {
        FamilyExactly(st.services[v].options.ip);
        TargetByFields(st, v, PrepareBackend(env, o).0);
      }
    }
  }

  /** The backend was created under this service's id. */
  predicate BackendOf(st: State, qs: string, v: string) {
    && qs in st.backends && st.backends[qs].monitor < |st.monitors|
    && st.monitors[st.backends[qs].monitor].vsID == v
  }

  lemma TargetByFields(st: State, v: string, o: BackendOptions)
    requires Identities(st)
    ensures FreeDest(ViewOf(st), v, DestOf(o)) <==>
            forall qs :: BackendOf(st, qs, v) ==> !SameTarget(st.backends[qs].options, o)
  {
    forall qs | qs in st.backends
      ensures ViewOf(st).backends[qs].owner == v <==> BackendOf(st, qs, v)
      ensures ViewOf(st).backends[qs].options == st.backends[qs].options
      ensures DestOf(st.backends[qs].options) == DestOf(o) <==> SameTarget(st.backends[qs].options, o)
    {
      DestsExactly(st.backends[qs].options, o);
    }
  }

  lemma AttachSucceedsExactly(env: Env, st: State, v: string, rs: string, o: BackendOptions, io: Io)
    requires InStep(env, st) && ValidForwarding(o.spec.fwd)
    ensures AttachBackend(st, v, rs, o, io).1.Ok? <==>
            ReachesKernel(st, v, rs, o, io) && io.up && FreeDest(ViewOf(st), v, DestOf(o))
  {
    if v in st.services {
      DestFreeExactly(env, st, v, DestOf(o));
      FillServiceNormalises(env, ServiceOptions(st.services[v].options.spec, []), []);
    }
    AttachOutcome(st, v, rs, o, io);
  }

  lemma DestFreeExactly(env: Env, st: State, v: string, d: DestKey)
    requires InStep(env, st) && v in st.services
    ensures Key(st, v) in st.kernel
    ensures HasDest(st.kernel, Key(st, v), d) <==> !FreeDest(ViewOf(st), v, d)
  {
    AllKept(env, st, v);
    DestFreeByKey(st, v, d);
  }

  /** The owner a view gives a backend tells whether it is kept at v's key. */
  predicate KeptAt(st: State, v: string, rs: string)
    requires v in st.services && rs in st.backends
  {
    var held := ViewOf(st).backends[rs];
    (held.owner == v <==> BackKey(st, rs) == Key(st, v)) && DestOf(held.options) == BackDest(st, rs)
  }

  lemma AllKept(env: Env, st: State, v: string)
    requires InStep(env, st) && v in st.services
    ensures forall rs :: rs in st.backends ==> KeptAt(st, v, rs)
  {
    forall rs | rs in st.backends ensures KeptAt(st, v, rs) {
      assert OwnedBackend(st, rs);
    }
  }

  lemma DestFreeByKey(st: State, v: string, d: DestKey)
    requires ServicesInKernel(st) && DestsMatched(st) && BackendsInKernel(st) && v in st.services
    requires forall rs :: rs in st.backends ==> KeptAt(st, v, rs)
    ensures HasDest(st.kernel, Key(st, v), d) <==> !FreeDest(ViewOf(st), v, d)
  {
    var w := ViewOf(st);
    if HasDest(st.kernel, Key(st, v), d) {
      var rs :| rs in st.backends && Backs(st.backends[rs], Key(st, v), d, st.kernel[Key(st, v)].dests[d]);
      assert KeptAt(st, v, rs);
    }
    if !FreeDest(w, v, d) {
      var rs :| rs in w.backends && w.backends[rs].owner == v && DestOf(w.backends[rs].options) == d;
      assert Placed(st, rs);
    }
  }

  /** Removals and reweighting, in step, succeed exactly when the object is there
      and the kernel has no failure of its own. */
  lemma RemovalsSucceedExactly(env: Env, st: State, id: string, weight: uint32, io: Io)
    requires InStep(env, st)
    ensures RemoveService(st, id, io).1.Ok? <==> id in st.services && io.up
    ensures RemoveBackend(st, id, io).1.Ok? <==> id in st.backends && io.up
    ensures UpdateBackend(st, id, weight, io).1.Ok? <==> id in st.backends && io.up
  {
    if id in st.services {
      UnwedgedMeansClean(st, OpRemoveService(id, io));
      RemovalSucceeds(env, st, OpRemoveService(id, io));
    }
    if id in st.backends {
      assert Placed(st, id);
    }
    BackendRemovalOutcome(env, st, id, io);
    ReweightingOutcome(env, st, id, weight, io);
  }

  lemma ReweightingOutcome(env: Env, st: State, rs: string, weight: uint32, io: Io)
    requires Normal(env, st) && BackendsInKernel(st)
    ensures UpdateBackend(st, rs, weight, io).1.Ok? <==> rs in st.backends && io.up
  {
    if rs in st.backends {
      assert Placed(st, rs);
    }
  }

  /** An empty context attached to a store with valid content is ready: its
      first synchronisation installs the store, its third is a no-op. */
  lemma FreshContextIsReady(env: Env, kv: Kv)
    requires ValidStore(env, kv.services, kv.backends)
    ensures var st := EMPTY.(store := Some(kv));
            Attached(env, st) && Ready(env, ViewOf(st), kv.services, kv.backends)
  {
    FreshIsInStep(env, kv);
    var w := ViewOf(EMPTY.(store := Some(kv)));
    assert w.services == map[] && w.backends == map[];
  }

  lemma FreshIsInStep(env: Env, kv: Kv)
    ensures InStep(env, EMPTY.(store := Some(kv)))
  {
    EmptyIsSound(env);
    SoundIgnoresStore(env, EMPTY, EMPTY.(store := Some(kv)));
  }

  /** Every map can be ranged over in some order. */
  lemma {:induction false} AnOrderExists(keys: set<string>) returns (order: seq<string>)
    ensures Visits(order, keys)
  {
    if keys == {} {
      order := [];
    } else {
      var id :| id in keys;
      var rest := AnOrderExists(keys - {id});
      order := rest + [id];
      assert Ids(order) == Ids(rest) + {id};
    }
  }

  /** What a service's id comes to when context and store of the view w are
      synchronised with what was read from the store earlier. */
  ghost predicate ServiceReverted(env: Env, w: View, r: View, ss: map<string, ServiceSpec>, v: string) {
    && (v in w.services && v !in ss ==> v !in r.services && v !in r.store.services)
    && (v !in w.services && v in ss ==> v in r.services && v in r.store.services)
    && (v in w.services && v in ss && w.services[v].spec != ss[v] ==>
          && v in r.services && r.services[v] == FilledService(env, ss[v])
          && v in r.store.services && r.store.services[v] == FilledService(env, ss[v]).spec)
  }

  ghost predicate BackendReverted(w: View, r: View, sb: map<string, BackendSpec>, rs: string) {
    && (rs in w.backends && rs !in sb ==> rs !in r.backends && rs !in r.store.backends)
    && (rs !in w.backends && rs in sb ==> rs in r.backends && rs in r.store.backends)
  }

  /** Store.Sync reads the store before it takes the lock. Whatever requests
      were granted in between, the earlier reading wins: what they created is
      removed again, from the store as well, what they removed comes back, and
      what they updated is put back and rewritten. */
  lemma EarlierReadingWins(env: Env, st: State, read: Kv, o: Orders, io: Answers)
    requires Attached(env, st) && NoFailures(io) && Ready(env, ViewOf(st), read.services, read.backends)
    requires Possible(env, st, read.services, read.backends, o, io)
    ensures var w, r := ViewOf(st), ViewOf(Synchronized(env, st, read.services, read.backends, o, io));
            && (forall v :: ServiceReverted(env, w, r, read.services, v))
            && (forall rs :: BackendReverted(w, r, read.backends, rs))
  {
    SynchronizedClosedForm(env, st, read.services, read.backends, o, io);
    var w := ViewOf(st);
    forall v ensures ServiceReverted(env, w, Reconciled(env, w, read.services, read.backends), read.services, v) {
      ReconciledService(env, w, read.services, read.backends, v);
    }
    forall rs ensures BackendReverted(w, Reconciled(env, w, read.services, read.backends), read.backends, rs) {
      ReconciledBackend(env, w, read.services, read.backends, rs);
    }
  }

  lemma ReconciledService(env: Env, w: View, ss: map<string, ServiceSpec>, sb: map<string, BackendSpec>, v: string)
    ensures ServiceReverted(env, w, Reconciled(env, w, ss, sb), ss, v)
  {
    var w1 := WithoutServices(w, w.services.Keys - ss.Keys);
    RevertedService(env, w, w1, ss, v);
  }

  lemma RevertedService(env: Env, w: View, w1: View, ss: map<string, ServiceSpec>, v: string)
    requires w1.services == w.services - (w.services.Keys - ss.Keys)
    requires w1.store.services == w.store.services - (w.services.Keys - ss.Keys)
    ensures var w2 := WithServices(env, w1, ss, ss.Keys); ServiceReverted(env, w, w2, ss, v)
  {}

  lemma ReconciledBackend(env: Env, w: View, ss: map<string, ServiceSpec>, sb: map<string, BackendSpec>, rs: string)
    ensures BackendReverted(w, Reconciled(env, w, ss, sb), sb, rs)
  {
    var w1 := WithoutServices(w, w.services.Keys - ss.Keys);
    var w2 := WithServices(env, w1, ss, ss.Keys);
    assert rs in w.backends && rs !in w2.backends ==> rs !in w2.store.backends;
    RevertedBackend(env, w, w2, sb, rs);
  }

  lemma RevertedBackend(env: Env, w: View, w2: View, sb: map<string, BackendSpec>, rs: string)
    requires rs in w2.backends ==> rs in w.backends
    requires rs in w.backends && rs !in w2.backends ==> rs !in w2.store.backends
    ensures var w3 := WithoutBackends(w2, w2.backends.Keys - sb.Keys);
            BackendReverted(w, WithBackends(env, w3, sb, sb.Keys), sb, rs)
  {}
}
