/** The elementary changes an operation can make to the maps and the kernel
    table, whatever path it took through validation and failures. */
module Effects {
  import opened Basics
  import opened Net
  import opened Options
  import opened Metrics
  import opened IpvsTable
  import opened Model

  datatype Effect =
    | Nothing
    | NewService(vsID: string, service: ServiceOptions)
    | NewOptions(vsID: string, service: ServiceOptions)
    | ServiceForgotten(vsID: string)  // DelService failed
    | ServiceGone(vsID: string, cleaned: set<string>)
    | NewBackend(vsID: string, rsID: string, backend: BackendOptions)
    | NewWeight(rsID: string, weight: uint32)
    | MonitorStopped(rsID: string)    // DelDestPort failed
    | BackendGone(rsID: string)
    | NewMetrics(rsID: string, metrics: Snapshot)

  ghost predicate NormalService(env: Env, o: ServiceOptions) {
    FillService(env, ServiceOptions(o.spec, [])) == (o, Ok)
  }

  predicate NormalBackend(env: Env, o: BackendOptions) {
    o.spec.host != "" && o.spec.port != 0 && env.resolve(o.spec.host) == Some(o.ip) && ValidForwarding(o.spec.fwd)
  }

  function Key(st: State, v: string): ServiceKey
    requires v in st.services
  {
    KeyOf(st.services[v].options)
  }

  function BackKey(st: State, rs: string): ServiceKey
    requires rs in st.backends
  {
    KeyOf(st.backends[rs].service.options)
  }

  function BackDest(st: State, rs: string): DestKey
    requires rs in st.backends
  {
    DestOf(st.backends[rs].options)
  }

  /** When an effect can happen. */
  ghost predicate Enabled(env: Env, st: State, e: Effect) {
    match e
    case Nothing => true
    case NewService(v, o) => v !in st.services && KeyOf(o) !in st.kernel && NormalService(env, o)
    case NewOptions(v, o) => v in st.services && Key(st, v) == KeyOf(o) && KeyOf(o) in st.kernel && NormalService(env, o)
    case ServiceForgotten(v) => v in st.services
    case ServiceGone(v, cleaned) =>
      && v in st.services && Key(st, v) in st.kernel
      && cleaned <= Orphans(st, st.services[v]) && MonitorsOf(st, cleaned) !! st.stopped
    case NewBackend(v, rs, o) =>
      && v in st.services && rs !in st.backends && NormalBackend(env, o)
      && AddrFamily(o.ip) == AddrFamily(st.services[v].options.ip)
      && Key(st, v) in st.kernel && !HasDest(st.kernel, Key(st, v), DestOf(o))
    case NewWeight(rs, w) =>
      && rs in st.backends && HasDest(st.kernel, BackKey(st, rs), BackDest(st, rs))
      && ValidForwarding(st.backends[rs].options.spec.fwd)
    case MonitorStopped(rs) => rs in st.backends && st.backends[rs].monitor !in st.stopped
    case BackendGone(rs) =>
      && rs in st.backends && st.backends[rs].monitor !in st.stopped
      && HasDest(st.kernel, BackKey(st, rs), BackDest(st, rs))
    case NewMetrics(rs, m) => rs in st.backends
  }

  /** What it changes, the store aside. */
  ghost function Change(env: Env, st: State, e: Effect): State
    requires Enabled(env, st, e)
  {
    match e
    case Nothing => st
    case NewService(v, o) =>
      st.(kernel := st.kernel[KeyOf(o) := Virtual(o.spec.sched, Bits(o), map[])],
          services := st.services[v := Service(st.nextRef, st.nextRef, o)],
          nextRef := st.nextRef + 1)
    case NewOptions(v, o) =>
      st.(kernel := st.kernel[KeyOf(o) := Virtual(o.spec.sched, Bits(o), st.kernel[KeyOf(o)].dests)],
          services := st.services[v := Service(st.nextRef, st.services[v].root, o)],
          nextRef := st.nextRef + 1)
    case ServiceForgotten(v) => st.(services := st.services - {v})
    case ServiceGone(v, cleaned) =>
      st.(kernel := st.kernel - {Key(st, v)}, services := st.services - {v},
          stopped := st.stopped + MonitorsOf(st, cleaned), backends := st.backends - cleaned)
    case NewBackend(v, rs, o) =>
      st.(kernel := SetDest(st.kernel, Key(st, v), DestOf(o), Dest(o.spec.weight, ForwardingOf(o.spec.fwd).value)),
          backends := st.backends[rs := Backend(o, st.services[v], |st.monitors|, ZERO)],
          monitors := st.monitors + [PulseId(v, rs)])
    case NewWeight(rs, w) =>
      var fwd := ForwardingOf(st.backends[rs].options.spec.fwd).value;
      st.(kernel := SetDest(st.kernel, BackKey(st, rs), BackDest(st, rs), Dest(w, fwd)),
          backends := st.backends[rs := Reweighted(st.backends[rs], w)])
    case MonitorStopped(rs) => st.(stopped := st.stopped + {st.backends[rs].monitor})
    case BackendGone(rs) =>
      var k := BackKey(st, rs);
      st.(kernel := st.kernel[k := st.kernel[k].(dests := st.kernel[k].dests - {BackDest(st, rs)})],
          stopped := st.stopped + {st.backends[rs].monitor},
          backends := st.backends - {rs})
    case NewMetrics(rs, m) => st.(backends := st.backends[rs := st.backends[rs].(metrics := m)])
  }

  /** Equal but for the store and the end of the process. */
  ghost predicate Alike(a: State, b: State) {
    && a.services == b.services && a.backends == b.backends && a.kernel == b.kernel
    && a.nextRef == b.nextRef && a.monitors == b.monitors && a.stopped == b.stopped
  }

  lemma EffectOfCreateService(env: Env, st: State, vsID: string, opts: ServiceOptions, io: Io) returns (e: Effect)
    ensures e == if CreateService(env, st, vsID, opts, io).1.Ok?
                 then NewService(vsID, FillService(env, opts).0) else Nothing
    ensures Enabled(env, st, e) && Alike(CreateService(env, st, vsID, opts, io).0, Change(env, st, e))
  {
    var (o, filled) := FillService(env, opts);
    e := Nothing;
    if filled.Ok? {
      FillServiceNormalises(env, opts, []);
      e := EffectOfRegister(env, st, vsID, o, io);
    }
  }

  lemma EffectOfRegister(env: Env, st: State, vsID: string, o: ServiceOptions, io: Io) returns (e: Effect)
    requires NormalService(env, o)
    ensures e == if RegisterService(st, vsID, o, io).1.Ok? then NewService(vsID, o) else Nothing
    ensures Enabled(env, st, e) && Alike(RegisterService(st, vsID, o, io).0, Change(env, st, e))
  {
    e := if RegisterService(st, vsID, o, io).1.Ok? then NewService(vsID, o) else Nothing;
  }

  lemma EffectOfReplace(env: Env, st: State, vsID: string, o: ServiceOptions, io: Io) returns (e: Effect)
    requires NormalService(env, o) && vsID in st.services
    ensures e == if ReplaceService(st, vsID, o, io).1.Ok? then NewOptions(vsID, o) else Nothing
    ensures Enabled(env, st, e) && Alike(ReplaceService(st, vsID, o, io).0, Change(env, st, e))
  {
    e := if ReplaceService(st, vsID, o, io).1.Ok? then NewOptions(vsID, o) else Nothing;
  }

  lemma EffectOfUpdateService(env: Env, st: State, vsID: string, opts: ServiceOptions, io: Io) returns (e: Effect)
    ensures e == if Model.UpdateService(env, st, vsID, opts, io).1.Err? then Nothing
                 else if vsID in st.services then NewOptions(vsID, FillService(env, opts).0)
                 else NewService(vsID, FillService(env, opts).0)
    ensures Enabled(env, st, e) && Alike(Model.UpdateService(env, st, vsID, opts, io).0, Change(env, st, e))
  {
    var (o, filled) := FillService(env, opts);
    e := Nothing;
    if filled.Ok? {
      FillServiceNormalises(env, opts, []);
      FillServiceNormalises(env, opts, o.ip);
      if vsID in st.services {
        e := EffectOfReplace(env, st, vsID, o, io);
      } else {
        e := EffectOfRegister(env, st, vsID, o, io);
      }
    }
  }

  lemma EffectOfCreateBackend(env: Env, st: State, vsID: string, rsID: string, opts: BackendOptions, io: Io)
    returns (e: Effect)
    ensures e == if CreateBackend(env, st, vsID, rsID, opts, io).1.Ok?
                 then NewBackend(vsID, rsID, Labelled(st, vsID, PrepareBackend(env, opts).0)) else Nothing
    ensures Enabled(env, st, e) && Alike(CreateBackend(env, st, vsID, rsID, opts, io).0, Change(env, st, e))
  {
    var (o, ready) := PrepareBackend(env, opts);
    e := Nothing;
    if ready.Ok? {
      PreparedIsNormal(env, opts);
      e := EffectOfAttach(env, st, vsID, rsID, o, io);
    }
  }

  lemma PreparedIsNormal(env: Env, opts: BackendOptions)
    requires PrepareBackend(env, opts).1.Ok?
    ensures NormalBackend(env, PrepareBackend(env, opts).0)
  {
    PrepareBackendNormalises(env, opts, []);
  }

  lemma EffectOfAttach(env: Env, st: State, vsID: string, rsID: string, o: BackendOptions, io: Io)
    returns (e: Effect)
    requires NormalBackend(env, o)
    ensures e == if AttachBackend(st, vsID, rsID, o, io).1.Ok?
                 then NewBackend(vsID, rsID, Labelled(st, vsID, o)) else Nothing
    ensures Enabled(env, st, e) && Alike(AttachBackend(st, vsID, rsID, o, io).0, Change(env, st, e))
  {
    e := if AttachBackend(st, vsID, rsID, o, io).1.Ok? then NewBackend(vsID, rsID, Labelled(st, vsID, o)) else Nothing;
  }

  lemma EffectOfRemoveService(env: Env, st: State, vsID: string, io: Io) returns (e: Effect)
    ensures e == if vsID in st.services then Removal(st, vsID, io) else Nothing
    ensures Enabled(env, st, e) && Alike(RemoveService(st, vsID, io).0, Change(env, st, e))
  {
    e := if vsID in st.services then Removal(st, vsID, io) else Nothing;
  }

  /** The effect of removing a registered service. */
  function Removal(st: State, vsID: string, io: Io): Effect
    requires vsID in st.services
  {
    if RemoveService(st, vsID, io).1 == Err(ErrIpvsSyscallFailed) then ServiceForgotten(vsID)
    else ServiceGone(vsID, CleanedUp(st, Orphans(st, st.services[vsID]), io.reached))
  }

  lemma EffectOfUpdateBackend(env: Env, st: State, rsID: string, weight: uint32, io: Io) returns (e: Effect)
    ensures e == if UpdateBackend(st, rsID, weight, io).1.Ok? then NewWeight(rsID, weight) else Nothing
    ensures Enabled(env, st, e) && Alike(UpdateBackend(st, rsID, weight, io).0, Change(env, st, e))
  {
    e := if UpdateBackend(st, rsID, weight, io).1.Ok? then NewWeight(rsID, weight) else Nothing;
  }

  /** The kernel will not delete the destination of a registered backend whose
      monitor still runs: the backend stays, its monitor is stopped. */
  predicate FailsToDelete(st: State, op: Op) {
    && op.OpRemoveBackend? && op.rsID in st.backends && st.backends[op.rsID].monitor !in st.stopped
    && !(op.io.up && ValidProtocol(BackKey(st, op.rsID).protocol)
         && HasDest(st.kernel, BackKey(st, op.rsID), BackDest(st, op.rsID)))
  }

  /** The effect of asking to remove a backend. */
  function BackendRemoval(st: State, op: Op): Effect
    requires op.OpRemoveBackend?
  {
    if FailsToDelete(st, op) then MonitorStopped(op.rsID)
    else if RemoveBackend(st, op.rsID, op.io).1.Ok? then BackendGone(op.rsID)
    else Nothing
  }

  lemma EffectOfRemoveBackend(env: Env, st: State, op: Op) returns (e: Effect)
    requires op.OpRemoveBackend?
    ensures e == BackendRemoval(st, op)
    ensures Enabled(env, st, e) && Alike(RemoveBackend(st, op.rsID, op.io).0, Change(env, st, e))
  {
    e := BackendRemoval(st, op);
  }

  /** Which operation an effect comes from. */
  predicate Caused(st: State, op: Op, e: Effect) {
    match e
    case Nothing => !FailsToDelete(st, op) && !(op.OpObserve? && op.rsID in st.backends)
    case NewService(v, _) => (op.OpCreateService? || op.OpUpdateService?) && op.vsID == v
    case NewOptions(v, _) => op.OpUpdateService? && op.vsID == v
    case ServiceForgotten(_) => op.OpRemoveService? && op.vsID in st.services && e == Removal(st, op.vsID, op.io)
    case ServiceGone(_, _) => op.OpRemoveService? && op.vsID in st.services && e == Removal(st, op.vsID, op.io)
    case NewBackend(v, rs, _) => op.OpCreateBackend? && op.vsID == v && op.rsID == rs
    case NewWeight(rs, _) => op.OpUpdateBackend? && op.rsID == rs
    case MonitorStopped(rs) => FailsToDelete(st, op) && op.rsID == rs
    case BackendGone(rs) => op.OpRemoveBackend? && op.rsID == rs && !FailsToDelete(st, op)
    case NewMetrics(rs, m) => op.OpObserve? && op.rsID == rs && op.metrics == m
  }

  /** Every operation has one of these effects. */
  lemma EffectOf(env: Env, st: State, op: Op) returns (e: Effect)
    ensures Enabled(env, st, e) && Alike(Apply(env, st, op).0, Change(env, st, e)) && Caused(st, op, e)
  {
    match op
    case OpCreateService(vsID, o, io) => e := EffectOfCreateService(env, st, vsID, o, io);
    case OpUpdateService(vsID, o, io) => e := EffectOfUpdateService(env, st, vsID, o, io);
    case OpRemoveService(vsID, io) => e := EffectOfRemoveService(env, st, vsID, io);
    case OpCreateBackend(vsID, rsID, o, io) => e := EffectOfCreateBackend(env, st, vsID, rsID, o, io);
    case OpUpdateBackend(rsID, weight, io) => e := EffectOfUpdateBackend(env, st, rsID, weight, io);
    case OpRemoveBackend(rsID, io) => e := EffectOfRemoveBackend(env, st, op);
    case OpObserve(rsID, metrics) => e := if rsID in st.backends then NewMetrics(rsID, metrics) else Nothing;
    case OpSetStore(kv) => e := Nothing;
  }
}
