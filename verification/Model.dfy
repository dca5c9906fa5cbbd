/** The state of GORB's control plane and the meaning of every context
    operation (core/context.go, core/store.go), as functions on values. The
    class Context.Context runs them in place. */
module Model {
  import opened Basics
  import opened Net
  import opened Options
  import opened Metrics
  import opened IpvsTable

  /** A service object. `ref` is the object's identity, which Go compares with
      `backend.service != vs`; UpdateService installs a fresh object, and
      `root` is the identity of the one CreateService made it from. */
  datatype Service = Service(ref: nat, root: nat, options: ServiceOptions)

  /** A backend object; `monitor` numbers the pulse goroutine started for it. */
  datatype Backend = Backend(options: BackendOptions, service: Service, monitor: nat, metrics: Snapshot)

  /** The (vsID, rsID) pair a monitor signs its messages with. */
  datatype PulseId = PulseId(vsID: string, rsID: string)

  /** The external key/value store. */
  datatype Kv = Kv(services: map<string, ServiceSpec>, backends: map<string, BackendSpec>)

  datatype State = State(
    services: map<string, Service>,
    backends: map<string, Backend>,
    kernel: Table,
    store: Option<Kv>,
    nextRef: nat,
    monitors: seq<PulseId>,   // every monitor ever started
    stopped: set<nat>,        // the monitors whose stop channel is closed
    crashed: bool)            // a panic outside a request has ended the process

  const EMPTY := State(map[], map[], map[], None, 0, [], {}, false)

  /** What the outside world answers during one operation: whether the store
      accepts the write, whether the kernel has no failure of its own, whether
      the store deletes the named object, for which cleaned-up backends the
      store does not, and which backends a clean-up that panics came to first. */
  datatype Io = Io(put: bool, up: bool, del: bool, lost: set<string>, reached: set<string>)

  const CLEAN := Io(true, true, true, {}, {})

  function KeyOf(o: ServiceOptions): ServiceKey {
    ServiceKey(ShowIp(o.ip), o.spec.port, o.spec.protocol)
  }

  function DestOf(o: BackendOptions): DestKey {
    DestKey(ShowIp(o.ip), o.spec.port)
  }

  /** One virtual address: shown IP, port and protocol are the same. */
  predicate SameAddress(a: ServiceOptions, b: ServiceOptions) {
    ShowIp(a.ip) == ShowIp(b.ip) && a.spec.port == b.spec.port && a.spec.protocol == b.spec.protocol
  }

  /** One real server: shown IP and port are the same. */
  predicate SameTarget(a: BackendOptions, b: BackendOptions) {
    ShowIp(a.ip) == ShowIp(b.ip) && a.spec.port == b.spec.port
  }

  lemma KeysExactly(a: ServiceOptions, b: ServiceOptions)
    ensures KeyOf(a) == KeyOf(b) <==> SameAddress(a, b)
  {}

  lemma DestsExactly(a: BackendOptions, b: BackendOptions)
    ensures DestOf(a) == DestOf(b) <==> SameTarget(a, b)
  {}

  function PutService(store: Option<Kv>, vsID: string, spec: ServiceSpec, overwrite: bool): Option<Kv> {
    match store
    case None => None
    case Some(kv) =>
      if vsID in kv.services && !overwrite then store else Some(kv.(services := kv.services[vsID := spec]))
  }

  function PutBackend(store: Option<Kv>, rsID: string, spec: BackendSpec): Option<Kv> {
    match store
    case None => None
    case Some(kv) =>
      if rsID in kv.backends then store else Some(kv.(backends := kv.backends[rsID := spec]))
  }

  function DropService(store: Option<Kv>, vsID: string, del: bool): Option<Kv> {
    match store
    case None => None
    case Some(kv) => if del then Some(kv.(services := kv.services - {vsID})) else store
  }

  function DropBackends(store: Option<Kv>, ids: set<string>): Option<Kv> {
    match store
    case None => None
    case Some(kv) => Some(kv.(backends := kv.backends - ids))
  }

  function Bits(o: ServiceOptions): bv32 {
    FlagBits(FlagList(o.spec.flags))
  }

  function CreateService(env: Env, st: State, vsID: string, opts: ServiceOptions, io: Io): (r: (State, Outcome))
    ensures st.store.Some? ==> r.0.store.Some?
    ensures r.0.crashed == st.crashed && r.1 != Err(Panic)
  {
    var (o, filled) := FillService(env, opts);
    if filled.Err? then (st, filled) else RegisterService(st, vsID, o, io)
  }

  /** createService once the options are filled. */
  function RegisterService(st: State, vsID: string, o: ServiceOptions, io: Io): (r: (State, Outcome))
    ensures st.store.Some? ==> r.0.store.Some?
    ensures r.0.crashed == st.crashed && r.1 != Err(Panic)
  {
    if vsID in st.services then (st, Err(ErrObjectExists))
    else if st.store.Some? && !io.put then (st, Err(ErrStore))
    else
      var written := st.(store := PutService(st.store, vsID, o.spec, false));
      var (table, added) := AddService(st.kernel, KeyOf(o), o.spec.sched, Bits(o), io.up);
      if !added then (written, Err(ErrIpvsSyscallFailed))
      else
        (written.(kernel := table,
                  services := st.services[vsID := Service(st.nextRef, st.nextRef, o)],
                  nextRef := st.nextRef + 1), Ok)
  }

  function UpdateService(env: Env, st: State, vsID: string, opts: ServiceOptions, io: Io): (r: (State, Outcome))
    ensures st.store.Some? ==> r.0.store.Some?
    ensures r.0.crashed == st.crashed && r.1 != Err(Panic)
  {
    var (o, filled) := FillService(env, opts);
    if filled.Err? then (st, filled)
    else if vsID !in st.services then CreateService(env, st, vsID, o, io)
    else ReplaceService(st, vsID, o, io)
  }

  /** updateService once the options are filled and the service is found. */
  function ReplaceService(st: State, vsID: string, o: ServiceOptions, io: Io): (r: (State, Outcome))
    requires vsID in st.services
    ensures st.store.Some? ==> r.0.store.Some?
    ensures r.0.crashed == st.crashed && r.1 != Err(Panic)
  {
    var old_ := st.services[vsID];
    if KeyOf(old_.options) != KeyOf(o) then (st, Err(ErrAddressChanged))
    else if st.store.Some? && !io.put then (st, Err(ErrStore))
    else
      var written := st.(store := PutService(st.store, vsID, o.spec, true));
      var (table, updated) := IpvsTable.UpdateService(st.kernel, KeyOf(o), o.spec.sched, Bits(o), io.up);
      if !updated then (written, Err(ErrIpvsSyscallFailed))
      else
        (written.(kernel := table,
                  services := st.services[vsID := Service(st.nextRef, old_.root, o)],
                  nextRef := st.nextRef + 1), Ok)
  }

  function CreateBackend(env: Env, st: State, vsID: string, rsID: string, opts: BackendOptions, io: Io): (r: (State, Outcome))
    ensures st.store.Some? ==> r.0.store.Some?
    ensures r.0.crashed == st.crashed && r.1 != Err(Panic)
  {
    var (o, ready) := PrepareBackend(env, opts);
    if ready.Err? then (st, ready) else AttachBackend(st, vsID, rsID, o, io)
  }

  /** The options as registered: Store.CreateBackend records the service's id. */
  function Labelled(st: State, vsID: string, o: BackendOptions): BackendOptions {
    if st.store.Some? then o.(spec := o.spec.(vsid := vsID)) else o
  }

  /** createBackend once the options and the monitor are ready. */
  function AttachBackend(st: State, vsID: string, rsID: string, prepared: BackendOptions, io: Io): (r: (State, Outcome))
    ensures st.store.Some? ==> r.0.store.Some?
    ensures r.0.crashed == st.crashed && r.1 != Err(Panic)
  {
    if rsID in st.backends then (st, Err(ErrObjectExists))
    else if vsID !in st.services then (st, Err(ErrObjectNotFound))
    else
      var vs := st.services[vsID];
      if AddrFamily(prepared.ip) != AddrFamily(vs.options.ip) then (st, Err(ErrIncompatibleAFs))
      else if st.store.Some? && !io.put then (st, Err(ErrStore))
      else
        var o := Labelled(st, vsID, prepared);
        var written := st.(store := PutBackend(st.store, rsID, o.spec));
        var (table, added) := AddDestPort(st.kernel, KeyOf(vs.options), DestOf(o), o.spec.weight, o.spec.fwd, io.up);
        if !added then (written, Err(ErrIpvsSyscallFailed))
        else
          (written.(kernel := table,
                    backends := st.backends[rsID := Backend(o, vs, |st.monitors|, ZERO)],
                    monitors := st.monitors + [PulseId(vsID, rsID)]), Ok)
  }

  /** The backend's options with another weight. */
  function Reweighted(b: Backend, weight: uint32): Backend {
    b.(options := b.options.(spec := b.options.spec.(weight := weight)))
  }

  function UpdateBackend(st: State, rsID: string, weight: uint32, io: Io): (r: (State, Outcome))
    ensures st.store.Some? ==> r.0.store.Some?
    ensures r.0.crashed == st.crashed && r.1 != Err(Panic)
  {
    if rsID !in st.backends then (st, Err(ErrObjectNotFound))
    else
      var b := st.backends[rsID];
      var (table, updated) :=
        UpdateDestPort(st.kernel, KeyOf(b.service.options), DestOf(b.options), weight, b.options.spec.fwd, io.up);
      if !updated then (st, Err(ErrIpvsSyscallFailed))
      else (st.(kernel := table, backends := st.backends[rsID := Reweighted(b, weight)]), Ok)
  }

  /** The backends removeService cleans up: those that hold this very object. */
  function Orphans(st: State, vs: Service): set<string> {
    set rs | rs in st.backends && st.backends[rs].service.ref == vs.ref
  }

  function MonitorsOf(st: State, ids: set<string>): set<nat>
    requires ids <= st.backends.Keys
  {
    set rs | rs in ids :: st.backends[rs].monitor
  }

  /** What a clean-up gets through: everything, or, if it will come upon a
      monitor that was stopped before, those of the others it came to first. */
  function CleanedUp(st: State, orphans: set<string>, reached: set<string>): (cleaned: set<string>)
    requires orphans <= st.backends.Keys
    ensures cleaned <= orphans && MonitorsOf(st, cleaned) !! st.stopped
  {
    if MonitorsOf(st, orphans) !! st.stopped then orphans
    else set rs | rs in orphans && rs in reached && st.backends[rs].monitor !in st.stopped
  }

  /** Closing a stop channel a second time panics. The HTTP server recovers the
      panic of a request and the lock is released, so the call is cut short
      where it was and the process goes on. */
  function RemoveService(st: State, vsID: string, io: Io): (r: (State, Outcome))
    ensures st.store.Some? ==> r.0.store.Some?
    ensures r.0.crashed == st.crashed
  {
    if vsID !in st.services then (st, Err(ErrObjectNotFound))
    else
      var vs := st.services[vsID];
      var forgotten := st.(services := st.services - {vsID});
      var (table, deleted) := DelService(st.kernel, KeyOf(vs.options), io.up);
      if !deleted then (forgotten, Err(ErrIpvsSyscallFailed))
      else
        var orphans := Orphans(st, vs);
        var cleaned := CleanedUp(st, orphans, io.reached);
        (forgotten.(kernel := table,
                    store := DropBackends(DropService(st.store, vsID, io.del), cleaned - io.lost),
                    stopped := st.stopped + MonitorsOf(st, cleaned),
                    backends := st.backends - cleaned),
         if MonitorsOf(st, orphans) !! st.stopped then Ok else Err(Panic))
  }

  function RemoveBackend(st: State, rsID: string, io: Io): (r: (State, Outcome))
    ensures st.store.Some? ==> r.0.store.Some?
    ensures r.0.crashed == st.crashed
  {
    if rsID !in st.backends then (st, Err(ErrObjectNotFound))
    else
      var b := st.backends[rsID];
      var dropped := st.(store := DropBackends(st.store, if io.del then {rsID} else {}));
      if b.monitor in st.stopped then (dropped, Err(Panic))
      else
        var stopped := dropped.(stopped := st.stopped + {b.monitor});
        var (table, deleted) :=
          DelDestPort(st.kernel, KeyOf(b.service.options), DestOf(b.options), io.up);
        if !deleted then (stopped, Err(ErrIpvsSyscallFailed))
        else (stopped.(kernel := table, backends := st.backends - {rsID}), Ok)
  }

  /** The first critical section of processPulseUpdate stores the metrics. */
  function Observe(st: State, rsID: string, metrics: Snapshot): State {
    if rsID in st.backends then st.(backends := st.backends[rsID := st.backends[rsID].(metrics := metrics)]) else st
  }

  /** Everything that can happen to the context under its lock. */
  datatype Op =
    | OpCreateService(vsID: string, service: ServiceOptions, io: Io)
    | OpUpdateService(vsID: string, service: ServiceOptions, io: Io)
    | OpRemoveService(vsID: string, io: Io)
    | OpCreateBackend(vsID: string, rsID: string, backend: BackendOptions, io: Io)
    | OpUpdateBackend(rsID: string, weight: uint32, io: Io)
    | OpRemoveBackend(rsID: string, io: Io)
    | OpObserve(rsID: string, metrics: Snapshot)
    | OpSetStore(kv: Kv)

  /** One operation. */
  function Apply(env: Env, st: State, op: Op): (r: (State, Outcome))
    ensures st.store.Some? ==> r.0.store.Some?
    ensures r.0.crashed == st.crashed
    ensures r.1 == Err(Panic) ==> op.OpRemoveService? || op.OpRemoveBackend?
  {
    match op
    case OpCreateService(vsID, o, io) => CreateService(env, st, vsID, o, io)
    case OpUpdateService(vsID, o, io) => UpdateService(env, st, vsID, o, io)
    case OpRemoveService(vsID, io) => RemoveService(st, vsID, io)
    case OpCreateBackend(vsID, rsID, o, io) => CreateBackend(env, st, vsID, rsID, o, io)
    case OpUpdateBackend(rsID, weight, io) => UpdateBackend(st, rsID, weight, io)
    case OpRemoveBackend(rsID, io) => RemoveBackend(st, rsID, io)
    case OpObserve(rsID, metrics) => (Observe(st, rsID, metrics), Ok)
    case OpSetStore(kv) => (st.(store := Some(kv)), Ok)
  }

  /** The same outside a request: there a panic ends the process. */
  function Fatal(r: (State, Outcome)): State {
    if r.1 == Err(Panic) then r.0.(crashed := true) else r.0
  }

  function Run(env: Env, st: State, ops: seq<Op>): State {
    if ops == [] then st else Apply(env, Run(env, st, ops[..|ops| - 1]), ops[|ops| - 1]).0
  }
}
