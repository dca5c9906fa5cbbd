/** What each request answers and what it leaves, field by field: which error a
    rejected one gets, and where a granted one is found afterwards in the maps,
    the kernel and the store (core/context.go, core/store.go). */
module Outcomes {
  import opened Basics
  import opened Net
  import opened Options
  import opened Metrics
  import opened IpvsTable
  import opened Model
  import opened Effects
  import opened Invariants
  import opened Runs
  import opened Shutdown
  import opened Agreement

  /** The store takes the write, or there is no store. */
  predicate Written(st: State, io: Io) {
    st.store.Some? ==> io.put
  }

  predicate AddressTaken(st: State, o: ServiceOptions) {
    exists u :: u in st.services && SameAddress(st.services[u].options, o)
  }

  /** A request for a new service: the options' own error first, then an id in
      use, then a store that fails, then an address in use. */
  lemma CreateServiceErrors(env: Env, st: State, v: string, o: ServiceOptions, io: Io)
    requires InStep(env, st)
    ensures var (f, filled) := FillService(env, o);
            var (after, outcome) := CreateService(env, st, v, o, io);
            && (filled.Err? ==> outcome == filled)
            && (filled.Ok? && v in st.services ==> outcome == Err(ErrObjectExists))
            && (filled.Ok? && v !in st.services && !Written(st, io) ==> outcome == Err(ErrStore))
            && (filled.Ok? && v !in st.services && Written(st, io) ==>
                  outcome == if io.up && !AddressTaken(st, f) then Ok else Err(ErrIpvsSyscallFailed))
            && (outcome.Err? && outcome != Err(ErrIpvsSyscallFailed) ==> after == st)
  {
    var (f, filled) := FillService(env, o);
    if filled.Ok? {
      CreateIsRegister(env, st, v, o, io);
      RegisterErrors(st, v, f, io);
      CreateServiceSucceedsExactly(env, st, v, o, io);
    }
  }

  lemma CreateIsRegister(env: Env, st: State, v: string, o: ServiceOptions, io: Io)
    ensures var (f, filled) := FillService(env, o);
            CreateService(env, st, v, o, io) == if filled.Ok? then RegisterService(st, v, f, io) else (st, filled)
  {}

  lemma RegisterErrors(st: State, v: string, o: ServiceOptions, io: Io)
    ensures var (after, outcome) := RegisterService(st, v, o, io);
            && (outcome == Err(ErrObjectExists) <==> v in st.services)
            && (outcome == Err(ErrStore) <==> v !in st.services && !Written(st, io))
            && (outcome.Err? ==> outcome.error in {ErrObjectExists, ErrStore, ErrIpvsSyscallFailed})
            && (outcome.Err? && outcome != Err(ErrIpvsSyscallFailed) ==> after == st)
  {}

  /** A request to update a registered service is refused exactly if shown IP,
      port or protocol would change, unless its options are wrong to begin with
      or store or kernel fail. */
  lemma UpdateServiceErrors(env: Env, st: State, v: string, o: ServiceOptions, io: Io)
    requires Sound(env, st) && v in st.services
    ensures var (f, filled) := FillService(env, o);
            var (after, outcome) := Model.UpdateService(env, st, v, o, io);
            var same := SameAddress(st.services[v].options, f);
            && (filled.Err? ==> outcome == filled)
            && (filled.Ok? && !same ==> outcome == Err(ErrAddressChanged))
            && (filled.Ok? && same && !Written(st, io) ==> outcome == Err(ErrStore))
            && (filled.Ok? && same && Written(st, io) ==> outcome == if io.up then Ok else Err(ErrIpvsSyscallFailed))
            && (outcome.Err? && outcome != Err(ErrIpvsSyscallFailed) ==> after == st)
  {
    var (f, filled) := FillService(env, o);
    if filled.Ok? {
      FillServiceNormalises(env, o, []);
      KeysExactly(st.services[v].options, f);
      ReplaceErrors(st, v, f, io);
    }
  }

  lemma ReplaceErrors(st: State, v: string, o: ServiceOptions, io: Io)
    requires ServicesInKernel(st) && v in st.services && ValidProtocol(o.spec.protocol)
    ensures var (after, outcome) := ReplaceService(st, v, o, io);
            && (outcome == if Key(st, v) != KeyOf(o) then Err(ErrAddressChanged)
                           else if !Written(st, io) then Err(ErrStore)
                           else if !io.up then Err(ErrIpvsSyscallFailed) else Ok)
            && (outcome.Err? && outcome != Err(ErrIpvsSyscallFailed) ==> after == st)
  {}

  /** A request for a new backend: its options, its id, its service, the address
      family, the store, and a destination in use. */
  lemma CreateBackendErrors(env: Env, st: State, v: string, rs: string, o: BackendOptions, io: Io)
    requires InStep(env, st)
    ensures var (p, ready) := PrepareBackend(env, o);
            var (after, outcome) := CreateBackend(env, st, v, rs, o, io);
            && (ready.Err? ==> outcome == ready)
            && (ready.Ok? && rs in st.backends ==> outcome == Err(ErrObjectExists))
            && (ready.Ok? && rs !in st.backends && v !in st.services ==> outcome == Err(ErrObjectNotFound))
            && (ready.Ok? && rs !in st.backends && v in st.services ==>
                  var sameFamily := InFourBytes(p.ip) <==> InFourBytes(st.services[v].options.ip);
                  var taken := exists qs :: BackendOf(st, qs, v) && SameTarget(st.backends[qs].options, p);
                  outcome == if !sameFamily then Err(ErrIncompatibleAFs)
                             else if !Written(st, io) then Err(ErrStore)
                             else if !io.up || taken then Err(ErrIpvsSyscallFailed) else Ok)
            && (outcome.Err? && outcome != Err(ErrIpvsSyscallFailed) ==> after == st)
  {
    CreateIsAttach(env, st, v, rs, o, io);
    var (p, ready) := PrepareBackend(env, o);
    if ready.Ok? {
      AttachErrors(st, v, rs, p, io);
      if v in st.services {
        FamilyExactly(p.ip);
        FamilyExactly(st.services[v].options.ip);
        CreateBackendSucceedsExactly(env, st, v, rs, o, io);
      }
    }
  }

  lemma AttachErrors(st: State, v: string, rs: string, p: BackendOptions, io: Io)
    ensures var (after, outcome) := AttachBackend(st, v, rs, p, io);
            && (rs in st.backends ==> outcome == Err(ErrObjectExists))
            && (rs !in st.backends && v !in st.services ==> outcome == Err(ErrObjectNotFound))
            && (rs !in st.backends && v in st.services ==>
                  var sameFamily := AddrFamily(p.ip) == AddrFamily(st.services[v].options.ip);
                  && (outcome == Err(ErrIncompatibleAFs) <==> !sameFamily)
                  && (outcome == Err(ErrStore) <==> sameFamily && !Written(st, io))
                  && (outcome.Err? ==> outcome.error in {ErrIncompatibleAFs, ErrStore, ErrIpvsSyscallFailed}))
            && (outcome.Err? && outcome != Err(ErrIpvsSyscallFailed) ==> after == st)
  {}

  /** Requests about an object that is not there, and the ways the others fail. */
  lemma RemovalErrors(env: Env, st: State, id: string, weight: uint32, io: Io)
    requires Sound(env, st)
    ensures RemoveService(st, id, io).1 ==
            if id !in st.services then Err(ErrObjectNotFound)
            else if !io.up then Err(ErrIpvsSyscallFailed)
            else if MonitorsOf(st, Orphans(st, st.services[id])) !! st.stopped then Ok
            else Err(Panic)
    ensures RemoveBackend(st, id, io).1 ==
            if id !in st.backends then Err(ErrObjectNotFound)
            else if st.backends[id].monitor in st.stopped then Err(Panic)
            else if io.up && HasDest(st.kernel, BackKey(st, id), BackDest(st, id)) then Ok
            else Err(ErrIpvsSyscallFailed)
    ensures UpdateBackend(st, id, weight, io).1 ==
            if id !in st.backends then Err(ErrObjectNotFound)
            else if io.up && HasDest(st.kernel, BackKey(st, id), BackDest(st, id)) then Ok
            else Err(ErrIpvsSyscallFailed)
  {
    if id in st.services {
      RemovalSucceeds(env, st, OpRemoveService(id, io));
    }
  }

  /** The store's entry under an id: what was there already stays unless it is
      overwritten. */
  predicate Stored<T(==)>(before: map<string, T>, after: map<string, T>, id: string, value: T, overwrite: bool) {
    && id in after && after[id] == (if id in before && !overwrite then before[id] else value)
    && after.Keys == before.Keys + {id} && forall u :: u in before && u != id ==> after[u] == before[u]
  }

  /** A service just created or updated: registered with the filled options, in
      the kernel at its shown IP, port and protocol with its scheduler and flags,
      and in the store. Its destinations stay, nothing else changes. */
  predicate ServiceInstalled(st: State, after: State, v: string, o: ServiceOptions, dests: map<DestKey, Dest>, overwrite: bool) {
    && v in after.services && after.services == st.services[v := after.services[v]]
    && after.services[v].options == o && after.services[v].ref == st.nextRef
    && after.kernel == st.kernel[ServiceKey(ShowIp(o.ip), o.spec.port, o.spec.protocol) :=
                                   Virtual(o.spec.sched, FlagBits(FlagList(o.spec.flags)), dests)]
    && after.backends == st.backends && after.monitors == st.monitors && after.stopped == st.stopped
    && (if st.store.None? then after.store.None?
        else after.store.Some? && after.store.value.backends == st.store.value.backends
             && Stored(st.store.value.services, after.store.value.services, v, o.spec, overwrite))
  }

  lemma CreatedServiceIs(env: Env, st: State, v: string, o: ServiceOptions, io: Io)
    requires CreateService(env, st, v, o, io).1.Ok?
    ensures ServiceInstalled(st, CreateService(env, st, v, o, io).0, v, FillService(env, o).0, map[], false)
    ensures v !in st.services
  {
    CreateIsRegister(env, st, v, o, io);
  }

  lemma UpdatedServiceIs(env: Env, st: State, v: string, o: ServiceOptions, io: Io)
    requires v in st.services && Model.UpdateService(env, st, v, o, io).1.Ok?
    ensures var k := Key(st, v);
            && k in st.kernel
            && ServiceInstalled(st, Model.UpdateService(env, st, v, o, io).0, v, FillService(env, o).0, st.kernel[k].dests, true)
  {
    ReplacedServiceIs(st, v, FillService(env, o).0, io);
  }

  lemma ReplacedServiceIs(st: State, v: string, o: ServiceOptions, io: Io)
    requires v in st.services && ReplaceService(st, v, o, io).1.Ok?
    ensures Key(st, v) in st.kernel
    ensures ServiceInstalled(st, ReplaceService(st, v, o, io).0, v, o, st.kernel[Key(st, v)].dests, true)
  {}

  /** The backend's destination in the kernel's entry for its service, by the
      method's name. */
  predicate Forwards(t: Table, service: ServiceOptions, o: BackendOptions) {
    var k, d := ServiceKey(ShowIp(service.ip), service.spec.port, service.spec.protocol), DestKey(ShowIp(o.ip), o.spec.port);
    && k in t && d in t[k].dests && t[k].dests[d].weight == o.spec.weight
    && t[k].dests[d].forwarding ==
         match o.spec.fwd case "dr" => DirectRoute case "nat" => Masquerade case _ => Tunnel
  }

  /** The table but for one destination. */
  predicate ElsewhereSame(before: Table, after: Table, service: ServiceOptions, o: BackendOptions) {
    var k, d := ServiceKey(ShowIp(service.ip), service.spec.port, service.spec.protocol), DestKey(ShowIp(o.ip), o.spec.port);
    && after.Keys == before.Keys && (forall j :: j in before && j != k ==> after[j] == before[j])
    && k in before && after[k].(dests := after[k].dests - {d}) == before[k].(dests := before[k].dests - {d})
  }

  /** A backend just created: registered under the service's object with the
      prepared options and no metrics yet, in the kernel, in the store with its
      service's id, and with a monitor of its own. */
  lemma CreatedBackendIs(env: Env, st: State, v: string, rs: string, o: BackendOptions, io: Io)
    requires CreateBackend(env, st, v, rs, o, io).1.Ok?
    ensures BackendInstalled(st, CreateBackend(env, st, v, rs, o, io).0, v, rs, Labelled(st, v, PrepareBackend(env, o).0))
  {
    CreateIsAttach(env, st, v, rs, o, io);
    AttachedBackendIs(st, v, rs, PrepareBackend(env, o).0, io);
  }

  predicate BackendInstalled(st: State, after: State, v: string, rs: string, o: BackendOptions) {
    && v in st.services && rs !in st.backends && rs in after.backends
    && after.services == st.services && after.backends == st.backends[rs := after.backends[rs]]
    && after.backends[rs].options == o && after.backends[rs].service == st.services[v]
    && after.backends[rs].metrics == Snapshot(Up, 0.0, 0, 0, [])
    && after.backends[rs].monitor == |st.monitors|
    && after.monitors == st.monitors + [PulseId(v, rs)] && after.stopped == st.stopped
    && Forwards(after.kernel, st.services[v].options, o) && ElsewhereSame(st.kernel, after.kernel, st.services[v].options, o)
    && (if st.store.None? then after.store.None?
        else after.store.Some? && after.store.value.services == st.store.value.services && o.spec.vsid == v
             && Stored(st.store.value.backends, after.store.value.backends, rs, o.spec, false))
  }

  lemma AttachedBackendIs(st: State, v: string, rs: string, p: BackendOptions, io: Io)
    requires AttachBackend(st, v, rs, p, io).1.Ok?
    ensures BackendInstalled(st, AttachBackend(st, v, rs, p, io).0, v, rs, Labelled(st, v, p))
  {
    ForwardingExactly(p.spec.fwd);
  }

  /** A new weight, in the options and in the kernel; the store keeps the one
      first asked for. */
  lemma ReweightedBackendIs(st: State, rs: string, weight: uint32, io: Io)
    requires UpdateBackend(st, rs, weight, io).1.Ok?
    ensures var after := UpdateBackend(st, rs, weight, io).0;
            && rs in st.backends && rs in after.backends && after.services == st.services && after.store == st.store
            && after.backends == st.backends[rs := after.backends[rs]]
            && after.backends[rs].options == st.backends[rs].options.(spec := st.backends[rs].options.spec.(weight := weight))
            && after.backends[rs].metrics == st.backends[rs].metrics
            && Forwards(after.kernel, st.backends[rs].service.options, after.backends[rs].options)
            && ElsewhereSame(st.kernel, after.kernel, st.backends[rs].service.options, st.backends[rs].options)
  {
    ForwardingExactly(st.backends[rs].options.spec.fwd);
  }

  /** A removed backend is gone everywhere, unless the store fails to delete it. */
  lemma RemovedBackendIs(st: State, rs: string, io: Io)
    requires RemoveBackend(st, rs, io).1.Ok?
    ensures var after := RemoveBackend(st, rs, io).0;
            && rs in st.backends && after.services == st.services && after.backends == st.backends - {rs}
            && after.stopped == st.stopped + {st.backends[rs].monitor}
            && ElsewhereSame(st.kernel, after.kernel, st.backends[rs].service.options, st.backends[rs].options)
            && !HasDest(after.kernel, BackKey(st, rs), BackDest(st, rs))
            && (st.store.Some? ==>
                  after.store == Some(st.store.value.(backends := st.store.value.backends - if io.del then {rs} else {})))
  {}

  /** A removed service is gone with exactly the backends that held its object,
      but for what the store fails to delete. */
  lemma RemovedServiceIs(st: State, v: string, io: Io)
    requires RemoveService(st, v, io).1.Ok?
    ensures var after := RemoveService(st, v, io).0;
            && v in st.services && after.services == st.services - {v}
            && (forall rs :: rs in after.backends <==>
                  rs in st.backends && st.backends[rs].service.ref != st.services[v].ref)
            && (forall rs :: rs in after.backends ==> after.backends[rs] == st.backends[rs])
            && after.kernel == st.kernel - {Key(st, v)}
            && (forall rs :: rs in st.backends && rs !in after.backends ==> st.backends[rs].monitor in after.stopped)
            && (st.store.Some? ==>
                  && after.store.Some?
                  && after.store.value.services == st.store.value.services - (if io.del then {v} else {})
                  && after.store.value.backends == st.store.value.backends - (st.backends.Keys - after.backends.Keys - io.lost))
  {
    if st.store.Some? {
      assert st.store.value.services - {} == st.store.value.services;
      assert st.backends.Keys - RemoveService(st, v, io).0.backends.Keys == Orphans(st, st.services[v]);
    }
  }

  /** Updating a service that is not there is creating it. */
  lemma UpdateCreates(env: Env, st: State, v: string, o: ServiceOptions, io: Io)
    requires v !in st.services
    ensures Model.UpdateService(env, st, v, o, io) == CreateService(env, st, v, o, io)
  {
    if FillService(env, o).1.Ok? {
      FillServiceNormalises(env, o, FillService(env, o).0.ip);
    }
  }
}
