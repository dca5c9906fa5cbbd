/** Synchronize with its four loops in arbitrary order, and Store.Sync
    (core/context.go, core/store.go). */
module Sync {
  import opened Basics
  import opened Net
  import opened Options
  import opened IpvsTable
  import opened Metrics
  import opened Model
  import opened Effects
  import opened Invariants
  import opened Runs
  import opened Shutdown
  import opened Reconcile
  import opened Convergence

  /** Which call of Synchronize an outside answer belongs to. */
  datatype Stage = StaleService | ChangedService | MissingService | StaleBackend | ChangedBackend | MissingBackend

  type Answers = (Stage, string) -> Io

  function Decoded(spec: ServiceSpec): ServiceOptions { ServiceOptions(spec, []) }

  function DecodedBackend(spec: BackendSpec): BackendOptions { BackendOptions(spec, []) }

  /** The four loops of Synchronize: drop the services the store does not know,
      make the ones it does, and the same for backends. */
  datatype Loop =
    | StaleServices(ss: map<string, ServiceSpec>)
    | WantedServices(ss: map<string, ServiceSpec>)
    | StaleBackends(sb: map<string, BackendSpec>)
    | WantedBackends(sb: map<string, BackendSpec>)

  /** The calls of Synchronize, made outside any request. */
  function RemovedService(env: Env, st: State, id: string, io: Io): State {
    Fatal(Apply(env, st, OpRemoveService(id, io)))
  }

  function RemovedBackend(env: Env, st: State, id: string, io: Io): State {
    Fatal(Apply(env, st, OpRemoveBackend(id, io)))
  }

  function CreatedService(env: Env, st: State, id: string, spec: ServiceSpec, io: Io): State {
    Apply(env, st, OpCreateService(id, Decoded(spec), io)).0
  }

  function CreatedBackend(env: Env, st: State, id: string, spec: BackendSpec, io: Io): State {
    Apply(env, st, OpCreateBackend(spec.vsid, id, DecodedBackend(spec), io)).0
  }

  function MadeService(env: Env, st: State, id: string, spec: ServiceSpec, io: Answers): State {
    if id in st.services && SameService(st.services[id].options.spec, spec) then st
    else
      var cleared := if id in st.services then RemovedService(env, st, id, io(ChangedService, id)) else st;
      if cleared.crashed then cleared else CreatedService(env, cleared, id, spec, io(MissingService, id))
  }

  function MadeBackend(env: Env, st: State, id: string, spec: BackendSpec, io: Answers): State {
    if id in st.backends && SameBackend(st.backends[id].options.spec, spec) then st
    else
      var cleared := if id in st.backends then RemovedBackend(env, st, id, io(ChangedBackend, id)) else st;
      if cleared.crashed then cleared else CreatedBackend(env, cleared, id, spec, io(MissingBackend, id))
  }

  /** One turn of a loop; a process that has died takes no further turn. */
  function Turn(env: Env, st: State, l: Loop, id: string, io: Answers): State {
    if st.crashed then st
    else match l
      case StaleServices(ss) => if id in ss then st else RemovedService(env, st, id, io(StaleService, id))
      case WantedServices(ss) => if id in ss then MadeService(env, st, id, ss[id], io) else st
      case StaleBackends(sb) => if id in sb then st else RemovedBackend(env, st, id, io(StaleBackend, id))
      case WantedBackends(sb) => if id in sb then MadeBackend(env, st, id, sb[id], io) else st
  }

  /** A loop that visits its keys in the given order. */
  function Looped(env: Env, st: State, l: Loop, order: seq<string>, io: Answers): State {
    if order == [] then st
    else
      var n := |order| - 1;
      Turn(env, Looped(env, st, l, order[..n], io), l, order[n], io)
  }

  /** The same answers, where the clean-up that panics, if one does, came to
      these backends first. */
  function Reaching(io: Answers, reached: set<string>): Answers {
    (stage, id) => io(stage, id).(reached := reached)
  }

  lemma TurnReaching(env: Env, st: State, l: Loop, id: string, io: Answers, reached: set<string>)
    requires !Turn(env, st, l, id, Reaching(io, {})).crashed
    ensures Turn(env, st, l, id, Reaching(io, reached)) == Turn(env, st, l, id, Reaching(io, {}))
  {
    if !st.crashed {
      match l
      case StaleServices(ss) =>
        if id !in ss {
          RemovedReaching(env, st, id, io(StaleService, id), reached);
        }
      case WantedServices(ss) =>
        if id in ss {
          MadeServiceReaching(env, st, id, ss[id], io, reached);
        }
      case StaleBackends(sb) => OthersReaching(env, st, id, io(StaleBackend, id), reached);
      case WantedBackends(sb) =>
        if id in sb {
          MadeBackendReaching(env, st, id, sb[id], io, reached);
        }
    }
  }

  lemma RemovedReaching(env: Env, st: State, id: string, io: Io, reached: set<string>)
    requires !RemovedService(env, st, id, io.(reached := {})).crashed
    ensures RemovedService(env, st, id, io.(reached := reached)) == RemovedService(env, st, id, io.(reached := {}))
  {
    RemovalReaching(st, id, io.(reached := {}), reached);
  }

  /** The other operations have no clean-up. */
  lemma OthersReaching(env: Env, st: State, id: string, io: Io, reached: set<string>)
    ensures RemovedBackend(env, st, id, io.(reached := reached)) == RemovedBackend(env, st, id, io.(reached := {}))
  {}

  lemma CreationReaching(env: Env, st: State, id: string, spec: ServiceSpec, io: Io, reached: set<string>)
    ensures CreatedService(env, st, id, spec, io.(reached := reached)) == CreatedService(env, st, id, spec, io.(reached := {}))
  {}

  lemma BackendCreationReaching(env: Env, st: State, id: string, spec: BackendSpec, io: Io, reached: set<string>)
    ensures CreatedBackend(env, st, id, spec, io.(reached := reached)) == CreatedBackend(env, st, id, spec, io.(reached := {}))
  {}

  lemma MadeServiceReaching(env: Env, st: State, id: string, spec: ServiceSpec, io: Answers, reached: set<string>)
    requires !st.crashed && !MadeService(env, st, id, spec, Reaching(io, {})).crashed
    ensures MadeService(env, st, id, spec, Reaching(io, reached)) == MadeService(env, st, id, spec, Reaching(io, {}))
  {
    if !(id in st.services && SameService(st.services[id].options.spec, spec)) {
      var cleared := st;
      if id in st.services {
        cleared := RemovedService(env, st, id, io(ChangedService, id).(reached := {}));
        RemovedReaching(env, st, id, io(ChangedService, id), reached);
      }
      CreationReaching(env, cleared, id, spec, io(MissingService, id), reached);
    }
  }

  lemma MadeBackendReaching(env: Env, st: State, id: string, spec: BackendSpec, io: Answers, reached: set<string>)
    ensures MadeBackend(env, st, id, spec, Reaching(io, reached)) == MadeBackend(env, st, id, spec, Reaching(io, {}))
  {
    if !(id in st.backends && SameBackend(st.backends[id].options.spec, spec)) {
      var cleared := st;
      if id in st.backends {
        cleared := RemovedBackend(env, st, id, io(ChangedBackend, id).(reached := {}));
        OthersReaching(env, st, id, io(ChangedBackend, id), reached);
      }
      BackendCreationReaching(env, cleared, id, spec, io(MissingBackend, id), reached);
    }
  }

  /** The order in which a clean-up panics matters to no one else. */
  lemma {:induction false} LoopedReaching(env: Env, st: State, l: Loop, order: seq<string>, io: Answers, reached: set<string>)
    requires !Looped(env, st, l, order, Reaching(io, {})).crashed
    ensures Looped(env, st, l, order, Reaching(io, reached)) == Looped(env, st, l, order, Reaching(io, {}))
  {
    if order != [] {
      var n := |order| - 1;
      LoopedReaching(env, st, l, order[..n], io, reached);
      TurnReaching(env, Looped(env, st, l, order[..n], Reaching(io, {})), l, order[n], io, reached);
    }
  }

  predicate Distinct(order: seq<string>) {
    forall i, j :: 0 <= i < j < |order| ==> order[i] != order[j]
  }

  function Ids(order: seq<string>): set<string> {
    set id | id in order
  }

  lemma LoopedOne(env: Env, st: State, l: Loop, order: seq<string>, id: string, io: Answers)
    ensures Looped(env, st, l, order + [id], io) == Turn(env, Looped(env, st, l, order, io), l, id, io)
    ensures Ids(order + [id]) == Ids(order) + {id}
    ensures Distinct(order) && id !in order ==> Distinct(order + [id])
  {
    assert (order + [id])[..|order|] == order;
  }

  lemma OneMoreTurn(env: Env, st: State, l: Loop, order: seq<string>, id: string, io: Answers, reached: set<string>)
    requires !Looped(env, st, l, order, Reaching(io, {})).crashed
    ensures Looped(env, st, l, order + [id], Reaching(io, reached)) ==
            Turn(env, Looped(env, st, l, order, Reaching(io, {})), l, id, Reaching(io, reached))
  {
    LoopedReaching(env, st, l, order, io, reached);
    LoopedOne(env, st, l, order, id, Reaching(io, reached));
  }

  /** An order in which the keys of a map can be visited. */
  predicate Visits(order: seq<string>, keys: set<string>) {
    Distinct(order) && Ids(order) == keys
  }

  /** The orders the four range loops happen to take. */
  datatype Orders = Orders(services: seq<string>, wanted: seq<string>, backends: seq<string>, wantedBackends: seq<string>)

  function AfterServices(env: Env, st: State, ss: map<string, ServiceSpec>, o: Orders, io: Answers): State {
    Looped(env, Looped(env, st, StaleServices(ss), o.services, io), WantedServices(ss), o.wanted, io)
  }

  predicate Possible(env: Env, st: State, ss: map<string, ServiceSpec>, sb: map<string, BackendSpec>, o: Orders, io: Answers) {
    && Visits(o.services, st.services.Keys) && Visits(o.wanted, ss.Keys)
    && Visits(o.backends, AfterServices(env, st, ss, o, io).backends.Keys) && Visits(o.wantedBackends, sb.Keys)
  }

  lemma ServicesReaching(env: Env, st: State, ss: map<string, ServiceSpec>, o: Orders, io: Answers, reached: set<string>)
    requires !AfterServices(env, st, ss, o, Reaching(io, {})).crashed
    ensures AfterServices(env, st, ss, o, Reaching(io, reached)) == AfterServices(env, st, ss, o, Reaching(io, {}))
  {
    var first := Looped(env, st, StaleServices(ss), o.services, Reaching(io, {}));
    LoopedReaching(env, first, WantedServices(ss), o.wanted, io, reached);
    if first.crashed {
      StaysCrashed(env, first, WantedServices(ss), o.wanted, Reaching(io, {}));
    }
    LoopedReaching(env, st, StaleServices(ss), o.services, io, reached);
  }

  lemma {:induction false} StaysCrashed(env: Env, st: State, l: Loop, order: seq<string>, io: Answers)
    requires st.crashed
    ensures Looped(env, st, l, order, io) == st
  {
    if order != [] {
      StaysCrashed(env, st, l, order[..|order| - 1], io);
    }
  }

  /** Context.Synchronize for one choice of orders. */
  function Synchronized(env: Env, st: State, ss: map<string, ServiceSpec>, sb: map<string, BackendSpec>, o: Orders, io: Answers): State {
    Looped(env, Looped(env, AfterServices(env, st, ss, o, io), StaleBackends(sb), o.backends, io),
           WantedBackends(sb), o.wantedBackends, io)
  }

  /** Store.Sync: read the store and synchronise with it. */
  function StoreSync(env: Env, st: State, o: Orders, io: Answers): State {
    match st.store
    case None => st
    case Some(kv) => Synchronized(env, st, kv.services, kv.backends, o, io)
  }

  ghost predicate SyncPossible(env: Env, st: State, o: Orders, io: Answers) {
    st.store.Some? && Possible(env, st, st.store.value.services, st.store.value.backends, o, io)
  }

  /** What a user can see of a state. */
  function ViewOf(st: State): View {
    View(map v | v in st.services :: st.services[v].options,
         map rs | rs in st.backends :: Held(OwnerOf(st, rs), st.backends[rs].options),
         match st.store case Some(kv) => kv case None => Kv(map[], map[]))
  }

  function OwnerOf(st: State, rs: string): string
    requires rs in st.backends
  {
    if st.backends[rs].monitor < |st.monitors| then st.monitors[st.backends[rs].monitor].vsID else ""
  }

  /** In step and attached to a store. */
  ghost predicate Attached(env: Env, st: State) {
    InStep(env, st) && st.store.Some?
  }

  ghost predicate NoFailures(io: Answers) {
    forall stage, id :: io(stage, id) == CLEAN
  }

  lemma AttachedKept(env: Env, st: State, op: Op)
    requires Attached(env, st) && Calm(st, op)
    ensures Attached(env, Apply(env, st, op).0)
  {
    CalmKeepsInStep(env, st, op);
  }

  lemma PointerIsOwner(st: State, v: string, rs: string)
    requires Identities(st) && v in st.services && OwnedBackend(st, rs)
    ensures st.backends[rs].service.ref == st.services[v].ref <==> OwnerOf(st, rs) == v
  {}

  lemma OrphansAreHeld(st: State, v: string)
    requires Identities(st) && Owned(st) && v in st.services
    ensures Orphans(st, st.services[v]) == HeldBy(ViewOf(st), {v})
  {
    forall rs | rs in st.backends
      ensures st.backends[rs].service.ref == st.services[v].ref <==> OwnerOf(st, rs) == v
    {
      PointerIsOwner(st, v, rs);
    }
  }

  lemma ViewWithoutService(st: State, after: State, id: string)
    requires st.store.Some? && after.monitors == st.monitors
    requires var orphans := HeldBy(ViewOf(st), {id}); var kv := st.store.value;
             && after.services == st.services - {id} && after.backends == st.backends - orphans
             && after.store == Some(Kv(kv.services - {id}, kv.backends - orphans))
    ensures ViewOf(after) == WithoutServices(ViewOf(st), {id})
  {
    assert ViewOf(after).services == ViewOf(st).services - {id};
    assert ViewOf(after).backends == ViewOf(st).backends - HeldBy(ViewOf(st), {id});
  }

  lemma RemovedServiceShape(env: Env, st: State, id: string)
    requires Attached(env, st) && id in st.services
    ensures var after, orphans, kv := RemoveService(st, id, CLEAN).0, Orphans(st, st.services[id]), st.store.value;
            && after.services == st.services - {id} && after.backends == st.backends - orphans
            && after.monitors == st.monitors
            && after.store == Some(Kv(kv.services - {id}, kv.backends - orphans))
  {
    var op := OpRemoveService(id, CLEAN);
    UnwedgedMeansClean(st, op);
    RemovalSucceeds(env, st, op);
    CompletedRemoval(st, id);
  }

  lemma CompletedRemoval(st: State, id: string)
    requires id in st.services && st.store.Some? && RemoveService(st, id, CLEAN).1.Ok?
    ensures var after, orphans, kv := RemoveService(st, id, CLEAN).0, Orphans(st, st.services[id]), st.store.value;
            && after.services == st.services - {id} && after.backends == st.backends - orphans
            && after.monitors == st.monitors
            && after.store == Some(Kv(kv.services - {id}, kv.backends - orphans))
  {
    assert Orphans(st, st.services[id]) - {} == Orphans(st, st.services[id]);
  }

  lemma RemoveServiceView(env: Env, st: State, id: string)
    requires Attached(env, st) && id in ViewOf(st).services
    ensures var after := RemovedService(env, st, id, CLEAN);
            Attached(env, after) && ViewOf(after) == WithoutServices(ViewOf(st), {id})
  {
    AttachedKept(env, st, OpRemoveService(id, CLEAN));
    UnwedgedKept(env, st, OpRemoveService(id, CLEAN));
    OrphansAreHeld(st, id);
    RemovedServiceShape(env, st, id);
    ViewWithoutService(st, RemoveService(st, id, CLEAN).0, id);
  }

  /** No registered service has this address. */
  predicate FreeAddress(w: View, k: ServiceKey) {
    forall v :: v in w.services ==> KeyOf(w.services[v]) != k
  }

  /** No backend of the service holds the destination. */
  predicate FreeDest(w: View, v: string, d: DestKey) {
    forall rs :: rs in w.backends && w.backends[rs].owner == v ==> DestOf(w.backends[rs].options) != d
  }

  /** Creating a service whose wanted address is free. */
  lemma CreateServiceView(env: Env, st: State, id: string, ss: map<string, ServiceSpec>)
    requires Attached(env, st) && id !in ViewOf(st).services && id in ss
    requires FillService(env, Decoded(ss[id])).1.Ok? && FreeAddress(ViewOf(st), KeyOf(FilledService(env, ss[id])))
    ensures var after := CreatedService(env, st, id, ss[id], CLEAN);
            Attached(env, after) && ViewOf(after) == WithServices(env, ViewOf(st), ss, {id})
  {
    AttachedKept(env, st, OpCreateService(id, Decoded(ss[id]), CLEAN));
    FillServiceNormalises(env, Decoded(ss[id]), []);
    assert forall v :: v in st.services ==> ViewOf(st).services[v] == st.services[v].options;
    RegisterShape(st, id, FilledService(env, ss[id]));
    ViewWithService(env, st, RegisterService(st, id, FilledService(env, ss[id]), CLEAN).0, id, ss);
  }

  lemma RegisterShape(st: State, id: string, o: ServiceOptions)
    requires NoStrayService(st) && id !in st.services && ValidProtocol(o.spec.protocol)
    requires forall v :: v in st.services ==> Key(st, v) != KeyOf(o)
    ensures var after := RegisterService(st, id, o, CLEAN).0;
            && after.services == st.services[id := Service(st.nextRef, st.nextRef, o)]
            && after.backends == st.backends && after.monitors == st.monitors
            && after.store == PutService(st.store, id, o.spec, false)
  {
    assert forall v :: !IsAt(st, v, KeyOf(o));
    assert KeyOf(o) !in st.kernel;
  }

  lemma ViewWithService(env: Env, st: State, after: State, id: string, ss: map<string, ServiceSpec>)
    requires st.store.Some? && id !in st.services && id in ss
    requires var o := FilledService(env, ss[id]);
             && after.services == st.services[id := Service(st.nextRef, st.nextRef, o)]
             && after.backends == st.backends && after.monitors == st.monitors
             && after.store == PutService(st.store, id, o.spec, false)
    ensures ViewOf(after) == WithServices(env, ViewOf(st), ss, {id})
  {
    var w := ViewOf(st);
    assert Changed(w, ss, {id}) == {};
    NothingHeld(w);
    RegisteredWithService(env, st, after, id, ss);
    StoredWithService(env, st, id, ss);
    assert ViewOf(after).backends == w.backends;
  }

  lemma NothingHeld(w: View)
    ensures HeldBy(w, {}) == {} && w.backends - {} == w.backends && w.store.backends - {} == w.store.backends
  {}

  lemma RegisteredWithService(env: Env, st: State, after: State, id: string, ss: map<string, ServiceSpec>)
    requires id in ss && after.services == st.services[id := Service(st.nextRef, st.nextRef, FilledService(env, ss[id]))]
    ensures ViewOf(after).services == RegisteredServices(env, ViewOf(st), ss, {id})
  {}

  lemma StoredWithService(env: Env, st: State, id: string, ss: map<string, ServiceSpec>)
    requires st.store.Some? && id !in st.services && id in ss
    ensures PutService(st.store, id, FilledService(env, ss[id]).spec, false).value.services ==
            StoredServices(env, ViewOf(st), ss, {id})
  {}

  lemma RemoveBackendView(env: Env, st: State, id: string)
    requires Attached(env, st) && id in ViewOf(st).backends
    ensures var after := RemovedBackend(env, st, id, CLEAN);
            Attached(env, after) && ViewOf(after) == WithoutBackends(ViewOf(st), {id})
  {
    var op := OpRemoveBackend(id, CLEAN);
    AttachedKept(env, st, op);
    UnwedgedKept(env, st, op);
    ApplyRemoveBackend(env, st, op);
    RemovedBackendView(env, st, id);
  }

  lemma ApplyRemoveBackend(env: Env, st: State, op: Op)
    requires op.OpRemoveBackend?
    ensures Apply(env, st, op) == RemoveBackend(st, op.rsID, op.io)
  {}

  lemma RemovedBackendView(env: Env, st: State, id: string)
    requires Attached(env, st) && id in st.backends
    ensures ViewOf(RemoveBackend(st, id, CLEAN).0) == WithoutBackends(ViewOf(st), {id})
  {
    RefinedDeletesDest(env, st, OpRemoveBackend(id, CLEAN));
    RemovedBackendShape(st, id);
    ViewWithoutBackend(st, RemoveBackend(st, id, CLEAN).0, id);
  }

  lemma RemovedBackendShape(st: State, id: string)
    requires Unwedged(st) && st.store.Some? && id in st.backends && ValidProtocol(BackKey(st, id).protocol)
    requires !FailsToDelete(st, OpRemoveBackend(id, CLEAN))
    ensures var after, kv := RemoveBackend(st, id, CLEAN).0, st.store.value;
            && after.services == st.services && after.backends == st.backends - {id} && after.monitors == st.monitors
            && after.store == Some(kv.(backends := kv.backends - {id}))
  {}

  lemma ViewWithoutBackend(st: State, after: State, id: string)
    requires st.store.Some? && after.monitors == st.monitors
    requires var kv := st.store.value;
             && after.services == st.services && after.backends == st.backends - {id}
             && after.store == Some(kv.(backends := kv.backends - {id}))
    ensures ViewOf(after) == WithoutBackends(ViewOf(st), {id})
  {
    assert ViewOf(after).backends == ViewOf(st).backends - {id};
  }

  /** Creating a backend whose service is there and whose destination is free. */
  lemma CreateBackendView(env: Env, st: State, id: string, ss: map<string, ServiceSpec>, sb: map<string, BackendSpec>)
    requires Attached(env, st) && id !in ViewOf(st).backends && id in sb && ValidBackend(env, ss, sb[id])
    requires ServiceIs(ViewOf(st), sb[id].vsid, FilledService(env, ss[sb[id].vsid]))
    requires FreeDest(ViewOf(st), sb[id].vsid, DestOf(FilledBackend(env, sb[id])))
    ensures var after := CreatedBackend(env, st, id, sb[id], CLEAN);
            Attached(env, after) && ViewOf(after) == WithBackends(env, ViewOf(st), sb, {id})
  {
    AttachedKept(env, st, OpCreateBackend(sb[id].vsid, id, DecodedBackend(sb[id]), CLEAN));
    ApplyCreateBackend(env, st, id, sb);
    AttachedBackendView(env, st, id, ss, sb);
  }

  predicate ServiceIs(w: View, v: string, o: ServiceOptions) {
    v in w.services && w.services[v] == o
  }

  lemma ApplyCreateBackend(env: Env, st: State, id: string, sb: map<string, BackendSpec>)
    requires id in sb && PrepareBackend(env, DecodedBackend(sb[id])).1.Ok?
    ensures Apply(env, st, OpCreateBackend(sb[id].vsid, id, DecodedBackend(sb[id]), CLEAN)) ==
            AttachBackend(st, sb[id].vsid, id, FilledBackend(env, sb[id]), CLEAN)
  {}

  lemma AttachedBackendView(env: Env, st: State, id: string, ss: map<string, ServiceSpec>, sb: map<string, BackendSpec>)
    requires Attached(env, st) && id !in st.backends && id in sb && ValidBackend(env, ss, sb[id])
    requires ServiceIs(ViewOf(st), sb[id].vsid, FilledService(env, ss[sb[id].vsid]))
    requires FreeDest(ViewOf(st), sb[id].vsid, DestOf(FilledBackend(env, sb[id])))
    ensures ViewOf(AttachBackend(st, sb[id].vsid, id, FilledBackend(env, sb[id]), CLEAN).0) ==
            WithBackends(env, ViewOf(st), sb, {id})
  {
    var v, o := sb[id].vsid, FilledBackend(env, sb[id]);
    PrepareBackendNormalises(env, DecodedBackend(sb[id]), []);
    DestIsFree(env, st, v, DestOf(o));
    AttachSucceeds(env, st, v, id, o);
    ViewWithBackend(env, st, AttachBackend(st, v, id, o, CLEAN).0, id, sb);
  }

  lemma DestIsFree(env: Env, st: State, v: string, d: DestKey)
    requires Attached(env, st) && v in st.services
    requires FreeDest(ViewOf(st), v, d)
    ensures !HasDest(st.kernel, Key(st, v), d)
  {
    forall rs | rs in st.backends && BackKey(st, rs) == Key(st, v)
      ensures ViewOf(st).backends[rs].owner == v && BackDest(st, rs) != d
    {
      assert OwnedBackend(st, rs);
      assert ViewOf(st).backends[rs] == Held(OwnerOf(st, rs), st.backends[rs].options);
    }
  }

  lemma AttachSucceeds(env: Env, st: State, v: string, id: string, o: BackendOptions)
    requires Attached(env, st) && v in st.services && id !in st.backends
    requires AddrFamily(o.ip) == AddrFamily(st.services[v].options.ip)
    requires ValidForwarding(o.spec.fwd) && o.spec.vsid == v && !HasDest(st.kernel, Key(st, v), DestOf(o))
    ensures var after := AttachBackend(st, v, id, o, CLEAN).0;
            && after.services == st.services
            && after.backends == st.backends[id := Backend(o, st.services[v], |st.monitors|, ZERO)]
            && after.monitors == st.monitors + [PulseId(v, id)]
            && after.store == PutBackend(st.store, id, o.spec)
  {
    FillServiceNormalises(env, ServiceOptions(st.services[v].options.spec, []), []);
    assert Labelled(st, v, o) == o;
  }

  lemma ViewWithBackend(env: Env, st: State, after: State, id: string, sb: map<string, BackendSpec>)
    requires st.store.Some? && id !in st.backends && id in sb && sb[id].vsid in st.services
    requires forall rs :: rs in st.backends ==> st.backends[rs].monitor < |st.monitors|
    requires var o, v := FilledBackend(env, sb[id]), sb[id].vsid;
             && after.services == st.services
             && after.backends == st.backends[id := Backend(o, st.services[v], |st.monitors|, ZERO)]
             && after.monitors == st.monitors + [PulseId(v, id)]
             && after.store == PutBackend(st.store, id, o.spec)
    ensures ViewOf(after) == WithBackends(env, ViewOf(st), sb, {id})
  {
    HeldWithBackend(env, st, after, id, sb);
    StoredWithBackend(env, st, id, sb);
  }

  lemma HeldWithBackend(env: Env, st: State, after: State, id: string, sb: map<string, BackendSpec>)
    requires id !in st.backends && id in sb && sb[id].vsid in st.services
    requires forall rs :: rs in st.backends ==> st.backends[rs].monitor < |st.monitors|
    requires var o, v := FilledBackend(env, sb[id]), sb[id].vsid;
             && after.backends == st.backends[id := Backend(o, st.services[v], |st.monitors|, ZERO)]
             && after.monitors == st.monitors + [PulseId(v, id)]
    ensures ViewOf(after).backends == HeldBackends(env, ViewOf(st), sb, {id})
  {
    assert forall rs :: rs in st.backends ==> OwnerOf(after, rs) == OwnerOf(st, rs);
    assert OwnerOf(after, id) == sb[id].vsid;
  }

  lemma StoredWithBackend(env: Env, st: State, id: string, sb: map<string, BackendSpec>)
    requires st.store.Some? && id !in st.backends && id in sb
    ensures PutBackend(st.store, id, FilledBackend(env, sb[id]).spec).value.backends ==
            StoredBackends(env, ViewOf(st), sb, {id})
  {}

  /** What the loops need to know about the operations, for states of a kind
      `p` that the operations keep. */
  ghost predicate Removes(env: Env, p: State -> bool, s: State, id: string) {
    var t := RemovedService(env, s, id, CLEAN);
    p(t) && ViewOf(t) == WithoutServices(ViewOf(s), {id})
  }

  /** The wanted service can be created in this view. */
  ghost predicate WelcomeService(env: Env, w: View, ss: map<string, ServiceSpec>, id: string) {
    && id !in w.services && id in ss && FillService(env, Decoded(ss[id])).1.Ok?
    && FreeAddress(w, KeyOf(FilledService(env, ss[id])))
  }

  ghost predicate Creates(env: Env, p: State -> bool, s: State, ss: map<string, ServiceSpec>, id: string)
    requires id in ss
  {
    var t := CreatedService(env, s, id, ss[id], CLEAN);
    p(t) && ViewOf(t) == WithServices(env, ViewOf(s), ss, {id})
  }

  ghost predicate ServiceLaws(env: Env, p: State -> bool) {
    && (forall s :: p(s) ==> !s.crashed)
    && (forall s, id :: p(s) && id in ViewOf(s).services ==> Removes(env, p, s, id))
    && (forall s, id, ss :: p(s) && WelcomeService(env, ViewOf(s), ss, id) ==> Creates(env, p, s, ss, id))
  }

  ghost predicate RemovesBackend(env: Env, p: State -> bool, s: State, id: string) {
    var t := RemovedBackend(env, s, id, CLEAN);
    p(t) && ViewOf(t) == WithoutBackends(ViewOf(s), {id})
  }

  /** The wanted backend can be created in this view. */
  ghost predicate WelcomeBackend(env: Env, w: View, ss: map<string, ServiceSpec>, sb: map<string, BackendSpec>, id: string) {
    && id in sb && id !in w.backends && ValidBackend(env, ss, sb[id])
    && ServiceIs(w, sb[id].vsid, FilledService(env, ss[sb[id].vsid]))
    && FreeDest(w, sb[id].vsid, DestOf(FilledBackend(env, sb[id])))
  }

  ghost predicate CreatesBackend(env: Env, p: State -> bool, s: State, sb: map<string, BackendSpec>, id: string)
    requires id in sb
  {
    var t := CreatedBackend(env, s, id, sb[id], CLEAN);
    p(t) && ViewOf(t) == WithBackends(env, ViewOf(s), sb, {id})
  }

  ghost predicate BackendLaws(env: Env, p: State -> bool) {
    && (forall s :: p(s) ==> !s.crashed)
    && (forall s, id :: p(s) && id in ViewOf(s).backends ==> RemovesBackend(env, p, s, id))
    && (forall s, id, ss, sb :: p(s) && WelcomeBackend(env, ViewOf(s), ss, sb, id) ==> CreatesBackend(env, p, s, sb, id))
  }

  /** `p` is being in step and attached to a store. */
  ghost predicate IsAttached(env: Env, p: State -> bool) {
    forall s :: p(s) <==> Attached(env, s)
  }

  lemma RemovesAt(env: Env, p: State -> bool, s: State, id: string)
    requires IsAttached(env, p) && p(s) && id in ViewOf(s).services
    ensures Removes(env, p, s, id)
  {
    RemoveServiceView(env, s, id);
  }

  lemma CreatesAt(env: Env, p: State -> bool, s: State, ss: map<string, ServiceSpec>, id: string)
    requires IsAttached(env, p) && p(s) && WelcomeService(env, ViewOf(s), ss, id)
    ensures Creates(env, p, s, ss, id)
  {
    CreateServiceView(env, s, id, ss);
  }

  lemma RemovesBackendAt(env: Env, p: State -> bool, s: State, id: string)
    requires IsAttached(env, p) && p(s) && id in ViewOf(s).backends
    ensures RemovesBackend(env, p, s, id)
  {
    RemoveBackendView(env, s, id);
  }

  lemma CreatesBackendAt(env: Env, p: State -> bool, s: State, ss: map<string, ServiceSpec>, sb: map<string, BackendSpec>, id: string)
    requires IsAttached(env, p) && p(s) && WelcomeBackend(env, ViewOf(s), ss, sb, id)
    ensures CreatesBackend(env, p, s, sb, id)
  {
    CreateBackendView(env, s, id, ss, sb);
  }

  lemma ServiceLawsHold(env: Env, p: State -> bool)
    requires IsAttached(env, p)
    ensures ServiceLaws(env, p)
  {
    forall s, id | p(s) && id in ViewOf(s).services ensures Removes(env, p, s, id) {
      RemovesAt(env, p, s, id);
    }
    forall s, id, ss | p(s) && WelcomeService(env, ViewOf(s), ss, id) ensures Creates(env, p, s, ss, id) {
      CreatesAt(env, p, s, ss, id);
    }
  }

  lemma BackendLawsHold(env: Env, p: State -> bool)
    requires IsAttached(env, p)
    ensures BackendLaws(env, p)
  {
    forall s, id | p(s) && id in ViewOf(s).backends ensures RemovesBackend(env, p, s, id) {
      RemovesBackendAt(env, p, s, id);
    }
    forall s, id, ss, sb | p(s) && WelcomeBackend(env, ViewOf(s), ss, sb, id) ensures CreatesBackend(env, p, s, sb, id) {
      CreatesBackendAt(env, p, s, ss, sb, id);
    }
  }
}
