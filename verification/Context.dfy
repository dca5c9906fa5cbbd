/** The context object: two maps, the kernel handle and the store, changed in
    place by every operation (core/context.go). Value() is the state that the
    functions of module Model speak about. */
module Context {
  import opened Basics
  import opened Net
  import opened Options
  import opened Requests
  import opened Ipvs
  import opened Store
  import opened Model
  import opened Metrics
  import opened Runtime
  import opened Sync
  import Shutdown

  class Ctx {
    const env: Env
    const ipvs: Kernel
    var store: KvStore?
    var services: map<string, Service>
    var backends: map<string, Backend>
    var nextRef: nat
    var monitors: seq<PulseId>
    var stopped: set<nat>
    var crashed: bool

    constructor (env: Env)
      ensures this.env == env && fresh(ipvs) && store == null
      ensures Value() == EMPTY && Valid()
    {
      this.env := env;
      ipvs := new Kernel();
      store := null;
      services, backends := map[], map[];
      nextRef, monitors, stopped, crashed := 0, [], {}, false;
    }

    function Stored(): Option<Kv>
      reads this, store
    {
      if store == null then None else Some(store.Content())
    }

    function Value(): State
      reads this, ipvs, store
    {
      State(services, backends, ipvs.table, Stored(), nextRef, monitors, stopped, crashed)
    }

    /** Every backend has a monitor of its own. */
    predicate Valid()
      reads this
    {
      && (forall rs :: rs in backends ==> backends[rs].monitor < |monitors|)
      && (forall rs, qs :: rs in backends && qs in backends && rs != qs ==> backends[rs].monitor != backends[qs].monitor)
    }

    method CreateService(vsID: string, opts: ServiceRequest, io: Io) returns (outcome: Outcome)
      requires Valid()
      modifies this, ipvs, store, opts
      ensures Valid() && store == old(store)
      ensures (Value(), outcome) == Model.CreateService(env, old(Value()), vsID, old(opts.Options()), io)
    {
      outcome := opts.Fill(env);
      if outcome.Err? {
        return;
      }
      outcome := RegisterService(vsID, opts.Options(), io);
    }

    method RegisterService(vsID: string, o: ServiceOptions, io: Io) returns (outcome: Outcome)
      requires Valid()
      modifies this, ipvs, store
      ensures Valid() && store == old(store)
      ensures (Value(), outcome) == Model.RegisterService(old(Value()), vsID, o, io)
    {
      if vsID in services {
        return Err(ErrObjectExists);
      }
      if store != null {
        var done := store.PutService(vsID, o.spec, false, io.put);
        if !done {
          return Err(ErrStore);
        }
      }
      var added := ipvs.AddService(ShowIp(o.ip), o.spec.port, o.spec.protocol, o.spec.sched, FlagList(o.spec.flags), io.up);
      if !added {
        return Err(ErrIpvsSyscallFailed);
      }
      services := services[vsID := Service(nextRef, nextRef, o)];
      nextRef := nextRef + 1;
      outcome := Ok;
    }

    method UpdateService(vsID: string, opts: ServiceRequest, io: Io) returns (outcome: Outcome)
      requires Valid()
      modifies this, ipvs, store, opts
      ensures Valid() && store == old(store)
      ensures (Value(), outcome) == Model.UpdateService(env, old(Value()), vsID, old(opts.Options()), io)
    {
      outcome := opts.Fill(env);
      if outcome.Err? {
        return;
      }
      if vsID !in services {
        outcome := CreateService(vsID, opts, io);
        return;
      }
      outcome := ReplaceService(vsID, opts.Options(), io);
    }

    method ReplaceService(vsID: string, o: ServiceOptions, io: Io) returns (outcome: Outcome)
      requires Valid() && vsID in services
      modifies this, ipvs, store
      ensures Valid() && store == old(store)
      ensures (Value(), outcome) == Model.ReplaceService(old(Value()), vsID, o, io)
    {
      var old_ := services[vsID];
      if ShowIp(old_.options.ip) != ShowIp(o.ip) || old_.options.spec.port != o.spec.port
         || old_.options.spec.protocol != o.spec.protocol {
        return Err(ErrAddressChanged);
      }
      if store != null {
        var done := store.PutService(vsID, o.spec, true, io.put);
        if !done {
          return Err(ErrStore);
        }
      }
      var updated := ipvs.UpdateService(ShowIp(o.ip), o.spec.port, o.spec.protocol, o.spec.sched, FlagList(o.spec.flags), io.up);
      if !updated {
        return Err(ErrIpvsSyscallFailed);
      }
      services := services[vsID := Service(nextRef, old_.root, o)];
      nextRef := nextRef + 1;
      outcome := Ok;
    }

    method CreateBackend(vsID: string, rsID: string, opts: BackendRequest, io: Io) returns (outcome: Outcome)
      requires Valid()
      modifies this, ipvs, store, opts, opts.pulse
      ensures Valid() && store == old(store)
      ensures (Value(), outcome) == Model.CreateBackend(env, old(Value()), vsID, rsID, old(opts.Options()), io)
    {
      outcome := opts.Prepare(env);
      if outcome.Err? {
        return;
      }
      outcome := AttachBackend(vsID, rsID, opts.Options(), io);
    }

    method AttachBackend(vsID: string, rsID: string, prepared: BackendOptions, io: Io) returns (outcome: Outcome)
      requires Valid()
      modifies this, ipvs, store
      ensures Valid() && store == old(store)
      ensures (Value(), outcome) == Model.AttachBackend(old(Value()), vsID, rsID, prepared, io)
    {
      if rsID in backends {
        return Err(ErrObjectExists);
      }
      if vsID !in services {
        return Err(ErrObjectNotFound);
      }
      var vs := services[vsID];
      if AddrFamily(prepared.ip) != AddrFamily(vs.options.ip) {
        return Err(ErrIncompatibleAFs);
      }
      var o := prepared;
      if store != null {
        o := o.(spec := o.spec.(vsid := vsID));
        var done := store.PutBackend(rsID, o.spec, io.put);
        if !done {
          return Err(ErrStore);
        }
      }
      var added := ipvs.AddDestPort(ShowIp(vs.options.ip), vs.options.spec.port, ShowIp(o.ip), o.spec.port,
                                    vs.options.spec.protocol, o.spec.weight, o.spec.fwd, io.up);
      if !added {
        return Err(ErrIpvsSyscallFailed);
      }
      backends := backends[rsID := Backend(o, vs, |monitors|, ZERO)];
      monitors := monitors + [PulseId(vsID, rsID)];
      outcome := Ok;
    }

    method UpdateBackend(rsID: string, weight: uint32, io: Io) returns (old_: uint32, outcome: Outcome)
      requires Valid()
      modifies this, ipvs
      ensures Valid() && store == old(store)
      ensures (Value(), outcome) == Model.UpdateBackend(old(Value()), rsID, weight, io)
      ensures outcome.Ok? ==> rsID in old(backends) && old_ == old(backends)[rsID].options.spec.weight
    {
      if rsID !in backends {
        return 0, Err(ErrObjectNotFound);
      }
      var rs := backends[rsID];
      var vs := rs.service.options;
      var updated := ipvs.UpdateDestPort(ShowIp(vs.ip), vs.spec.port, ShowIp(rs.options.ip), rs.options.spec.port,
                                         vs.spec.protocol, weight, rs.options.spec.fwd, io.up);
      if !updated {
        return 0, Err(ErrIpvsSyscallFailed);
      }
      old_ := rs.options.spec.weight;
      backends := backends[rsID := Reweighted(rs, weight)];
      outcome := Ok;
    }

    method RemoveBackend(rsID: string, io: Io) returns (outcome: Outcome)
      requires Valid()
      modifies this, ipvs, store
      ensures Valid() && store == old(store)
      ensures (Value(), outcome) == Model.RemoveBackend(old(Value()), rsID, io)
    {
      if rsID !in backends {
        return Err(ErrObjectNotFound);
      }
      var rs := backends[rsID];
      if store != null {
        var _ := store.RemoveBackend(rsID, io.del);
      }
      if rs.monitor in stopped {
        return Err(Panic);
      }
      stopped := stopped + {rs.monitor};
      var vs := rs.service.options;
      var deleted := ipvs.DelDestPort(ShowIp(vs.ip), vs.spec.port, ShowIp(rs.options.ip), rs.options.spec.port,
                                      vs.spec.protocol, io.up);
      if !deleted {
        return Err(ErrIpvsSyscallFailed);
      }
      backends := backends - {rsID};
      outcome := Ok;
    }

    /** If the clean-up panics, the backends it came to first come back. */
    method RemoveService(vsID: string, io: Io) returns (outcome: Outcome, ghost reached: set<string>)
      requires Valid()
      modifies this, ipvs, store
      ensures Valid() && store == old(store)
      ensures (Value(), outcome) == Model.RemoveService(old(Value()), vsID, io.(reached := reached))
      ensures outcome != Err(Panic) ==> reached == {}
    {
      reached := {};
      if vsID !in services {
        outcome := Err(ErrObjectNotFound);
        return;
      }
      var vs := services[vsID];
      services := services - {vsID};
      var deleted := ipvs.DelService(ShowIp(vs.options.ip), vs.options.spec.port, vs.options.spec.protocol, io.up);
      if !deleted {
        outcome := Err(ErrIpvsSyscallFailed);
        return;
      }
      if store != null {
        var _ := store.RemoveService(vsID, io.del);
      }
      ghost var cleaned;
      outcome, cleaned := CleanUp(vs, io.lost);
      if outcome == Err(Panic) {
        reached := cleaned;
      }
      assert Orphans(Value().(backends := old(backends)), vs) == Orphans(old(Value()), vs);
      CleanedIs(old(Value()), Orphans(old(Value()), vs), cleaned);
    }

    /** The loop over all backends that drops those of a removed service, up to
        the first whose stop channel is closed already. */
    method CleanUp(vs: Service, lost: set<string>) returns (outcome: Outcome, ghost cleaned: set<string>)
      requires Valid()
      modifies this`backends, this`stopped, store
      ensures Valid() && store == old(store)
      ensures var st := old(Value()); var orphans := Orphans(st, vs);
              && cleaned <= orphans && MonitorsOf(st, cleaned) !! st.stopped
              && backends == st.backends - cleaned && stopped == st.stopped + MonitorsOf(st, cleaned)
              && Stored() == DropBackends(st.store, cleaned - lost)
              && if MonitorsOf(st, orphans) !! st.stopped then outcome == Ok && cleaned == orphans else outcome == Err(Panic)
    {
      ghost var st := Value();
      ghost var orphans := Orphans(st, vs);
      var todo := backends.Keys;
      ghost var seen: set<string> := {};
      cleaned := {};
      NothingSeen(st, lost);
      while todo != {}
        invariant store == old(store) && seen !! todo && seen + todo == st.backends.Keys
        invariant cleaned == orphans * seen && MonitorsOf(st, cleaned) !! st.stopped
        invariant backends == st.backends - cleaned && stopped == st.stopped + MonitorsOf(st, cleaned)
        invariant Stored() == DropBackends(st.store, cleaned - lost)
        decreases todo
      {
        var rsID :| rsID in todo;
        todo := todo - {rsID};
        OneMoreSeen(orphans, seen, rsID);
        seen := seen + {rsID};
        if backends[rsID].service.ref != vs.ref {
          continue;
        }
        OneMoreCleaned(st, cleaned, rsID, lost);
        var monitor := backends[rsID].monitor;
        if monitor in stopped {
          assert monitor in MonitorsOf(st, orphans);
          outcome := Err(Panic);
          return;
        }
        stopped := stopped + {monitor};
        backends := backends - {rsID};
        if store != null {
          var _ := store.RemoveBackend(rsID, rsID !in lost);
        }
        cleaned := cleaned + {rsID};
      }
      assert orphans * seen == orphans;
      outcome := Ok;
    }

    /** Removing outside a request, where nobody recovers a panic and it ends
        the process. */
    method DropService(id: string, io: Io) returns (ghost reached: set<string>)
      requires Valid() && !crashed
      modifies this, ipvs, store
      ensures Valid() && store == old(store) && services == old(services) - {id}
      ensures Value() == Fatal(Model.RemoveService(old(Value()), id, io.(reached := reached)))
      ensures !crashed ==> reached == {}
    {
      var outcome;
      outcome, reached := RemoveService(id, io);
      crashed := outcome == Err(Panic);
    }

    method DropBackend(id: string, io: Io)
      requires Valid() && !crashed
      modifies this, ipvs, store
      ensures Valid() && store == old(store)
      ensures Value() == Fatal(Model.RemoveBackend(old(Value()), id, io))
    {
      var outcome := RemoveBackend(id, io);
      crashed := outcome == Err(Panic);
    }

    /** One turn of the second loop of Synchronize. */
    method MakeService(id: string, spec: ServiceSpec, io: Answers) returns (ghost reached: set<string>)
      requires Valid() && !crashed
      modifies this, ipvs, store
      ensures Valid() && store == old(store)
      ensures Value() == MadeService(env, old(Value()), id, spec, Reaching(io, reached))
      ensures !crashed ==> reached == {}
    {
      reached := {};
      if id in services {
        if SameService(services[id].options.spec, spec) {
          return;
        }
        reached := DropService(id, io(ChangedService, id));
        if crashed {
          return;
        }
      }
      var request := new ServiceRequest.Decode(spec);
      var _ := CreateService(id, request, io(MissingService, id).(reached := {}));
    }

    /** One turn of the fourth loop. */
    method MakeBackend(id: string, spec: BackendSpec, io: Answers)
      requires Valid() && !crashed
      modifies this, ipvs, store
      ensures Valid() && store == old(store)
      ensures Value() == MadeBackend(env, old(Value()), id, spec, io)
    {
      if id in backends {
        if SameBackend(backends[id].options.spec, spec) {
          return;
        }
        DropBackend(id, io(ChangedBackend, id));
        if crashed {
          return;
        }
      }
      var request := new BackendRequest.Decode(spec);
      var _ := CreateBackend(spec.vsid, id, request, io(MissingBackend, id));
    }

    /** A turn of any of the four loops. */
    method TakeTurn(l: Loop, id: string, io: Answers) returns (ghost reached: set<string>)
      requires Valid() && !crashed
      modifies this, ipvs, store
      ensures Valid() && store == old(store)
      ensures Value() == Turn(env, old(Value()), l, id, Reaching(io, reached))
      ensures !crashed ==> reached == {}
    {
      reached := {};
      match l {
        case StaleServices(ss) =>
          if id !in ss {
            reached := DropService(id, io(StaleService, id));
          }
        case WantedServices(ss) =>
          if id in ss {
            reached := MakeService(id, ss[id], io);
          }
        case StaleBackends(sb) =>
          if id !in sb {
            DropBackend(id, io(StaleBackend, id).(reached := {}));
          }
        case WantedBackends(sb) =>
          if id in sb {
            MakeBackend(id, sb[id], Reaching(io, {}));
          }
      }
    }

    /** The next turn of a loop that began in st and has visited `order`. */
    method ContinueLoop(ghost st: State, l: Loop, ghost order: seq<string>, id: string, io: Answers)
      returns (ghost reached: set<string>)
      requires Valid() && !crashed && Value() == Looped(env, st, l, order, Reaching(io, {}))
      modifies this, ipvs, store
      ensures Valid() && store == old(store)
      ensures Value() == Looped(env, st, l, order + [id], Reaching(io, reached))
      ensures !crashed ==> reached == {}
    {
      reached := TakeTurn(l, id, io);
      OneMoreTurn(env, st, l, order, id, io, reached);
    }

    /** A loop over the keys of a map, which come in no particular order. */
    method Range(l: Loop, keys: set<string>, io: Answers) returns (ghost order: seq<string>, ghost reached: set<string>)
      requires Valid() && !crashed
      modifies this, ipvs, store
      ensures Valid() && store == old(store) && Distinct(order) && Ids(order) <= keys
      ensures Value() == Looped(env, old(Value()), l, order, Reaching(io, reached))
      ensures !crashed ==> Visits(order, keys) && reached == {}
    {
      order, reached := [], {};
      var todo := keys;
      while todo != {}
        invariant Valid() && !crashed && store == old(store) && reached == {}
        invariant todo <= keys && Visits(order, keys - todo)
        invariant Value() == Looped(env, old(Value()), l, order, Reaching(io, {}))
        decreases todo
      {
        var id :| id in todo;
        todo := todo - {id};
        OneMoreVisit(order, keys, todo, id);
        reached := ContinueLoop(old(Value()), l, order, id, io);
        order := order + [id];
        if crashed {
          return;
        }
      }
    }

    /** Context.Synchronize. The orders the map iterations took come back as a
        ghost result; if the process dies on the way, they end there. */
    method Synchronize(ss: map<string, ServiceSpec>, sb: map<string, BackendSpec>, io: Answers)
      returns (ghost o: Orders, ghost reached: set<string>)
      requires Valid() && !crashed
      modifies this, ipvs, store
      ensures Valid() && store == old(store)
      ensures Value() == Synchronized(env, old(Value()), ss, sb, o, Reaching(io, reached))
      ensures !crashed ==> Possible(env, old(Value()), ss, sb, o, Reaching(io, reached)) && reached == {}
    {
      ghost var st := Value();
      o := Orders([], [], [], []);
      ghost var order;
      order, reached := Range(StaleServices(ss), services.Keys, io);
      o := o.(services := order);
      if crashed {
        return;
      }
      order, reached := Range(WantedServices(ss), ss.Keys, io);
      LoopedReaching(env, st, StaleServices(ss), o.services, io, reached);
      o := o.(wanted := order);
      if crashed {
        return;
      }
      order, reached := Range(StaleBackends(sb), backends.Keys, io);
      ServicesReaching(env, st, ss, o, io, reached);
      o := o.(backends := order);
      if crashed {
        return;
      }
      order, reached := Range(WantedBackends(sb), sb.Keys, io);
      ServicesReaching(env, st, ss, o, io, reached);
      LoopedReaching(env, AfterServices(env, st, ss, o, Reaching(io, {})), StaleBackends(sb), o.backends, io, reached);
      o := o.(wantedBackends := order);
    }

    /** Store.Sync: both maps are listed before anything is changed; if that
        fails nothing happens. */
    method SyncWithStore(listed: bool, io: Answers) returns (ghost o: Orders, ghost reached: set<string>)
      requires Valid() && !crashed && store != null
      modifies this, ipvs, store
      ensures Valid() && store == old(store)
      ensures Value() == if listed then StoreSync(env, old(Value()), o, Reaching(io, reached)) else old(Value())
      ensures listed && !crashed ==> SyncPossible(env, old(Value()), o, Reaching(io, reached)) && reached == {}
    {
      o, reached := Orders([], [], [], []), {};
      var read := store.List(listed);
      match read {
        case None =>
        case Some(kv) => o, reached := Synchronize(kv.services, kv.backends, io);
      }
    }

    method GetService(vsID: string) returns (info: Option<ServiceInfo>)
      requires Valid()
      ensures info.None? <==> vsID !in services
      ensures info.Some? ==>
                var found, st := info.value, Value(); var mine := Orphans(st, services[vsID]);
                && found.options == services[vsID].options && Visits(found.backends, mine)
                && found.health == MeanHealth(st, found.backends)
                && (HealthyView(st) ==>
                      && 0.0 <= found.health <= 1.0
                      && (found.health == 1.0 <==> forall rs :: rs in mine ==> st.backends[rs].metrics.health == 1.0))
    {
      if vsID !in services {
        return None;
      }
      var vs := services[vsID];
      var ids: seq<string>, sum := [], 0.0;
      var todo := backends.Keys;
      while todo != {}
        invariant todo <= backends.Keys && Distinct(ids) && Ids(ids) == Orphans(Value(), vs) - todo
        invariant sum == HealthSum(Value(), ids)
        decreases todo
      {
        var rsID :| rsID in todo;
        todo := todo - {rsID};
        if backends[rsID].service.ref != vs.ref {
          continue;
        }
        OneMoreId(ids, rsID);
        ids := ids + [rsID];
        sum := sum + backends[rsID].metrics.health;
      }
      MeanOfHealthy(Value(), ids);
      info := Some(ServiceInfo(vs.options, if |ids| == 0 then 1.0 else sum / |ids| as real, ids));
    }

    /** The body of Close: services are removed while the map is ranged over. */
    method Close(io: string -> Io) returns (ghost order: seq<string>, ghost reached: set<string>)
      requires Valid() && !crashed
      modifies this, ipvs, store
      ensures Valid() && Value() == Shutdown.Close(env, old(Value()), order, Shutdown.Reaching(io, reached))
      ensures !crashed ==> Ids(order) == old(services).Keys && services == map[]
    {
      order, reached := [], {};
      var todo := services.Keys;
      while todo != {}
        invariant Valid() && !crashed && store == old(store) && reached == {}
        invariant Value() == Shutdown.Close(env, old(Value()), order, Shutdown.Reaching(io, {}))
        invariant Ids(order) + todo == old(services).Keys && services.Keys <= todo
        decreases todo
      {
        var vsID :| vsID in todo;
        todo := todo - {vsID};
        ghost var before := order;
        order := order + [vsID];
        assert Ids(order) == Ids(before) + {vsID};
        reached := DropService(vsID, io(vsID));
        Shutdown.CloseReaching(env, old(Value()), before, io, reached);
        Shutdown.CloseOne(env, old(Value()), before, vsID, Shutdown.Reaching(io, reached));
        if crashed {
          return;
        }
      }
    }
  }

  lemma OneMoreId(ids: seq<string>, id: string)
    ensures Ids(ids + [id]) == Ids(ids) + {id} && (ids + [id])[..|ids|] == ids
    ensures Distinct(ids) && id !in Ids(ids) ==> Distinct(ids + [id])
  {}

  lemma OneMoreVisit(order: seq<string>, keys: set<string>, todo: set<string>, id: string)
    requires todo <= keys && id in keys && id !in todo && Visits(order, keys - todo - {id})
    ensures Visits(order + [id], keys - todo) && Ids(order + [id]) <= keys
  {
    OneMoreId(order, id);
    assert keys - todo == (keys - todo - {id}) + {id};
  }

  datatype ServiceInfo = ServiceInfo(options: ServiceOptions, health: real, backends: seq<string>)

  function HealthSum(st: State, ids: seq<string>): real
    requires Ids(ids) <= st.backends.Keys
  {
    if ids == [] then 0.0
    else
      assert ids[|ids| - 1] in Ids(ids);
      HealthSum(st, ids[..|ids| - 1]) + st.backends[ids[|ids| - 1]].metrics.health
  }

  /** A service without backends counts as healthy. */
  function MeanHealth(st: State, ids: seq<string>): real
    requires Ids(ids) <= st.backends.Keys
  {
    if ids == [] then 1.0 else HealthSum(st, ids) / |ids| as real
  }

  lemma {:induction false} SumOfHealthy(st: State, ids: seq<string>)
    requires HealthyView(st) && Ids(ids) <= st.backends.Keys
    ensures 0.0 <= HealthSum(st, ids) <= |ids| as real
    ensures HealthSum(st, ids) == |ids| as real <==> forall id :: id in Ids(ids) ==> st.backends[id].metrics.health == 1.0
  {
    if ids != [] {
      var n := |ids| - 1;
      SumOfHealthy(st, ids[..n]);
      assert ids == ids[..n] + [ids[n]];
    }
  }

  lemma MeanOfHealthy(st: State, ids: seq<string>)
    requires Ids(ids) <= st.backends.Keys
    ensures HealthyView(st) ==>
              && 0.0 <= MeanHealth(st, ids) <= 1.0
              && (MeanHealth(st, ids) == 1.0 <==> forall id :: id in Ids(ids) ==> st.backends[id].metrics.health == 1.0)
  {
    if HealthyView(st) && ids != [] {
      SumOfHealthy(st, ids);
      ShareBounds(HealthSum(st, ids), |ids| as real);
    }
  }

  lemma ShareBounds(x: real, n: real)
    requires 0.0 <= x <= n && n > 0.0
    ensures 0.0 <= x / n <= 1.0
    ensures x / n == 1.0 <==> x == n
  {}

  lemma NothingSeen(st: State, lost: set<string>)
    ensures MonitorsOf(st, {}) == {} && st.backends - {} == st.backends && DropBackends(st.store, {} - lost) == st.store
  {
    if st.store.Some? {
      assert st.store.value.backends - ({} - lost) == st.store.value.backends;
    }
  }

  lemma OneMoreSeen(orphans: set<string>, seen: set<string>, id: string)
    ensures orphans * (seen + {id}) == if id in orphans then orphans * seen + {id} else orphans * seen
  {}

  /** Cleaning up one more backend, with monitors not shared. */
  lemma OneMoreCleaned(st: State, cleaned: set<string>, id: string, lost: set<string>)
    requires cleaned <= st.backends.Keys && id in st.backends && id !in cleaned
    requires forall rs, qs :: rs in st.backends && qs in st.backends && rs != qs ==>
               st.backends[rs].monitor != st.backends[qs].monitor
    ensures st.backends[id].monitor !in MonitorsOf(st, cleaned)
    ensures MonitorsOf(st, cleaned + {id}) == MonitorsOf(st, cleaned) + {st.backends[id].monitor}
    ensures (st.backends - cleaned) - {id} == st.backends - (cleaned + {id})
    ensures DropBackends(DropBackends(st.store, cleaned - lost), if id !in lost then {id} else {}) ==
            DropBackends(st.store, (cleaned + {id}) - lost)
  {
    DropOneMore(st.store, cleaned, id, lost);
  }

  lemma CleanedIs(st: State, orphans: set<string>, cleaned: set<string>)
    requires cleaned <= orphans <= st.backends.Keys && MonitorsOf(st, cleaned) !! st.stopped
    requires MonitorsOf(st, orphans) !! st.stopped ==> cleaned == orphans
    ensures CleanedUp(st, orphans, cleaned) == cleaned
  {
    forall rs | rs in cleaned ensures st.backends[rs].monitor !in st.stopped {
      assert st.backends[rs].monitor in MonitorsOf(st, cleaned);
    }
  }

  lemma DropOneMore(store: Option<Kv>, before: set<string>, id: string, lost: set<string>)
    ensures DropBackends(DropBackends(store, before - lost), if id !in lost then {id} else {}) ==
            DropBackends(store, (before + {id}) - lost)
  {
    if store.Some? {
      var m := store.value.backends;
      if id in lost {
        assert (before + {id}) - lost == before - lost;
        assert (m - (before - lost)) - {} == m - (before - lost);
      } else {
        assert (m - (before - lost)) - {id} == m - ((before + {id}) - lost);
      }
    }
  }
}
