/** For every order of its loops, a synchronisation without failures comes to
    the same view and the same kernel table, and repeating it converges
    (core/context.go, core/store.go). */
module SyncTheorems {
  import opened Basics
  import opened Options
  import opened IpvsTable
  import opened Model
  import opened Effects
  import opened Invariants
  import opened Runs
  import opened Shutdown
  import opened Reconcile
  import opened Convergence
  import opened Sync
  import opened Text

  lemma LastOf(order: seq<string>)
    requires order != [] && Distinct(order)
    ensures var n := |order| - 1;
            && Distinct(order[..n]) && order[n] !in order[..n]
            && Ids(order) == Ids(order[..n]) + {order[n]}
  {
    var n := |order| - 1;
    assert order == order[..n] + [order[n]];
  }

  /** The rule for loops over a map: what holds of the set of keys visited so
      far and is kept by a turn for any further key holds in the end, in
      whatever order the keys come. */
  lemma {:induction false} LoopRule(env: Env, st: State, l: Loop, order: seq<string>, io: Answers,
                                    good: (State, set<string>) -> bool)
    requires Distinct(order) && good(st, {})
    requires forall s, seen, id :: good(s, seen) && id in order && id !in seen ==>
               good(Turn(env, s, l, id, io), seen + {id})
    ensures good(Looped(env, st, l, order, io), Ids(order))
  {
    if order == [] {
      assert Ids(order) == {};
    } else {
      LastOf(order);
      LoopRule(env, st, l, order[..|order| - 1], io, good);
    }
  }

  lemma WithoutNothing(w: View)
    ensures WithoutServices(w, {}) == w && WithoutBackends(w, {}) == w
  {
    assert HeldBy(w, {}) == {};
    assert w.services - {} == w.services && w.backends - {} == w.backends;
    assert w.store.services - {} == w.store.services && w.store.backends - {} == w.store.backends;
  }

  lemma DropServiceStep(env: Env, p: State -> bool, w: View, ss: map<string, ServiceSpec>, s: State, seen: set<string>, id: string, io: Answers)
    requires ServiceLaws(env, p) && NoFailures(io) && id in w.services && id !in seen
    requires p(s) && ViewOf(s) == WithoutServices(w, seen - ss.Keys)
    ensures var t := Turn(env, s, StaleServices(ss), id, io);
            p(t) && ViewOf(t) == WithoutServices(w, (seen + {id}) - ss.Keys)
  {
    DropServiceTurn(env, p, ss, s, id, io);
    DroppedServices(w, seen, ss.Keys, id);
  }

  lemma DropServiceTurn(env: Env, p: State -> bool, ss: map<string, ServiceSpec>, s: State, id: string, io: Answers)
    requires ServiceLaws(env, p) && NoFailures(io) && p(s) && (id in ss || id in ViewOf(s).services)
    ensures var t := Turn(env, s, StaleServices(ss), id, io);
            p(t) && ViewOf(t) == if id in ss then ViewOf(s) else WithoutServices(ViewOf(s), {id})
  {
    if id !in ss {
      assert Removes(env, p, s, id);
    }
  }

  lemma DroppedServices(w: View, seen: set<string>, wanted: set<string>, id: string)
    ensures WithoutServices(w, (seen + {id}) - wanted) ==
            if id in wanted then WithoutServices(w, seen - wanted)
            else WithoutServices(WithoutServices(w, seen - wanted), {id})
  {
    if id in wanted {
      assert (seen + {id}) - wanted == seen - wanted;
    } else {
      WithoutServicesTwice(w, seen - wanted, {id});
      assert (seen + {id}) - wanted == (seen - wanted) + {id};
    }
  }

  lemma DropBackendStep(env: Env, p: State -> bool, w: View, sb: map<string, BackendSpec>, s: State, seen: set<string>, id: string, io: Answers)
    requires BackendLaws(env, p) && NoFailures(io) && id in w.backends && id !in seen
    requires p(s) && ViewOf(s) == WithoutBackends(w, seen - sb.Keys)
    ensures var t := Turn(env, s, StaleBackends(sb), id, io);
            p(t) && ViewOf(t) == WithoutBackends(w, (seen + {id}) - sb.Keys)
  {
    DropBackendTurn(env, p, sb, s, id, io);
    DroppedBackends(w, seen, sb.Keys, id);
  }

  lemma DropBackendTurn(env: Env, p: State -> bool, sb: map<string, BackendSpec>, s: State, id: string, io: Answers)
    requires BackendLaws(env, p) && NoFailures(io) && p(s) && (id in sb || id in ViewOf(s).backends)
    ensures var t := Turn(env, s, StaleBackends(sb), id, io);
            p(t) && ViewOf(t) == if id in sb then ViewOf(s) else WithoutBackends(ViewOf(s), {id})
  {
    if id !in sb {
      assert RemovesBackend(env, p, s, id);
    }
  }

  lemma DroppedBackends(w: View, seen: set<string>, wanted: set<string>, id: string)
    ensures WithoutBackends(w, (seen + {id}) - wanted) ==
            if id in wanted then WithoutBackends(w, seen - wanted)
            else WithoutBackends(WithoutBackends(w, seen - wanted), {id})
  {
    if id in wanted {
      assert (seen + {id}) - wanted == seen - wanted;
    } else {
      WithoutBackendsTwice(w, seen - wanted, {id});
      assert (seen + {id}) - wanted == (seen - wanted) + {id};
    }
  }

  /** The store's services are valid, at distinct addresses, and no live
      service of another name is in the way. */
  ghost predicate ServicesFit(env: Env, w: View, ss: map<string, ServiceSpec>) {
    && w.services.Keys <= ss.Keys
    && (forall v :: v in w.services ==> NormalService(env, w.services[v]))
    && (forall v :: v in ss ==> FillService(env, Decoded(ss[v])).1.Ok?)
    && (forall v, u :: v in ss && u in ss && v != u ==>
          KeyOf(FilledService(env, ss[v])) != KeyOf(FilledService(env, ss[u])))
    && (forall v, u :: v in w.services && u in ss && v != u ==>
          KeyOf(w.services[v]) != KeyOf(FilledService(env, ss[u])))
  }

  lemma FitAfter(env: Env, w: View, ss: map<string, ServiceSpec>, ids: set<string>)
    requires ServicesFit(env, w, ss) && ids <= ss.Keys
    ensures ServicesFit(env, WithServices(env, w, ss, ids), ss)
  {
    forall v | v in ss ensures NormalService(env, FilledService(env, ss[v])) {
      FillServiceNormalises(env, Decoded(ss[v]), []);
    }
  }

  lemma MadeServiceView(env: Env, p: State -> bool, st: State, ss: map<string, ServiceSpec>, id: string, io: Answers)
    requires ServiceLaws(env, p) && p(st) && NoFailures(io) && ServicesFit(env, ViewOf(st), ss) && id in ss
    ensures var end := MadeService(env, st, id, ss[id], io);
            p(end) && ViewOf(end) == WithServices(env, ViewOf(st), ss, {id})
  {
    var w := ViewOf(st);
    if id !in w.services {
      assert WelcomeService(env, w, ss, id);
      assert Creates(env, p, st, ss, id);
    } else if SameService(w.services[id].spec, ss[id]) {
      UntouchedService(env, w, ss, id);
    } else {
      RebuildServiceView(env, p, st, ss, id);
    }
  }

  lemma RebuildServiceView(env: Env, p: State -> bool, st: State, ss: map<string, ServiceSpec>, id: string)
    requires ServiceLaws(env, p) && p(st) && ServicesFit(env, ViewOf(st), ss) && id in ss
    requires id in ViewOf(st).services && !SameService(ViewOf(st).services[id].spec, ss[id])
    ensures var end := CreatedService(env, RemovedService(env, st, id, CLEAN), id, ss[id], CLEAN);
            p(end) && ViewOf(end) == WithServices(env, ViewOf(st), ss, {id})
  {
    assert Removes(env, p, st, id);
    var cleared := RemovedService(env, st, id, CLEAN);
    assert WelcomeService(env, ViewOf(cleared), ss, id);
    assert Creates(env, p, cleared, ss, id);
    RebuiltService(env, ViewOf(st), ss, id);
  }

  lemma UntouchedService(env: Env, w: View, ss: map<string, ServiceSpec>, id: string)
    requires id in ss && id in w.services && SameService(w.services[id].spec, ss[id])
    requires NormalService(env, w.services[id])
    ensures WithServices(env, w, ss, {id}) == w
  {
    SameMeansFilled(env, w.services[id], ss[id]);
    assert Changed(w, ss, {id}) == {};
    WithoutNothing(w);
    assert HeldBy(w, {}) == {};
    assert RegisteredServices(env, w, ss, {id}) == w.services;
    assert StoredServices(env, w, ss, {id}) == w.store.services;
  }

  lemma RebuiltService(env: Env, w: View, ss: map<string, ServiceSpec>, id: string)
    requires id in ss && id in w.services && !SameService(w.services[id].spec, ss[id])
    ensures WithServices(env, WithoutServices(w, {id}), ss, {id}) == WithServices(env, w, ss, {id})
  {
    var u := WithoutServices(w, {id});
    RebuiltOrphans(w, u, ss, id);
    RebuiltRegistered(env, w, u, ss, id);
    RebuiltStoredService(env, w, u, ss, id);
  }

  lemma RebuiltOrphans(w: View, u: View, ss: map<string, ServiceSpec>, id: string)
    requires id in ss && id in w.services && !SameService(w.services[id].spec, ss[id])
    requires u.services == w.services - {id}
    requires u.backends == w.backends - HeldBy(w, {id}) && u.store.backends == w.store.backends - HeldBy(w, {id})
    ensures u.backends - HeldBy(u, Changed(u, ss, {id})) == w.backends - HeldBy(w, Changed(w, ss, {id}))
    ensures u.store.backends - HeldBy(u, Changed(u, ss, {id})) == w.store.backends - HeldBy(w, Changed(w, ss, {id}))
  {
    assert Changed(w, ss, {id}) == {id} && Changed(u, ss, {id}) == {};
    assert HeldBy(u, {}) == {};
    MinusTwice(w.backends, HeldBy(w, {id}), {});
    MinusTwice(w.store.backends, HeldBy(w, {id}), {});
  }

  lemma RebuiltRegistered(env: Env, w: View, u: View, ss: map<string, ServiceSpec>, id: string)
    requires id in ss && id in w.services && u.services == w.services - {id}
    ensures RegisteredServices(env, u, ss, {id}) == RegisteredServices(env, w, ss, {id})
  {}

  lemma RebuiltStoredService(env: Env, w: View, u: View, ss: map<string, ServiceSpec>, id: string)
    requires id in ss && id in w.services && !SameService(w.services[id].spec, ss[id])
    requires u.services == w.services - {id} && u.store.services == w.store.services - {id}
    ensures StoredServices(env, u, ss, {id}) == StoredServices(env, w, ss, {id})
  {}

  /** How far the second loop has come. */
  ghost predicate ServicesSoFar(env: Env, p: State -> bool, w: View, ss: map<string, ServiceSpec>, s: State, seen: set<string>) {
    seen <= ss.Keys && p(s) && ViewOf(s) == WithServices(env, w, ss, seen)
  }

  lemma MakeServiceStep(env: Env, p: State -> bool, w: View, ss: map<string, ServiceSpec>, s: State, seen: set<string>, id: string, io: Answers)
    requires ServiceLaws(env, p) && NoFailures(io) && ServicesFit(env, w, ss)
    requires id in ss && id !in seen && ServicesSoFar(env, p, w, ss, s, seen)
    ensures ServicesSoFar(env, p, w, ss, Turn(env, s, WantedServices(ss), id, io), seen + {id})
  {
    FitAfter(env, w, ss, seen);
    MakeServiceTurn(env, p, ViewOf(s), ss, s, id, io);
    OneMoreService(env, p, w, ss, s, Turn(env, s, WantedServices(ss), id, io), seen, id);
  }

  lemma OneMoreService(env: Env, p: State -> bool, w: View, ss: map<string, ServiceSpec>, s: State, t: State, seen: set<string>, id: string)
    requires id in ss && id !in seen && ServicesSoFar(env, p, w, ss, s, seen)
    requires p(t) && ViewOf(t) == WithServices(env, ViewOf(s), ss, {id})
    ensures ServicesSoFar(env, p, w, ss, t, seen + {id})
  {
    WithServicesTwice(env, w, ss, seen, {id});
  }

  lemma MakeServiceTurn(env: Env, p: State -> bool, u: View, ss: map<string, ServiceSpec>, s: State, id: string, io: Answers)
    requires ServiceLaws(env, p) && NoFailures(io) && ServicesFit(env, u, ss) && id in ss && p(s) && ViewOf(s) == u
    ensures var t := Turn(env, s, WantedServices(ss), id, io);
            p(t) && ViewOf(t) == WithServices(env, u, ss, {id})
  {
    MadeServiceView(env, p, s, ss, id, io);
  }

  lemma WithNoServices(env: Env, w: View, ss: map<string, ServiceSpec>)
    ensures WithServices(env, w, ss, {}) == w
  {
    assert Changed(w, ss, {}) == {} && HeldBy(w, {}) == {};
    WithoutNothing(w);
    assert RegisteredServices(env, w, ss, {}) == w.services;
    assert StoredServices(env, w, ss, {}) == w.store.services;
  }

  /** The store's backends are valid and apart from each other. */
  ghost predicate BackendsValid(env: Env, ss: map<string, ServiceSpec>, sb: map<string, BackendSpec>) {
    && (forall rs :: rs in sb ==> ValidBackend(env, ss, sb[rs]))
    && (forall rs, qs :: rs in sb && qs in sb && rs != qs && sb[rs].vsid == sb[qs].vsid ==>
          DestOf(FilledBackend(env, sb[rs])) != DestOf(FilledBackend(env, sb[qs])))
  }

  /** The services are in place and no live backend of another name is in the
      way. */
  ghost predicate BackendsFit(env: Env, w: View, ss: map<string, ServiceSpec>, sb: map<string, BackendSpec>) {
    && w.backends.Keys <= sb.Keys
    && (forall v :: v in ss ==> ServiceIs(w, v, FilledService(env, ss[v])))
    && (forall rs, qs :: rs in w.backends && qs in sb && rs != qs && w.backends[rs].owner == sb[qs].vsid ==>
          DestOf(w.backends[rs].options) != DestOf(FilledBackend(env, sb[qs])))
  }

  lemma BackendsFitAfter(env: Env, w: View, ss: map<string, ServiceSpec>, sb: map<string, BackendSpec>, ids: set<string>)
    requires BackendsValid(env, ss, sb) && BackendsFit(env, w, ss, sb) && ids <= sb.Keys
    ensures BackendsFit(env, WithBackends(env, w, sb, ids), ss, sb)
  {}

  lemma MadeBackendView(env: Env, p: State -> bool, st: State, ss: map<string, ServiceSpec>, sb: map<string, BackendSpec>, id: string, io: Answers)
    requires BackendLaws(env, p) && p(st) && NoFailures(io)
    requires BackendsValid(env, ss, sb) && BackendsFit(env, ViewOf(st), ss, sb) && id in sb
    ensures var end := MadeBackend(env, st, id, sb[id], io);
            p(end) && ViewOf(end) == WithBackends(env, ViewOf(st), sb, {id})
  {
    var w := ViewOf(st);
    assert ValidBackend(env, ss, sb[id]);
    if id !in w.backends {
      assert WelcomeBackend(env, w, ss, sb, id);
      assert CreatesBackend(env, p, st, sb, id);
    } else if SameBackend(w.backends[id].options.spec, sb[id]) {
      UntouchedBackend(env, w, sb, id);
    } else {
      RebuildBackendView(env, p, st, ss, sb, id);
    }
  }

  lemma RebuildBackendView(env: Env, p: State -> bool, st: State, ss: map<string, ServiceSpec>, sb: map<string, BackendSpec>, id: string)
    requires BackendLaws(env, p) && p(st) && BackendsFit(env, ViewOf(st), ss, sb) && id in sb && ValidBackend(env, ss, sb[id])
    requires id in ViewOf(st).backends && !SameBackend(ViewOf(st).backends[id].options.spec, sb[id])
    ensures var end := CreatedBackend(env, RemovedBackend(env, st, id, CLEAN), id, sb[id], CLEAN);
            p(end) && ViewOf(end) == WithBackends(env, ViewOf(st), sb, {id})
  {
    assert RemovesBackend(env, p, st, id);
    assert WelcomeBackend(env, ViewOf(RemovedBackend(env, st, id, CLEAN)), ss, sb, id);
    assert CreatesBackend(env, p, RemovedBackend(env, st, id, CLEAN), sb, id);
    RebuiltBackend(env, ViewOf(st), sb, id);
  }

  lemma UntouchedBackend(env: Env, w: View, sb: map<string, BackendSpec>, id: string)
    requires id in sb && id in w.backends && SameBackend(w.backends[id].options.spec, sb[id])
    ensures WithBackends(env, w, sb, {id}) == w
  {
    assert Stored(w, sb, {id}) == {};
    assert HeldBackends(env, w, sb, {id}) == w.backends;
    assert StoredBackends(env, w, sb, {id}) == w.store.backends;
  }

  lemma RebuiltBackend(env: Env, w: View, sb: map<string, BackendSpec>, id: string)
    requires id in sb && id in w.backends && !SameBackend(w.backends[id].options.spec, sb[id])
    ensures WithBackends(env, WithoutBackends(w, {id}), sb, {id}) == WithBackends(env, w, sb, {id})
  {
    var u := WithoutBackends(w, {id});
    assert Stored(w, sb, {id}) == {id} && Stored(u, sb, {id}) == {id};
    assert HeldBackends(env, u, sb, {id}) == HeldBackends(env, w, sb, {id});
    assert StoredBackends(env, u, sb, {id}) == StoredBackends(env, w, sb, {id});
  }

  /** How far the last loop has come. */
  ghost predicate MadeSoFar(env: Env, p: State -> bool, w: View, sb: map<string, BackendSpec>, s: State, seen: set<string>) {
    seen <= sb.Keys && p(s) && ViewOf(s) == WithBackends(env, w, sb, seen)
  }

  lemma MakeBackendStep(env: Env, p: State -> bool, w: View, ss: map<string, ServiceSpec>, sb: map<string, BackendSpec>,
                        s: State, seen: set<string>, id: string, io: Answers)
    requires BackendLaws(env, p) && NoFailures(io) && BackendsValid(env, ss, sb) && BackendsFit(env, w, ss, sb)
    requires id in sb && id !in seen && MadeSoFar(env, p, w, sb, s, seen)
    ensures MadeSoFar(env, p, w, sb, Turn(env, s, WantedBackends(sb), id, io), seen + {id})
  {
    BackendsFitAfter(env, w, ss, sb, seen);
    MakeBackendTurn(env, p, ss, sb, s, id, io);
    MadeOneMore(env, p, w, sb, s, Turn(env, s, WantedBackends(sb), id, io), seen, id);
  }

  lemma MadeOneMore(env: Env, p: State -> bool, w: View, sb: map<string, BackendSpec>, s: State, t: State, seen: set<string>, id: string)
    requires id in sb && id !in seen && MadeSoFar(env, p, w, sb, s, seen)
    requires p(t) && ViewOf(t) == WithBackends(env, ViewOf(s), sb, {id})
    ensures MadeSoFar(env, p, w, sb, t, seen + {id})
  {
    WithBackendsTwice(env, w, sb, seen, {id});
  }

  lemma MakeBackendTurn(env: Env, p: State -> bool, ss: map<string, ServiceSpec>, sb: map<string, BackendSpec>, s: State, id: string, io: Answers)
    requires BackendLaws(env, p) && NoFailures(io) && BackendsValid(env, ss, sb) && BackendsFit(env, ViewOf(s), ss, sb)
    requires id in sb && p(s)
    ensures var t := Turn(env, s, WantedBackends(sb), id, io);
            p(t) && ViewOf(t) == WithBackends(env, ViewOf(s), sb, {id})
  {
    MadeBackendView(env, p, s, ss, sb, id, io);
    TurnMakes(env, s, sb, id, io);
  }

  lemma TurnMakes(env: Env, s: State, sb: map<string, BackendSpec>, id: string, io: Answers)
    requires id in sb && !s.crashed
    ensures Turn(env, s, WantedBackends(sb), id, io) == MadeBackend(env, s, id, sb[id], io)
  {}

  lemma WithNoBackends(env: Env, w: View, sb: map<string, BackendSpec>)
    ensures WithBackends(env, w, sb, {}) == w
  {
    assert Stored(w, sb, {}) == {};
    assert HeldBackends(env, w, sb, {}) == w.backends;
    assert StoredBackends(env, w, sb, {}) == w.store.backends;
  }

  lemma DropServicesLoop(env: Env, p: State -> bool, st: State, ss: map<string, ServiceSpec>, order: seq<string>, io: Answers)
    requires ServiceLaws(env, p) && p(st) && NoFailures(io) && Visits(order, ViewOf(st).services.Keys)
    ensures var end, w := Looped(env, st, StaleServices(ss), order, io), ViewOf(st);
            p(end) && ViewOf(end) == WithoutServices(w, w.services.Keys - ss.Keys)
  {
    var w := ViewOf(st);
    var good := (s: State, seen: set<string>) => p(s) && ViewOf(s) == WithoutServices(w, seen - ss.Keys);
    WithoutNothing(w);
    assert {} - ss.Keys == {};
    forall s, seen, id | good(s, seen) && id in order && id !in seen
      ensures good(Turn(env, s, StaleServices(ss), id, io), seen + {id})
    {
      DropServiceStep(env, p, w, ss, s, seen, id, io);
    }
    LoopRule(env, st, StaleServices(ss), order, io, good);
  }

  lemma MakeServicesLoop(env: Env, p: State -> bool, st: State, ss: map<string, ServiceSpec>, order: seq<string>, io: Answers)
    requires ServiceLaws(env, p) && p(st) && NoFailures(io) && Visits(order, ss.Keys) && ServicesFit(env, ViewOf(st), ss)
    ensures var end := Looped(env, st, WantedServices(ss), order, io);
            p(end) && ViewOf(end) == WithServices(env, ViewOf(st), ss, ss.Keys)
  {
    var w := ViewOf(st);
    var good := (s: State, seen: set<string>) => ServicesSoFar(env, p, w, ss, s, seen);
    WithNoServices(env, w, ss);
    forall s, seen, id | good(s, seen) && id in order && id !in seen
      ensures good(Turn(env, s, WantedServices(ss), id, io), seen + {id})
    {
      MakeServiceStep(env, p, w, ss, s, seen, id, io);
    }
    LoopRule(env, st, WantedServices(ss), order, io, good);
  }

  lemma DropBackendsLoop(env: Env, p: State -> bool, st: State, sb: map<string, BackendSpec>, order: seq<string>, io: Answers)
    requires BackendLaws(env, p) && p(st) && NoFailures(io) && Visits(order, ViewOf(st).backends.Keys)
    ensures var end, w := Looped(env, st, StaleBackends(sb), order, io), ViewOf(st);
            p(end) && ViewOf(end) == WithoutBackends(w, w.backends.Keys - sb.Keys)
  {
    var w := ViewOf(st);
    var good := (s: State, seen: set<string>) => p(s) && ViewOf(s) == WithoutBackends(w, seen - sb.Keys);
    WithoutNothing(w);
    assert {} - sb.Keys == {};
    forall s, seen, id | good(s, seen) && id in order && id !in seen
      ensures good(Turn(env, s, StaleBackends(sb), id, io), seen + {id})
    {
      DropBackendStep(env, p, w, sb, s, seen, id, io);
    }
    LoopRule(env, st, StaleBackends(sb), order, io, good);
  }

  lemma MakeBackendsLoop(env: Env, p: State -> bool, st: State, ss: map<string, ServiceSpec>, sb: map<string, BackendSpec>,
                         order: seq<string>, io: Answers)
    requires BackendLaws(env, p) && p(st) && NoFailures(io) && Visits(order, sb.Keys)
    requires BackendsValid(env, ss, sb) && BackendsFit(env, ViewOf(st), ss, sb)
    ensures var end := Looped(env, st, WantedBackends(sb), order, io);
            p(end) && ViewOf(end) == WithBackends(env, ViewOf(st), sb, sb.Keys)
  {
    var w := ViewOf(st);
    var good := (s: State, seen: set<string>) => MadeSoFar(env, p, w, sb, s, seen);
    WithNoBackends(env, w, sb);
    forall s, seen, id | good(s, seen) && id in order && id !in seen
      ensures good(Turn(env, s, WantedBackends(sb), id, io), seen + {id})
    {
      MakeBackendStep(env, p, w, ss, sb, s, seen, id, io);
    }
    LoopRule(env, st, WantedBackends(sb), order, io, good);
  }

  lemma ReadyServicesFit(env: Env, w: View, ss: map<string, ServiceSpec>, sb: map<string, BackendSpec>)
    requires Ready(env, w, ss, sb)
    ensures ServicesFit(env, WithoutServices(w, w.services.Keys - ss.Keys), ss)
  {}

  lemma ReadyBackendsFit(env: Env, w: View, ss: map<string, ServiceSpec>, sb: map<string, BackendSpec>)
    requires Ready(env, w, ss, sb)
    ensures var w2 := WithServices(env, WithoutServices(w, w.services.Keys - ss.Keys), ss, ss.Keys);
            BackendsFit(env, WithoutBackends(w2, w2.backends.Keys - sb.Keys), ss, sb)
  {
    var w1 := WithoutServices(w, w.services.Keys - ss.Keys);
    var w2 := WithServices(env, w1, ss, ss.Keys);
    FewerBackends(w, w1, w2, WithoutBackends(w2, w2.backends.Keys - sb.Keys), sb.Keys);
    RoomForBackends(env, w, WithoutBackends(w2, w2.backends.Keys - sb.Keys), ss, sb);
  }

  lemma FewerBackends(w: View, w1: View, w2: View, w3: View, wanted: set<string>)
    requires exists gone :: w1.backends == w.backends - gone
    requires exists gone :: w2.backends == w1.backends - gone
    requires w3.backends == w2.backends - (w2.backends.Keys - wanted)
    ensures forall rs :: rs in w3.backends ==> rs in w.backends && rs in wanted && w3.backends[rs] == w.backends[rs]
  {}

  lemma RoomForBackends(env: Env, w: View, w3: View, ss: map<string, ServiceSpec>, sb: map<string, BackendSpec>)
    requires Unobstructed(env, w, ss, sb)
    requires forall rs :: rs in w3.backends ==> rs in w.backends && rs in sb && w3.backends[rs] == w.backends[rs]
    requires forall v :: v in ss ==> v in w3.services && w3.services[v] == FilledService(env, ss[v])
    ensures BackendsFit(env, w3, ss, sb)
  {}

  /** For every order of the four loops, a synchronisation without failures
      ends in step, with the closed form as its view. */
  lemma SynchronizedClosedForm(env: Env, st: State, ss: map<string, ServiceSpec>, sb: map<string, BackendSpec>, o: Orders, io: Answers)
    requires Attached(env, st) && NoFailures(io) && Ready(env, ViewOf(st), ss, sb) && Possible(env, st, ss, sb, o, io)
    ensures var end := Synchronized(env, st, ss, sb, o, io);
            Attached(env, end) && ViewOf(end) == Reconciled(env, ViewOf(st), ss, sb)
  {
    var p := (s: State) => Attached(env, s);
    ServiceLawsHold(env, p);
    BackendLawsHold(env, p);
    AllLoops(env, p, st, ss, sb, o, io);
  }

  lemma AllLoops(env: Env, p: State -> bool, st: State, ss: map<string, ServiceSpec>, sb: map<string, BackendSpec>, o: Orders, io: Answers)
    requires ServiceLaws(env, p) && BackendLaws(env, p) && p(st)
    requires NoFailures(io) && Ready(env, ViewOf(st), ss, sb) && Possible(env, st, ss, sb, o, io)
    ensures var end := Synchronized(env, st, ss, sb, o, io);
            p(end) && ViewOf(end) == Reconciled(env, ViewOf(st), ss, sb)
  {
    var w := ViewOf(st);
    SameKeys(st);
    DropServicesLoop(env, p, st, ss, o.services, io);
    ReadyServicesFit(env, w, ss, sb);
    MakeServicesLoop(env, p, Looped(env, st, StaleServices(ss), o.services, io), ss, o.wanted, io);
    var mid := AfterServices(env, st, ss, o, io);
    SameKeys(mid);
    DropBackendsLoop(env, p, mid, sb, o.backends, io);
    ReadyBackendsFit(env, w, ss, sb);
    MakeBackendsLoop(env, p, Looped(env, mid, StaleBackends(sb), o.backends, io), ss, sb, o.wantedBackends, io);
  }

  lemma SameKeys(st: State)
    ensures ViewOf(st).services.Keys == st.services.Keys && ViewOf(st).backends.Keys == st.backends.Keys
  {}

  /** States in step with one view have one kernel table. */
  lemma ViewDeterminesKernel(env: Env, a: State, b: State)
    requires InStep(env, a) && InStep(env, b) && ViewOf(a) == ViewOf(b)
    ensures a.kernel == b.kernel
  {
    SameKeys(a);
    SameKeys(b);
    forall v | v in a.services ensures a.services[v].options == b.services[v].options {
      SeenService(a, v);
      SeenService(b, v);
    }
    forall rs | rs in a.backends
      ensures a.backends[rs].options == b.backends[rs].options && BackKey(a, rs) == BackKey(b, rs)
    {
      SeenBackend(env, a, rs);
      SeenBackend(env, b, rs);
    }
    TableDetermined(a, b);
  }

  lemma SeenService(st: State, v: string)
    requires v in st.services
    ensures v in ViewOf(st).services && ViewOf(st).services[v] == st.services[v].options
  {}

  lemma SeenBackend(env: Env, st: State, rs: string)
    requires InStep(env, st) && rs in st.backends
    ensures var w := ViewOf(st);
            && rs in w.backends && w.backends[rs].options == st.backends[rs].options
            && w.backends[rs].owner in w.services && BackKey(st, rs) == KeyOf(w.services[w.backends[rs].owner])
  {
    assert OwnedBackend(st, rs);
  }

  /** The outcome does not depend on the orders of the loops: what a user sees,
      the store and the whole kernel table come out the same. */
  lemma OrderIndependence(env: Env, st: State, ss: map<string, ServiceSpec>, sb: map<string, BackendSpec>,
                          o1: Orders, io1: Answers, o2: Orders, io2: Answers)
    requires Attached(env, st) && Ready(env, ViewOf(st), ss, sb)
    requires NoFailures(io1) && Possible(env, st, ss, sb, o1, io1)
    requires NoFailures(io2) && Possible(env, st, ss, sb, o2, io2)
    ensures var a, b := Synchronized(env, st, ss, sb, o1, io1), Synchronized(env, st, ss, sb, o2, io2);
            ViewOf(a) == ViewOf(b) && a.kernel == b.kernel
  {
    SynchronizedClosedForm(env, st, ss, sb, o1, io1);
    SynchronizedClosedForm(env, st, ss, sb, o2, io2);
    ViewDeterminesKernel(env, Synchronized(env, st, ss, sb, o1, io1), Synchronized(env, st, ss, sb, o2, io2));
  }

  /** The backend belongs to the service the entry names and has its host, port
      and forwarding method, NAT if it names none, at the host's address. */
  ghost predicate BackendMatches(env: Env, w: View, ss: map<string, ServiceSpec>, sb: map<string, BackendSpec>, rs: string)
    requires rs in sb
  {
    && sb[rs].vsid in ss && rs in w.backends && w.backends[rs].owner == sb[rs].vsid
    && var live := w.backends[rs].options;
       && live.spec.host == sb[rs].host && live.spec.port == sb[rs].port && live.spec.fwd == MethodOf(sb[rs].fwd)
       && Some(live.ip) == env.resolve(sb[rs].host) && DestOf(live) == DestOf(FilledBackend(env, sb[rs]))
  }

  /** Exactly the store's ids, with the options its entries stand for. */
  ghost predicate MatchesStore(env: Env, w: View, ss: map<string, ServiceSpec>, sb: map<string, BackendSpec>) {
    && w.services.Keys == ss.Keys && w.backends.Keys == sb.Keys
    && (forall v :: v in ss ==> ServiceIs(w, v, FilledService(env, ss[v])))
    && (forall rs :: rs in sb ==> BackendMatches(env, w, ss, sb, rs))
  }

  /** The kernel balances the service with the scheduler the entry names,
      weighted round robin if it names none, and its flags. */
  predicate Scheduled(env: Env, t: Table, spec: ServiceSpec) {
    var k := KeyOf(FilledService(env, spec));
    && k in t && t[k].scheduler == (if spec.sched == "" then "wrr" else spec.sched)
    && t[k].flags == FlagBits(FlagList(spec.flags))
  }

  /** The kernel forwards to the backend by the method the entry names, NAT if
      it names none. */
  predicate Forwarded(env: Env, t: Table, service: ServiceSpec, spec: BackendSpec) {
    var k, d := KeyOf(FilledService(env, service)), DestOf(FilledBackend(env, spec));
    HasDest(t, k, d) && Some(t[k].dests[d].forwarding) == ForwardingOf(MethodOf(spec.fwd))
  }

  /** The kernel holds exactly the services and destinations the store wants,
      set up as it wants them. */
  ghost predicate KernelMatchesStore(env: Env, t: Table, ss: map<string, ServiceSpec>, sb: map<string, BackendSpec>) {
    && (forall v :: v in ss ==> Scheduled(env, t, ss[v]))
    && (forall rs :: rs in sb ==> sb[rs].vsid in ss && Forwarded(env, t, ss[sb[rs].vsid], sb[rs]))
    && (forall k :: k in t <==> exists v :: v in ss && KeyOf(FilledService(env, ss[v])) == k)
    && (forall k, d :: HasDest(t, k, d) <==> exists rs :: Wants(env, ss, sb, rs, k, d))
  }

  /** What a synchronisation achieves, in whatever order it visits its maps. */
  lemma SynchronizedMatchesStore(env: Env, st: State, ss: map<string, ServiceSpec>, sb: map<string, BackendSpec>, o: Orders, io: Answers)
    requires Attached(env, st) && NoFailures(io) && Ready(env, ViewOf(st), ss, sb) && Possible(env, st, ss, sb, o, io)
    ensures var end := Synchronized(env, st, ss, sb, o, io);
            MatchesStore(env, ViewOf(end), ss, sb) && KernelMatchesStore(env, end.kernel, ss, sb)
  {
    SynchronizedClosedForm(env, st, ss, sb, o, io);
    ReconciledMatches(env, ViewOf(st), ss, sb);
    KernelFollows(env, Synchronized(env, st, ss, sb, o, io), ss, sb);
  }

  lemma KernelFollows(env: Env, end: State, ss: map<string, ServiceSpec>, sb: map<string, BackendSpec>)
    requires InStep(env, end) && MatchesStore(env, ViewOf(end), ss, sb)
    requires forall v :: v in ss ==> FillService(env, Decoded(ss[v])).1.Ok?
    ensures KernelMatchesStore(env, end.kernel, ss, sb)
  {
    SameKeys(end);
    ServicesAsWanted(env, end, ss, sb);
    BackendsAsWanted(env, end, ss, sb);
    KernelServiceKeys(end, env, ss);
    KernelDestKeys(end, env, ss, sb);
    forall v | v in ss ensures Scheduled(env, end.kernel, ss[v]) {
      ScheduledAsWanted(env, end, v, ss[v]);
    }
    forall rs | rs in sb ensures sb[rs].vsid in ss && Forwarded(env, end.kernel, ss[sb[rs].vsid], sb[rs]) {
      assert AsWanted(env, end, ss, sb, rs);
      ForwardedAsWanted(env, end, ss, sb, rs);
    }
  }

  lemma ScheduledAsWanted(env: Env, end: State, v: string, spec: ServiceSpec)
    requires ServicesInKernel(end) && v in end.services && end.services[v].options == FilledService(env, spec)
    requires FillService(env, Decoded(spec)).1.Ok?
    ensures Scheduled(env, end.kernel, spec)
  {
    FillServiceMeaning(env, Decoded(spec));
    assert Describes(end.kernel[Key(end, v)], end.services[v].options);
  }

  lemma ForwardedAsWanted(env: Env, end: State, ss: map<string, ServiceSpec>, sb: map<string, BackendSpec>, rs: string)
    requires BackendsInKernel(end) && rs in sb && rs in end.backends && AsWanted(env, end, ss, sb, rs)
    ensures Forwarded(env, end.kernel, ss[sb[rs].vsid], sb[rs])
  {
    assert Placed(end, rs);
  }

  lemma ServicesAsWanted(env: Env, end: State, ss: map<string, ServiceSpec>, sb: map<string, BackendSpec>)
    requires MatchesStore(env, ViewOf(end), ss, sb)
    ensures forall v :: v in ss ==> v in end.services && end.services[v].options == FilledService(env, ss[v])
  {
    forall v | v in ss ensures v in end.services && end.services[v].options == FilledService(env, ss[v]) {
      assert ServiceIs(ViewOf(end), v, FilledService(env, ss[v]));
      SameKeys(end);
      SeenService(end, v);
    }
  }

  lemma BackendsAsWanted(env: Env, end: State, ss: map<string, ServiceSpec>, sb: map<string, BackendSpec>)
    requires InStep(env, end) && MatchesStore(env, ViewOf(end), ss, sb)
    ensures forall rs :: rs in sb ==> rs in end.backends && AsWanted(env, end, ss, sb, rs)
  {
    SameKeys(end);
    forall rs | rs in sb ensures rs in end.backends && AsWanted(env, end, ss, sb, rs) {
      PlacedAsWanted(env, end, ss, sb, rs);
    }
  }

  /** The backend is where the store entry rs wants it. */
  predicate AsWanted(env: Env, end: State, ss: map<string, ServiceSpec>, sb: map<string, BackendSpec>, rs: string)
    requires rs in sb && rs in end.backends
  {
    && sb[rs].vsid in ss && BackKey(end, rs) == KeyOf(FilledService(env, ss[sb[rs].vsid]))
    && BackDest(end, rs) == DestOf(FilledBackend(env, sb[rs])) && end.backends[rs].options.spec.fwd == MethodOf(sb[rs].fwd)
  }

  lemma PlacedAsWanted(env: Env, end: State, ss: map<string, ServiceSpec>, sb: map<string, BackendSpec>, rs: string)
    requires InStep(env, end) && MatchesStore(env, ViewOf(end), ss, sb) && rs in sb && rs in end.backends
    ensures AsWanted(env, end, ss, sb, rs)
  {
    SeenBackend(env, end, rs);
    assert BackendMatches(env, ViewOf(end), ss, sb, rs);
    assert ServiceIs(ViewOf(end), sb[rs].vsid, FilledService(env, ss[sb[rs].vsid]));
  }

  /** The store entry rs wants this destination. */
  predicate Wants(env: Env, ss: map<string, ServiceSpec>, sb: map<string, BackendSpec>, rs: string, k: ServiceKey, d: DestKey) {
    && rs in sb && sb[rs].vsid in ss
    && KeyOf(FilledService(env, ss[sb[rs].vsid])) == k && DestOf(FilledBackend(env, sb[rs])) == d
  }

  lemma KernelServiceKeys(end: State, env: Env, ss: map<string, ServiceSpec>)
    requires ServicesInKernel(end) && NoStrayService(end) && end.services.Keys == ss.Keys
    requires forall v :: v in ss ==> end.services[v].options == FilledService(env, ss[v])
    ensures forall k :: k in end.kernel <==> exists v :: v in ss && KeyOf(FilledService(env, ss[v])) == k
  {
    forall k | k in end.kernel ensures exists v :: v in ss && KeyOf(FilledService(env, ss[v])) == k {
      var v :| IsAt(end, v, k);
      assert v in ss;
    }
  }

  lemma KernelDestKeys(end: State, env: Env, ss: map<string, ServiceSpec>, sb: map<string, BackendSpec>)
    requires DestsMatched(end) && BackendsInKernel(end) && end.backends.Keys == sb.Keys
    requires forall rs :: rs in sb ==> AsWanted(env, end, ss, sb, rs)
    ensures forall k, d :: HasDest(end.kernel, k, d) <==> exists rs :: Wants(env, ss, sb, rs, k, d)
  {
    forall k, d | HasDest(end.kernel, k, d) ensures exists rs :: Wants(env, ss, sb, rs, k, d) {
      var rs :| rs in end.backends && Backs(end.backends[rs], k, d, end.kernel[k].dests[d]);
      assert AsWanted(env, end, ss, sb, rs);
      assert Wants(env, ss, sb, rs, k, d);
    }
    forall k, d, rs | Wants(env, ss, sb, rs, k, d) ensures HasDest(end.kernel, k, d) {
      assert AsWanted(env, end, ss, sb, rs) && Placed(end, rs);
    }
  }

  /** The closed form matches the store, entry by entry. */
  lemma ReconciledMatches(env: Env, w: View, ss: map<string, ServiceSpec>, sb: map<string, BackendSpec>)
    requires Ready(env, w, ss, sb)
    ensures MatchesStore(env, Reconciled(env, w, ss, sb), ss, sb)
  {
    var w1 := WithoutServices(w, w.services.Keys - ss.Keys);
    var w2 := WithServices(env, w1, ss, ss.Keys);
    var w3 := WithoutBackends(w2, w2.backends.Keys - sb.Keys);
    FewerBackends(w, w1, w2, w3, sb.Keys);
    RegisteredExactly(env, w1, ss);
    LastLoopMatches(env, w, w3, ss, sb);
  }

  lemma RegisteredExactly(env: Env, w1: View, ss: map<string, ServiceSpec>)
    requires w1.services.Keys <= ss.Keys
    ensures RegisteredServices(env, w1, ss, ss.Keys) == map v | v in ss :: FilledService(env, ss[v])
  {}

  lemma LastLoopMatches(env: Env, w: View, w3: View, ss: map<string, ServiceSpec>, sb: map<string, BackendSpec>)
    requires Ready(env, w, ss, sb)
    requires w3.services == map v | v in ss :: FilledService(env, ss[v])
    requires forall rs :: rs in w3.backends ==> rs in w.backends && rs in sb && w3.backends[rs] == w.backends[rs]
    ensures MatchesStore(env, WithBackends(env, w3, sb, sb.Keys), ss, sb)
  {
    var r := WithBackends(env, w3, sb, sb.Keys);
    HeldExactly(env, w3, sb);
    forall v | v in ss ensures ServiceIs(r, v, FilledService(env, ss[v])) {}
    forall rs | rs in sb ensures BackendMatches(env, r, ss, sb, rs) {
      HeldMatches(env, w, w3, ss, sb, rs);
    }
  }

  lemma HeldExactly(env: Env, w3: View, sb: map<string, BackendSpec>)
    requires w3.backends.Keys <= sb.Keys
    ensures HeldBackends(env, w3, sb, sb.Keys).Keys == sb.Keys
  {}

  lemma HeldMatches(env: Env, w: View, w3: View, ss: map<string, ServiceSpec>, sb: map<string, BackendSpec>, rs: string)
    requires Ready(env, w, ss, sb) && rs in sb
    requires rs in w3.backends ==> rs in w.backends && w3.backends[rs] == w.backends[rs]
    ensures BackendMatches(env, WithBackends(env, w3, sb, sb.Keys), ss, sb, rs)
  {
    assert ValidBackend(env, ss, sb[rs]);
    if Made(w3, sb, rs) {
      PrepareBackendMeaning(env, DecodedBackend(sb[rs]));
    } else {
      KeptBackendMatches(env, w.backends[rs].options, sb[rs]);
    }
  }

  lemma KeptBackendMatches(env: Env, o: BackendOptions, spec: BackendSpec)
    requires NormalBackend(env, o) && SameBackend(o.spec, spec) && PrepareBackend(env, DecodedBackend(spec)).1.Ok?
    ensures o.spec.host == spec.host && o.spec.port == spec.port && o.spec.fwd == MethodOf(spec.fwd)
    ensures DestOf(o) == DestOf(FilledBackend(env, spec))
  {
    SameMeansDest(env, o, spec);
    LowerForwarding(o.spec.fwd);
  }

  lemma LowerForwarding(fwd: string)
    requires ValidForwarding(fwd)
    ensures fwd != "" && Lower(fwd) == fwd
  {}

  /** A turn for an id that compares equal does nothing. */
  lemma SettledTurn(env: Env, st: State, l: Loop, id: string, io: Answers)
    requires st.store.Some? && Settled(ViewOf(st))
    requires var kv := st.store.value;
             l in [StaleServices(kv.services), WantedServices(kv.services), StaleBackends(kv.backends), WantedBackends(kv.backends)]
    requires l.StaleServices? ==> id in st.services
    requires l.StaleBackends? ==> id in st.backends
    ensures Turn(env, st, l, id, io) == st
  {
    SameKeys(st);
    if id in st.services { SeenService(st, id); }
    if id in st.backends { assert ViewOf(st).backends[id].options == st.backends[id].options; }
  }

  lemma SettledLoop(env: Env, st: State, l: Loop, order: seq<string>, io: Answers)
    requires st.store.Some? && Settled(ViewOf(st)) && Distinct(order)
    requires var kv := st.store.value;
             l in [StaleServices(kv.services), WantedServices(kv.services), StaleBackends(kv.backends), WantedBackends(kv.backends)]
    requires l.StaleServices? ==> forall id :: id in order ==> id in st.services
    requires l.StaleBackends? ==> forall id :: id in order ==> id in st.backends
    ensures Looped(env, st, l, order, io) == st
  {
    var same := (s: State, seen: set<string>) => s == st;
    forall s, seen, id | same(s, seen) && id in order && id !in seen
      ensures same(Turn(env, s, l, id, io), seen + {id})
    {
      SettledTurn(env, st, l, id, io);
    }
    LoopRule(env, st, l, order, io, same);
  }

  /** Where context and store agree, synchronising changes nothing at all, in
      any order and whatever the outside world would answer. */
  lemma SettledSyncIsNoOp(env: Env, st: State, o: Orders, io: Answers)
    requires SyncPossible(env, st, o, io) && Settled(ViewOf(st))
    ensures StoreSync(env, st, o, io) == st
  {
    var kv := st.store.value;
    SettledLoop(env, st, StaleServices(kv.services), o.services, io);
    SettledLoop(env, st, WantedServices(kv.services), o.wanted, io);
    SettledLoop(env, st, StaleBackends(kv.backends), o.backends, io);
    SettledLoop(env, st, WantedBackends(kv.backends), o.wantedBackends, io);
  }

  lemma OneSync(env: Env, st: State, o: Orders, io: Answers)
    requires Attached(env, st) && NoFailures(io) && SyncPossible(env, st, o, io)
    requires Ready(env, ViewOf(st), st.store.value.services, st.store.value.backends)
    ensures var end := StoreSync(env, st, o, io);
            && Attached(env, end) && ViewOf(end) == Round(env, ViewOf(st))
            && Ready(env, ViewOf(end), ViewOf(end).store.services, ViewOf(end).store.backends)
  {
    SynchronizedClosedForm(env, st, st.store.value.services, st.store.value.backends, o, io);
    ReadyAgain(env, ViewOf(st));
  }

  /** Convergence: of three successive synchronisations the third is a no-op on
      context, kernel and store, whatever orders the loops take. */
  lemma ThreeRoundsConverge(env: Env, st: State, o1: Orders, o2: Orders, o3: Orders, io: Answers)
    requires Attached(env, st) && NoFailures(io)
    requires Ready(env, ViewOf(st), st.store.value.services, st.store.value.backends)
    requires SyncPossible(env, st, o1, io)
    requires SyncPossible(env, StoreSync(env, st, o1, io), o2, io)
    requires SyncPossible(env, StoreSync(env, StoreSync(env, st, o1, io), o2, io), o3, io)
    ensures var second := StoreSync(env, StoreSync(env, st, o1, io), o2, io);
            StoreSync(env, second, o3, io) == second
  {
    var first := StoreSync(env, st, o1, io);
    OneSync(env, st, o1, io);
    OneSync(env, first, o2, io);
    SecondRoundSettles(env, ViewOf(st));
    SettledSyncIsNoOp(env, StoreSync(env, first, o2, io), o3, io);
  }

  /** Whatever fails on the way and in whatever order, a synchronisation keeps
      what every run keeps. */
  lemma SyncKeepsSound(env: Env, st: State, ss: map<string, ServiceSpec>, sb: map<string, BackendSpec>, o: Orders, io: Answers)
    requires Sound(env, st) && Possible(env, st, ss, sb, o, io)
    ensures Sound(env, Synchronized(env, st, ss, sb, o, io))
  {
    LoopKeepsSound(env, st, StaleServices(ss), o.services, io);
    var first := Looped(env, st, StaleServices(ss), o.services, io);
    LoopKeepsSound(env, first, WantedServices(ss), o.wanted, io);
    var mid := AfterServices(env, st, ss, o, io);
    LoopKeepsSound(env, mid, StaleBackends(sb), o.backends, io);
    LoopKeepsSound(env, Looped(env, mid, StaleBackends(sb), o.backends, io), WantedBackends(sb), o.wantedBackends, io);
  }

  lemma LoopKeepsSound(env: Env, st: State, l: Loop, order: seq<string>, io: Answers)
    requires Sound(env, st) && Distinct(order)
    ensures Sound(env, Looped(env, st, l, order, io))
  {
    var good := (s: State, seen: set<string>) => Sound(env, s);
    forall s, seen, id | good(s, seen) && id in order && id !in seen
      ensures good(Turn(env, s, l, id, io), seen + {id})
    {
      TurnKeepsSound(env, s, l, id, io);
    }
    LoopRule(env, st, l, order, io, good);
  }

  lemma TurnKeepsSound(env: Env, s: State, l: Loop, id: string, io: Answers)
    requires Sound(env, s)
    ensures Sound(env, Turn(env, s, l, id, io))
  {
    forall st, op | Sound(env, st)
      ensures Sound(env, Apply(env, st, op).0) && Sound(env, Fatal(Apply(env, st, op)))
    {
      FatalKeepsSound(env, st, op);
    }
  }

  lemma FatalKeepsSound(env: Env, st: State, op: Op)
    requires Sound(env, st)
    ensures Sound(env, Apply(env, st, op).0) && Sound(env, Fatal(Apply(env, st, op)))
  {
    var _ := SoundKept(env, st, op);
    SoundIgnoresStore(env, Apply(env, st, op).0, Fatal(Apply(env, st, op)));
  }

  /** The state with the process taken to be alive, as it is during requests. */
  function Alive(st: State): State {
    st.(crashed := false)
  }

  predicate SyncCall(op: Op) {
    op.OpRemoveService? || op.OpCreateService? || op.OpRemoveBackend? || op.OpCreateBackend?
  }

  /** Whatever fails on the way, in whatever order, and whether or not the
      process dies of it, a synchronisation takes the context where a run of
      removals and creations takes it: what is proved of every run holds of
      runs with synchronisations in between. */
  lemma SyncIsRun(env: Env, st: State, ss: map<string, ServiceSpec>, sb: map<string, BackendSpec>, o: Orders, io: Answers)
    returns (ops: seq<Op>)
    requires !st.crashed
    ensures Alive(Synchronized(env, st, ss, sb, o, io)) == Run(env, st, ops)
    ensures forall n :: 0 <= n < |ops| ==> SyncCall(ops[n])
  {
    ops := MoreTurns(env, st, st, [], StaleServices(ss), o.services, io);
    var s := Looped(env, st, StaleServices(ss), o.services, io);
    ops := MoreTurns(env, st, s, ops, WantedServices(ss), o.wanted, io);
    s := AfterServices(env, st, ss, o, io);
    ops := MoreTurns(env, st, s, ops, StaleBackends(sb), o.backends, io);
    s := Looped(env, s, StaleBackends(sb), o.backends, io);
    ops := MoreTurns(env, st, s, ops, WantedBackends(sb), o.wantedBackends, io);
  }

  /** `before` leads from st to s; continued with the loop's calls it leads to
      where the loop ends. */
  lemma {:induction false} MoreTurns(env: Env, st: State, s: State, before: seq<Op>, l: Loop, order: seq<string>, io: Answers)
    returns (ops: seq<Op>)
    requires Alive(s) == Run(env, st, before) && forall n :: 0 <= n < |before| ==> SyncCall(before[n])
    ensures Alive(Looped(env, s, l, order, io)) == Run(env, st, ops)
    ensures forall n :: 0 <= n < |ops| ==> SyncCall(ops[n])
  {
    if order == [] {
      ops := before;
    } else {
      var n := |order| - 1;
      var most := MoreTurns(env, st, s, before, l, order[..n], io);
      var mid := Looped(env, s, l, order[..n], io);
      var calls := TurnCalls(env, mid, l, order[n], io);
      ops := most + calls;
      RunAppend(env, st, most, calls);
    }
  }

  lemma TurnCalls(env: Env, s: State, l: Loop, id: string, io: Answers) returns (calls: seq<Op>)
    ensures Alive(Turn(env, s, l, id, io)) == Run(env, Alive(s), calls)
    ensures forall n :: 0 <= n < |calls| ==> SyncCall(calls[n])
  {
    calls := [];
    if !s.crashed {
      assert Alive(s) == s;
      match l
      case StaleServices(ss) =>
        if id !in ss {
          calls := [OpRemoveService(id, io(StaleService, id))];
          OneCall(env, s, calls[0]);
        }
      case WantedServices(ss) =>
        if id in ss {
          calls := ServiceCalls(env, s, id, ss[id], io);
        }
      case StaleBackends(sb) =>
        if id !in sb {
          calls := [OpRemoveBackend(id, io(StaleBackend, id))];
          OneCall(env, s, calls[0]);
        }
      case WantedBackends(sb) =>
        if id in sb {
          calls := BackendCalls(env, s, id, sb[id], io);
        }
    }
  }

  lemma OneCall(env: Env, s: State, op: Op)
    ensures Run(env, s, [op]) == Apply(env, s, op).0
    ensures !s.crashed ==> Alive(Fatal(Apply(env, s, op))) == Apply(env, s, op).0
  {
    assert [op][..0] == [];
    assert Run(env, s, []) == s;
  }

  lemma TwoCalls(env: Env, s: State, first: Op, second: Op)
    ensures Run(env, s, [first, second]) == Apply(env, Apply(env, s, first).0, second).0
  {
    RunAppend(env, s, [first], [second]);
    OneCall(env, s, first);
    OneCall(env, Run(env, s, [first]), second);
    assert [first] + [second] == [first, second];
  }

  lemma ServiceCalls(env: Env, s: State, id: string, spec: ServiceSpec, io: Answers) returns (calls: seq<Op>)
    requires !s.crashed
    ensures Alive(MadeService(env, s, id, spec, io)) == Run(env, s, calls)
    ensures forall n :: 0 <= n < |calls| ==> SyncCall(calls[n])
  {
    var remove := OpRemoveService(id, io(ChangedService, id));
    var create := OpCreateService(id, Decoded(spec), io(MissingService, id));
    if id !in s.services {
      calls := [create];
      OneCall(env, s, create);
    } else if SameService(s.services[id].options.spec, spec) {
      calls := [];
    } else {
      OneCall(env, s, remove);
      TwoCalls(env, s, remove, create);
      calls := if RemovedService(env, s, id, remove.io).crashed then [remove] else [remove, create];
    }
  }

  lemma BackendCalls(env: Env, s: State, id: string, spec: BackendSpec, io: Answers) returns (calls: seq<Op>)
    requires !s.crashed
    ensures Alive(MadeBackend(env, s, id, spec, io)) == Run(env, s, calls)
    ensures forall n :: 0 <= n < |calls| ==> SyncCall(calls[n])
  {
    var remove := OpRemoveBackend(id, io(ChangedBackend, id));
    var create := OpCreateBackend(spec.vsid, id, DecodedBackend(spec), io(MissingBackend, id));
    if id !in s.backends {
      calls := [create];
      OneCall(env, s, create);
    } else if SameBackend(s.backends[id].options.spec, spec) {
      calls := [];
    } else {
      OneCall(env, s, remove);
      TwoCalls(env, s, remove, create);
      calls := if RemovedBackend(env, s, id, remove.io).crashed then [remove] else [remove, create];
    }
  }

  /** Outside a request a panic is the end of the process: exactly a removal that
      panics kills it, with what it had done done, and no further turn of any
      loop does anything. */
  lemma PanicKills(env: Env, st: State, id: string, io: Io)
    requires !st.crashed
    ensures RemovedService(env, st, id, io).crashed <==> RemoveService(st, id, io).1 == Err(Panic)
    ensures RemovedBackend(env, st, id, io).crashed <==> RemoveBackend(st, id, io).1 == Err(Panic)
    ensures Alive(RemovedService(env, st, id, io)) == RemoveService(st, id, io).0
    ensures Alive(RemovedBackend(env, st, id, io)) == RemoveBackend(st, id, io).0
  {}

  lemma DeathEndsSync(env: Env, st: State, ss: map<string, ServiceSpec>, sb: map<string, BackendSpec>, o: Orders, io: Answers)
    ensures var first, mid := Looped(env, st, StaleServices(ss), o.services, io), AfterServices(env, st, ss, o, io);
            && (first.crashed ==> Synchronized(env, st, ss, sb, o, io) == first)
            && (mid.crashed ==> Synchronized(env, st, ss, sb, o, io) == mid)
  {
    var first, mid := Looped(env, st, StaleServices(ss), o.services, io), AfterServices(env, st, ss, o, io);
    if first.crashed {
      StaysCrashed(env, first, WantedServices(ss), o.wanted, io);
    }
    if mid.crashed {
      StaysCrashed(env, mid, StaleBackends(sb), o.backends, io);
      StaysCrashed(env, mid, WantedBackends(sb), o.wantedBackends, io);
    }
  }
}
