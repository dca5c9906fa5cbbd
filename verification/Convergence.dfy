/** Repeating the synchronisation reaches a fixed point after two rounds, on
    views (core/context.go, core/store.go, core/options.go). */
module Convergence {
  import opened Net
  import opened Options
  import opened Model
  import opened Effects
  import opened Reconcile

  /** The store can be installed: every entry is valid, every backend's service
      is there with its address family, and no two entries want one address. */
  ghost predicate ValidStore(env: Env, ss: map<string, ServiceSpec>, sb: map<string, BackendSpec>) {
    && (forall v :: v in ss ==> FillService(env, ServiceOptions(ss[v], [])).1.Ok?)
    && (forall v, u :: v in ss && u in ss && v != u ==>
          KeyOf(FilledService(env, ss[v])) != KeyOf(FilledService(env, ss[u])))
    && (forall rs :: rs in sb ==> ValidBackend(env, ss, sb[rs]))
    && (forall rs, qs :: rs in sb && qs in sb && rs != qs && sb[rs].vsid == sb[qs].vsid ==>
          DestOf(FilledBackend(env, sb[rs])) != DestOf(FilledBackend(env, sb[qs])))
  }

  ghost predicate ValidBackend(env: Env, ss: map<string, ServiceSpec>, spec: BackendSpec) {
    && PrepareBackend(env, BackendOptions(spec, [])).1.Ok?
    && spec.vsid in ss
    && AddrFamily(FilledBackend(env, spec).ip) == AddrFamily(FilledService(env, ss[spec.vsid]).ip)
  }

  /** Nothing live stands in the store's way: no object of another name that
      stays holds a wanted address, and a backend that stays belongs to the
      service the store names. */
  ghost predicate Unobstructed(env: Env, w: View, ss: map<string, ServiceSpec>, sb: map<string, BackendSpec>) {
    && (forall v, u :: v in w.services && v in ss && u in ss && v != u ==>
          KeyOf(w.services[v]) != KeyOf(FilledService(env, ss[u])))
    && (forall rs :: rs in w.backends && rs in sb ==> w.backends[rs].owner == sb[rs].vsid)
    && (forall rs, qs :: rs in w.backends && rs in sb && qs in sb && rs != qs && w.backends[rs].owner == sb[qs].vsid ==>
          DestOf(w.backends[rs].options) != DestOf(FilledBackend(env, sb[qs])))
  }

  /** Registered options are in normal form and owners are registered. */
  ghost predicate NormalView(env: Env, w: View) {
    && (forall v :: v in w.services ==> NormalService(env, w.services[v]))
    && (forall rs :: rs in w.backends ==>
          NormalBackend(env, w.backends[rs].options) && w.backends[rs].owner in w.services)
  }

  ghost predicate Ready(env: Env, w: View, ss: map<string, ServiceSpec>, sb: map<string, BackendSpec>) {
    ValidStore(env, ss, sb) && Unobstructed(env, w, ss, sb) && NormalView(env, w)
  }

  /** A service that compares equal is the filled store entry. */
  lemma SameMeansFilled(env: Env, o: ServiceOptions, spec: ServiceSpec)
    requires NormalService(env, o) && SameService(o.spec, spec)
    ensures FilledService(env, spec) == o
  {
    assert o.spec == spec;
  }

  /** A backend that compares equal has the wanted destination. */
  lemma SameMeansDest(env: Env, o: BackendOptions, spec: BackendSpec)
    requires NormalBackend(env, o) && SameBackend(o.spec, spec)
    requires PrepareBackend(env, BackendOptions(spec, [])).1.Ok?
    ensures DestOf(FilledBackend(env, spec)) == DestOf(o)
  {
    PreparedIsNormal(env, BackendOptions(spec, []));
    PrepareBackendNormalises(env, BackendOptions(spec, []), []);
  }

  /** A live service that need not be touched. */
  predicate Unchanged(w: View, ss: map<string, ServiceSpec>, v: string) {
    v in w.services && v in ss && SameService(w.services[v].spec, ss[v])
  }

  predicate KeptBackend(w: View, ss: map<string, ServiceSpec>, sb: map<string, BackendSpec>, rs: string)
    requires rs in sb
  {
    rs in w.backends && Unchanged(w, ss, sb[rs].vsid) && SameBackend(w.backends[rs].options.spec, sb[rs])
  }

  /** What one round leaves, id by id. */
  ghost predicate ServiceOutcome(env: Env, w: View, r: View, v: string)
    requires v in w.store.services
  {
    var spec := w.store.services[v];
    && v in r.services && r.services[v] == FilledService(env, spec)
    && v in r.store.services
    && r.store.services[v] ==
         if v in w.services && !SameService(w.services[v].spec, spec) then FilledService(env, spec).spec else spec
  }

  ghost predicate BackendOutcome(env: Env, w: View, r: View, rs: string)
    requires rs in w.store.backends
  {
    var spec := w.store.backends[rs];
    var kept := KeptBackend(w, w.store.services, w.store.backends, rs);
    && rs in r.backends
    && r.backends[rs] == (if kept then w.backends[rs] else Held(spec.vsid, FilledBackend(env, spec)))
    && rs in r.store.backends
    && r.store.backends[rs] == if rs in w.backends && !kept then FilledBackend(env, spec).spec else spec
  }

  ghost predicate Outcome1(env: Env, w: View, r: View) {
    && r.services.Keys == r.store.services.Keys == w.store.services.Keys
    && r.backends.Keys == r.store.backends.Keys == w.store.backends.Keys
    && (forall v :: v in w.store.services ==> ServiceOutcome(env, w, r, v))
    && (forall rs :: rs in w.store.backends ==> BackendOutcome(env, w, r, rs))
  }

  /** The view after the first two and after the first three loops. */
  function ServicesDone(env: Env, w: View): View {
    var ss := w.store.services;
    WithServices(env, WithoutServices(w, w.services.Keys - ss.Keys), ss, ss.Keys)
  }

  function StaleDone(env: Env, w: View): View {
    var u := ServicesDone(env, w);
    WithoutBackends(u, u.backends.Keys - w.store.backends.Keys)
  }

  /** Dropping services the store does not know leaves the store alone. */
  lemma DroppingSparesStore(env: Env, w: View)
    requires Ready(env, w, w.store.services, w.store.backends)
    ensures var u := WithoutServices(w, w.services.Keys - w.store.services.Keys);
            && u.store == w.store
            && forall rs :: rs in w.store.backends ==> (rs in u.backends <==> rs in w.backends)
  {
    forall rs | rs in w.store.backends && rs in w.backends ensures w.backends[rs].owner in w.store.services {
      assert ValidBackend(env, w.store.services, w.store.backends[rs]);
    }
    DroppingStrangers(w);
  }

  lemma DroppingStrangers(w: View)
    requires forall rs :: rs in w.store.backends && rs in w.backends ==> w.backends[rs].owner in w.store.services
    ensures var u := WithoutServices(w, w.services.Keys - w.store.services.Keys);
            && u.store == w.store
            && forall rs :: rs in w.store.backends ==> (rs in u.backends <==> rs in w.backends)
  {
    var gone := w.services.Keys - w.store.services.Keys;
    assert HeldBy(w, gone) !! w.store.backends.Keys;
    assert w.store.services - gone == w.store.services;
    assert w.store.backends - HeldBy(w, gone) == w.store.backends;
  }

  lemma ServicesDoneOutcome(env: Env, w: View, v: string)
    requires Ready(env, w, w.store.services, w.store.backends) && v in w.store.services
    ensures ServiceOutcome(env, w, ServicesDone(env, w), v)
  {
    DroppingSparesStore(env, w);
  }

  lemma ServicesDoneKeys(env: Env, w: View)
    requires Ready(env, w, w.store.services, w.store.backends)
    ensures var u := ServicesDone(env, w);
            u.services.Keys == u.store.services.Keys == w.store.services.Keys
  {
    DroppingSparesStore(env, w);
    KeysOfWithServices(env, WithoutServices(w, w.services.Keys - w.store.services.Keys), w.store.services);
  }

  lemma KeysOfWithServices(env: Env, x: View, ss: map<string, ServiceSpec>)
    requires x.services.Keys <= ss.Keys && x.store.services == ss
    ensures RegisteredServices(env, x, ss, ss.Keys).Keys == ss.Keys
    ensures StoredServices(env, x, ss, ss.Keys).Keys == ss.Keys
  {}

  lemma ServicesDoneBackend(env: Env, w: View, rs: string)
    requires Ready(env, w, w.store.services, w.store.backends) && rs in w.store.backends
    ensures var u, sb := ServicesDone(env, w), w.store.backends;
            && (rs in u.backends <==> rs in w.backends && Unchanged(w, w.store.services, sb[rs].vsid))
            && (rs in u.backends ==> u.backends[rs] == w.backends[rs])
            && (rs in u.store.backends <==> rs !in w.backends || rs in u.backends)
            && (rs in u.store.backends ==> u.store.backends[rs] == sb[rs])
  {
    DroppingSparesStore(env, w);
    assert ValidBackend(env, w.store.services, w.store.backends[rs]);
    var w1 := WithoutServices(w, w.services.Keys - w.store.services.Keys);
    var ss := w.store.services;
    assert rs in HeldBy(w1, Changed(w1, ss, ss.Keys)) <==>
           rs in w.backends && !Unchanged(w, ss, w.store.backends[rs].vsid);
  }

  lemma ServicesDoneStore(env: Env, w: View)
    requires Ready(env, w, w.store.services, w.store.backends)
    ensures ServicesDone(env, w).store.backends.Keys <= w.store.backends.Keys
  {
    DroppingSparesStore(env, w);
  }

  lemma StaleDoneBackends(env: Env, w: View)
    requires Ready(env, w, w.store.services, w.store.backends)
    ensures var u, x := ServicesDone(env, w), StaleDone(env, w);
            && x.services == u.services && x.store == u.store
            && x.backends.Keys == u.backends.Keys * w.store.backends.Keys
            && forall rs :: rs in x.backends ==> x.backends[rs] == u.backends[rs]
  {
    ServicesDoneStore(env, w);
    DroppingStale(ServicesDone(env, w), w.store.backends.Keys);
  }

  lemma DroppingStale(u: View, wanted: set<string>)
    requires u.store.backends.Keys <= wanted
    ensures var x := WithoutBackends(u, u.backends.Keys - wanted);
            && x.services == u.services && x.store == u.store
            && x.backends.Keys == u.backends.Keys * wanted
            && forall rs :: rs in x.backends ==> x.backends[rs] == u.backends[rs]
  {
    assert u.store.backends - (u.backends.Keys - wanted) == u.store.backends;
  }

  lemma RoundOutcome(env: Env, w: View)
    requires Ready(env, w, w.store.services, w.store.backends)
    ensures Outcome1(env, w, Round(env, w))
  {
    RoundKeys(env, w);
    forall v | v in w.store.services ensures ServiceOutcome(env, w, Round(env, w), v) {
      RoundService(env, w, v);
    }
    forall rs | rs in w.store.backends ensures BackendOutcome(env, w, Round(env, w), rs) {
      RoundBackend(env, w, rs);
    }
  }

  lemma RoundKeys(env: Env, w: View)
    requires Ready(env, w, w.store.services, w.store.backends)
    ensures var r := Round(env, w);
            && r.services.Keys == r.store.services.Keys == w.store.services.Keys
            && r.backends.Keys == r.store.backends.Keys == w.store.backends.Keys
  {
    StaleDoneBackends(env, w);
    ServicesDoneKeys(env, w);
    RoundBackendKeys(env, w);
  }

  lemma RoundBackendKeys(env: Env, w: View)
    requires Ready(env, w, w.store.services, w.store.backends)
    ensures Round(env, w).backends.Keys == w.store.backends.Keys
    ensures Round(env, w).store.backends.Keys == w.store.backends.Keys
  {
    StaleDoneBackends(env, w);
    ServicesDoneStore(env, w);
    KeysOfWithBackends(env, StaleDone(env, w), w.store.backends);
    forall rs | rs in w.store.backends ensures rs in Round(env, w).store.backends {
      RoundBackend(env, w, rs);
    }
  }

  lemma KeysOfWithBackends(env: Env, x: View, sb: map<string, BackendSpec>)
    requires x.backends.Keys <= sb.Keys && x.store.backends.Keys <= sb.Keys
    ensures WithBackends(env, x, sb, sb.Keys).backends.Keys == sb.Keys
    ensures WithBackends(env, x, sb, sb.Keys).store.backends.Keys <= sb.Keys
  {}

  lemma RoundService(env: Env, w: View, v: string)
    requires Ready(env, w, w.store.services, w.store.backends) && v in w.store.services
    ensures ServiceOutcome(env, w, Round(env, w), v)
  {
    StaleDoneBackends(env, w);
    ServicesDoneOutcome(env, w, v);
  }

  lemma RoundBackend(env: Env, w: View, rs: string)
    requires Ready(env, w, w.store.services, w.store.backends) && rs in w.store.backends
    ensures BackendOutcome(env, w, Round(env, w), rs)
  {
    StaleDoneBackends(env, w);
    ServicesDoneBackend(env, w, rs);
    var x, sb := StaleDone(env, w), w.store.backends;
    assert Made(x, sb, rs) <==> !KeptBackend(w, w.store.services, sb, rs);
  }

  /** Context and store agree, as far as the comparison looks. */
  predicate Settled(w: View) {
    && w.services.Keys == w.store.services.Keys && w.backends.Keys == w.store.backends.Keys
    && (forall v :: v in w.services ==> SameService(w.services[v].spec, w.store.services[v]))
    && (forall rs :: rs in w.backends ==> SameBackend(w.backends[rs].options.spec, w.store.backends[rs]))
  }

  /** What a store entry stands for does not change when it is rewritten in
      normal form. */
  lemma SameEntries(env: Env, w: View, r: View)
    requires ValidStore(env, w.store.services, w.store.backends) && Outcome1(env, w, r)
    ensures forall v :: v in r.store.services ==>
              FillService(env, ServiceOptions(r.store.services[v], [])) ==
              FillService(env, ServiceOptions(w.store.services[v], []))
    ensures forall rs :: rs in r.store.backends ==>
              && PrepareBackend(env, BackendOptions(r.store.backends[rs], [])) ==
                 PrepareBackend(env, BackendOptions(w.store.backends[rs], []))
              && r.store.backends[rs].vsid == w.store.backends[rs].vsid
  {
    forall v | v in r.store.services
      ensures FillService(env, ServiceOptions(r.store.services[v], [])) ==
              FillService(env, ServiceOptions(w.store.services[v], []))
    {
      assert ServiceOutcome(env, w, r, v);
      FillServiceNormalises(env, ServiceOptions(w.store.services[v], []), []);
    }
    forall rs | rs in r.store.backends
      ensures PrepareBackend(env, BackendOptions(r.store.backends[rs], [])) ==
              PrepareBackend(env, BackendOptions(w.store.backends[rs], []))
      ensures r.store.backends[rs].vsid == w.store.backends[rs].vsid
    {
      assert BackendOutcome(env, w, r, rs) && ValidBackend(env, w.store.services, w.store.backends[rs]);
      PrepareBackendNormalises(env, BackendOptions(w.store.backends[rs], []), []);
    }
  }

  lemma ValidAgain(env: Env, w: View, r: View)
    requires ValidStore(env, w.store.services, w.store.backends) && Outcome1(env, w, r)
    ensures ValidStore(env, r.store.services, r.store.backends)
  {
    SameEntries(env, w, r);
    forall rs | rs in r.store.backends ensures ValidBackend(env, r.store.services, r.store.backends[rs]) {
      assert ValidBackend(env, w.store.services, w.store.backends[rs]);
    }
  }

  lemma NormalAgain(env: Env, w: View, r: View)
    requires Ready(env, w, w.store.services, w.store.backends) && Outcome1(env, w, r)
    ensures NormalView(env, r)
  {
    forall v | v in r.services ensures NormalService(env, r.services[v]) {
      assert ServiceOutcome(env, w, r, v);
      FillServiceNormalises(env, ServiceOptions(w.store.services[v], []), []);
    }
    forall rs | rs in r.backends
      ensures NormalBackend(env, r.backends[rs].options) && r.backends[rs].owner in r.services
    {
      assert BackendOutcome(env, w, r, rs) && ValidBackend(env, w.store.services, w.store.backends[rs]);
      PreparedIsNormal(env, BackendOptions(w.store.backends[rs], []));
    }
  }

  /** The destination a backend holds after a round is the wanted one. */
  lemma WantedDest(env: Env, w: View, r: View, rs: string)
    requires Ready(env, w, w.store.services, w.store.backends) && Outcome1(env, w, r) && rs in r.backends
    ensures r.backends[rs].owner == w.store.backends[rs].vsid
    ensures DestOf(r.backends[rs].options) == DestOf(FilledBackend(env, w.store.backends[rs]))
  {
    assert BackendOutcome(env, w, r, rs) && ValidBackend(env, w.store.services, w.store.backends[rs]);
    if KeptBackend(w, w.store.services, w.store.backends, rs) {
      SameMeansDest(env, w.backends[rs].options, w.store.backends[rs]);
    }
  }

  lemma UnobstructedAgain(env: Env, w: View, r: View)
    requires Ready(env, w, w.store.services, w.store.backends) && Outcome1(env, w, r)
    ensures Unobstructed(env, r, r.store.services, r.store.backends)
  {
    SameEntries(env, w, r);
    forall v, u | v in r.services && u in r.store.services && v != u
      ensures KeyOf(r.services[v]) != KeyOf(FilledService(env, r.store.services[u]))
    {
      assert ServiceOutcome(env, w, r, v);
    }
    forall rs | rs in r.backends ensures r.backends[rs].owner == r.store.backends[rs].vsid {
      WantedDest(env, w, r, rs);
    }
    forall rs, qs | rs in r.backends && qs in r.store.backends && rs != qs
                    && r.backends[rs].owner == r.store.backends[qs].vsid
      ensures DestOf(r.backends[rs].options) != DestOf(FilledBackend(env, r.store.backends[qs]))
    {
      WantedDest(env, w, r, rs);
    }
  }

  /** A round leaves a view that is ready for the next one. */
  lemma ReadyAgain(env: Env, w: View)
    requires Ready(env, w, w.store.services, w.store.backends)
    ensures var r := Round(env, w); Ready(env, r, r.store.services, r.store.backends)
  {
    RoundOutcome(env, w);
    ValidAgain(env, w, Round(env, w));
    NormalAgain(env, w, Round(env, w));
    UnobstructedAgain(env, w, Round(env, w));
  }

  /** The second round settles everything: what the first created from raw
      entries is rewritten in normal form and compares equal from then on. */
  lemma SecondRoundSettles(env: Env, w: View)
    requires Ready(env, w, w.store.services, w.store.backends)
    ensures Settled(Round(env, Round(env, w)))
  {
    var r := Round(env, w);
    RoundOutcome(env, w);
    ReadyAgain(env, w);
    RoundOutcome(env, r);
    var q := Round(env, r);
    forall v | v in q.services ensures SameService(q.services[v].spec, q.store.services[v]) {
      assert ServiceOutcome(env, r, q, v) && v in r.services;
      if SameService(r.services[v].spec, r.store.services[v]) {
        SameMeansFilled(env, r.services[v], r.store.services[v]);
      }
    }
    forall rs | rs in q.backends ensures SameBackend(q.backends[rs].options.spec, q.store.backends[rs]) {
      assert BackendOutcome(env, r, q, rs) && rs in r.backends;
    }
  }

  predicate NormalEntry(env: Env, w: View, v: string)
    requires v in w.store.services
  {
    v in w.services || SameService(FilledService(env, w.store.services[v]).spec, w.store.services[v])
  }

  predicate NormalBackendEntry(env: Env, w: View, rs: string)
    requires rs in w.store.backends
  {
    rs in w.backends || SameBackend(FilledBackend(env, w.store.backends[rs]).spec, w.store.backends[rs])
  }

  /** The bound is tight: one round settles everything exactly when each object
      it creates anew has an entry in normal form, because creating does not
      overwrite the store. */
  lemma OneRoundSettlesExactly(env: Env, w: View)
    requires Ready(env, w, w.store.services, w.store.backends)
    ensures Settled(Round(env, w)) <==>
            && (forall v :: v in w.store.services ==> NormalEntry(env, w, v))
            && (forall rs :: rs in w.store.backends ==> NormalBackendEntry(env, w, rs))
  {
    RoundOutcome(env, w);
    SettlesExactly(env, w, Round(env, w));
  }

  lemma SettlesExactly(env: Env, w: View, r: View)
    requires NormalView(env, w) && Outcome1(env, w, r)
    ensures Settled(r) <==>
            && (forall v :: v in w.store.services ==> NormalEntry(env, w, v))
            && (forall rs :: rs in w.store.backends ==> NormalBackendEntry(env, w, rs))
  {
    ServicesSettle(env, w, r);
    BackendsSettle(env, w, r);
  }

  lemma ServicesSettle(env: Env, w: View, r: View)
    requires NormalView(env, w) && Outcome1(env, w, r)
    ensures (forall v :: v in r.services ==> SameService(r.services[v].spec, r.store.services[v])) <==>
            (forall v :: v in w.store.services ==> NormalEntry(env, w, v))
  {
    forall v | v in w.store.services
      ensures SameService(r.services[v].spec, r.store.services[v]) <==> NormalEntry(env, w, v)
    {
      ServiceSettles(env, w, r, v);
    }
  }

  lemma BackendsSettle(env: Env, w: View, r: View)
    requires Outcome1(env, w, r)
    ensures (forall rs :: rs in r.backends ==> SameBackend(r.backends[rs].options.spec, r.store.backends[rs])) <==>
            (forall rs :: rs in w.store.backends ==> NormalBackendEntry(env, w, rs))
  {
    forall rs | rs in w.store.backends
      ensures SameBackend(r.backends[rs].options.spec, r.store.backends[rs]) <==> NormalBackendEntry(env, w, rs)
    {
      BackendSettles(env, w, r, rs);
    }
  }

  lemma ServiceSettles(env: Env, w: View, r: View, v: string)
    requires NormalView(env, w) && Outcome1(env, w, r) && v in w.store.services
    ensures SameService(r.services[v].spec, r.store.services[v]) <==> NormalEntry(env, w, v)
  {
    assert ServiceOutcome(env, w, r, v);
    if v in w.services && SameService(w.services[v].spec, w.store.services[v]) {
      SameMeansFilled(env, w.services[v], w.store.services[v]);
    }
  }

  lemma BackendSettles(env: Env, w: View, r: View, rs: string)
    requires Outcome1(env, w, r) && rs in w.store.backends
    ensures SameBackend(r.backends[rs].options.spec, r.store.backends[rs]) <==> NormalBackendEntry(env, w, rs)
  {
    assert BackendOutcome(env, w, r, rs);
  }
}
