/** What one synchronisation with the store comes to, as a function on what a
    user can see: options, which service a backend belongs to, and the store
    (core/context.go, core/store.go). */
module Reconcile {
  import opened Options
  import opened Model

  /** A backend and the id of its service. */
  datatype Held = Held(owner: string, options: BackendOptions)

  datatype View = View(services: map<string, ServiceOptions>, backends: map<string, Held>, store: Kv)

  /** The options a store entry stands for. */
  function FilledService(env: Env, spec: ServiceSpec): ServiceOptions {
    FillService(env, ServiceOptions(spec, [])).0
  }

  function FilledBackend(env: Env, spec: BackendSpec): BackendOptions {
    PrepareBackend(env, BackendOptions(spec, [])).0
  }

  function HeldBy(w: View, owners: set<string>): set<string> {
    set rs | rs in w.backends && w.backends[rs].owner in owners
  }

  /** The services `gone` and everything of theirs removed. */
  function WithoutServices(w: View, gone: set<string>): View {
    View(w.services - gone,
         w.backends - HeldBy(w, gone),
         Kv(w.store.services - gone, w.store.backends - HeldBy(w, gone)))
  }

  /** The services among `ids` whose registered options differ from the store's. */
  function Changed(w: View, ss: map<string, ServiceSpec>, ids: set<string>): set<string>
    requires ids <= ss.Keys
  {
    set v | v in ids && v in w.services && !SameService(w.services[v].spec, ss[v])
  }

  /** The services of `ids` made to match the store: changed ones rebuilt and
      rewritten in normal form, missing ones created. */
  function WithServices(env: Env, w: View, ss: map<string, ServiceSpec>, ids: set<string>): View
    requires ids <= ss.Keys
  {
    var orphans := HeldBy(w, Changed(w, ss, ids));
    View(RegisteredServices(env, w, ss, ids),
         w.backends - orphans,
         Kv(StoredServices(env, w, ss, ids), w.store.backends - orphans))
  }

  function RegisteredServices(env: Env, w: View, ss: map<string, ServiceSpec>, ids: set<string>): map<string, ServiceOptions>
    requires ids <= ss.Keys
  {
    map v | v in w.services.Keys + ids :: if v in ids then FilledService(env, ss[v]) else w.services[v]
  }

  predicate Rewritten(w: View, ss: map<string, ServiceSpec>, v: string)
    requires v in ss
  {
    if v in w.services then !SameService(w.services[v].spec, ss[v]) else v !in w.store.services
  }

  function StoredServices(env: Env, w: View, ss: map<string, ServiceSpec>, ids: set<string>): map<string, ServiceSpec>
    requires ids <= ss.Keys
  {
    var written := set v | v in ids && Rewritten(w, ss, v);
    map v | v in w.store.services.Keys + written ::
      if v in written then FilledService(env, ss[v]).spec else w.store.services[v]
  }

  function WithoutBackends(w: View, gone: set<string>): View {
    w.(backends := w.backends - gone, store := w.store.(backends := w.store.backends - gone))
  }

  /** The backends of `ids` made to match the store. */
  function WithBackends(env: Env, w: View, sb: map<string, BackendSpec>, ids: set<string>): View
    requires ids <= sb.Keys
  {
    w.(backends := HeldBackends(env, w, sb, ids),
       store := w.store.(backends := StoredBackends(env, w, sb, ids)))
  }

  predicate Made(w: View, sb: map<string, BackendSpec>, rs: string)
    requires rs in sb
  {
    rs !in w.backends || !SameBackend(w.backends[rs].options.spec, sb[rs])
  }

  function HeldBackends(env: Env, w: View, sb: map<string, BackendSpec>, ids: set<string>): map<string, Held>
    requires ids <= sb.Keys
  {
    map rs | rs in w.backends.Keys + ids ::
      if rs in ids && Made(w, sb, rs) then Held(sb[rs].vsid, FilledBackend(env, sb[rs])) else w.backends[rs]
  }

  /** A backend that was live left the store with its old object. */
  function Stored(w: View, sb: map<string, BackendSpec>, ids: set<string>): set<string>
    requires ids <= sb.Keys
  {
    set rs | rs in ids && Made(w, sb, rs) && (rs in w.backends || rs !in w.store.backends)
  }

  function StoredBackends(env: Env, w: View, sb: map<string, BackendSpec>, ids: set<string>): map<string, BackendSpec>
    requires ids <= sb.Keys
  {
    var written := Stored(w, sb, ids);
    map rs | rs in w.store.backends.Keys + written ::
      if rs in written then FilledBackend(env, sb[rs]).spec else w.store.backends[rs]
  }

  /** The four loops of Synchronize, in closed form. */
  function Reconciled(env: Env, w: View, ss: map<string, ServiceSpec>, sb: map<string, BackendSpec>): View {
    var w1 := WithoutServices(w, w.services.Keys - ss.Keys);
    var w2 := WithServices(env, w1, ss, ss.Keys);
    var w3 := WithoutBackends(w2, w2.backends.Keys - sb.Keys);
    WithBackends(env, w3, sb, sb.Keys)
  }

  /** One Store.Sync: the store is read and then synchronised with. */
  function Round(env: Env, w: View): View {
    Reconciled(env, w, w.store.services, w.store.backends)
  }

  /** Dropping or rebuilding ids in two goes is doing it all at once. */
  lemma WithoutServicesTwice(w: View, a: set<string>, b: set<string>)
    ensures WithoutServices(WithoutServices(w, a), b) == WithoutServices(w, a + b)
  {
    var u := WithoutServices(w, a);
    assert HeldBy(w, a) + HeldBy(u, b) == HeldBy(w, a + b);
    assert (w.services - a) - b == w.services - (a + b);
    assert (w.backends - HeldBy(w, a)) - HeldBy(u, b) == w.backends - HeldBy(w, a + b);
  }

  lemma WithoutBackendsTwice(w: View, a: set<string>, b: set<string>)
    ensures WithoutBackends(WithoutBackends(w, a), b) == WithoutBackends(w, a + b)
  {
    assert (w.backends - a) - b == w.backends - (a + b);
    assert (w.store.backends - a) - b == w.store.backends - (a + b);
  }

  lemma WithServicesTwice(env: Env, w: View, ss: map<string, ServiceSpec>, a: set<string>, b: set<string>)
    requires a + b <= ss.Keys && a !! b
    ensures WithServices(env, WithServices(env, w, ss, a), ss, b) == WithServices(env, w, ss, a + b)
  {
    var u := WithServices(env, w, ss, a);
    RegisteredTwice(env, w, u, ss, a, b);
    StoredTwice(env, w, u, ss, a, b);
    HeldTwice(w, u, ss, a, b);
    MinusTwice(w.backends, HeldBy(w, Changed(w, ss, a)), HeldBy(u, Changed(u, ss, b)));
    MinusTwice(w.store.backends, HeldBy(w, Changed(w, ss, a)), HeldBy(u, Changed(u, ss, b)));
  }

  lemma MinusTwice<T>(m: map<string, T>, a: set<string>, b: set<string>)
    ensures (m - a) - b == m - (a + b)
  {}

  lemma HeldTwice(w: View, u: View, ss: map<string, ServiceSpec>, a: set<string>, b: set<string>)
    requires a + b <= ss.Keys && a !! b
    requires forall v :: v !in a ==> (v in u.services <==> v in w.services)
    requires forall v :: v !in a && v in w.services ==> u.services[v] == w.services[v]
    requires u.backends == w.backends - HeldBy(w, Changed(w, ss, a))
    ensures HeldBy(w, Changed(w, ss, a)) + HeldBy(u, Changed(u, ss, b)) == HeldBy(w, Changed(w, ss, a + b))
  {
    assert Changed(u, ss, b) == Changed(w, ss, b);
    assert Changed(w, ss, a + b) == Changed(w, ss, a) + Changed(w, ss, b);
  }

  lemma RegisteredTwice(env: Env, w: View, u: View, ss: map<string, ServiceSpec>, a: set<string>, b: set<string>)
    requires a + b <= ss.Keys && a !! b
    requires u.services == RegisteredServices(env, w, ss, a)
    ensures RegisteredServices(env, u, ss, b) == RegisteredServices(env, w, ss, a + b)
  {}

  lemma StoredTwice(env: Env, w: View, u: View, ss: map<string, ServiceSpec>, a: set<string>, b: set<string>)
    requires a + b <= ss.Keys && a !! b
    requires u.services == RegisteredServices(env, w, ss, a)
    requires u.store.services == StoredServices(env, w, ss, a)
    ensures StoredServices(env, u, ss, b) == StoredServices(env, w, ss, a + b)
  {
    assert forall v :: v in b ==> Rewritten(u, ss, v) == Rewritten(w, ss, v);
  }

  lemma WithBackendsTwice(env: Env, w: View, sb: map<string, BackendSpec>, a: set<string>, b: set<string>)
    requires a + b <= sb.Keys && a !! b
    ensures WithBackends(env, WithBackends(env, w, sb, a), sb, b) == WithBackends(env, w, sb, a + b)
  {
    var u := WithBackends(env, w, sb, a);
    HeldBackendsTwice(env, w, u, sb, a, b);
    StoredBackendsTwice(env, w, u, sb, a, b);
  }

  lemma HeldBackendsTwice(env: Env, w: View, u: View, sb: map<string, BackendSpec>, a: set<string>, b: set<string>)
    requires a + b <= sb.Keys && a !! b
    requires u.backends == HeldBackends(env, w, sb, a)
    ensures HeldBackends(env, u, sb, b) == HeldBackends(env, w, sb, a + b)
  {
    assert forall rs :: rs in b ==> Made(u, sb, rs) == Made(w, sb, rs);
  }

  lemma StoredBackendsTwice(env: Env, w: View, u: View, sb: map<string, BackendSpec>, a: set<string>, b: set<string>)
    requires a + b <= sb.Keys && a !! b
    requires u.backends == HeldBackends(env, w, sb, a)
    requires u.store.backends == StoredBackends(env, w, sb, a)
    ensures StoredBackends(env, u, sb, b) == StoredBackends(env, w, sb, a + b)
  {
    assert Stored(u, sb, b) == Stored(w, sb, b);
    assert Stored(w, sb, a + b) == Stored(w, sb, a) + Stored(w, sb, b);
  }
}
