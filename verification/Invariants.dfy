/** What every run of context operations keeps, and how far the kernel table
    agrees with the context's two maps (core/context.go). */
module Invariants {
  import opened Basics
  import opened Net
  import opened Options
  import opened IpvsTable
  import opened Model
  import opened Effects

  /** Object identities: registered services have distinct lineages, a pointer
      equal to a registered service is that service, monitors are not shared. */
  ghost predicate Identities(st: State) {
    ServicesDistinct(st) && MonitorsDistinct(st) && PointersCurrent(st)
  }

  ghost predicate ServicesDistinct(st: State) {
    && (forall v :: v in st.services ==> st.services[v].ref < st.nextRef && st.services[v].root < st.nextRef)
    && (forall v, w :: v in st.services && w in st.services && v != w ==>
          st.services[v].ref != st.services[w].ref && st.services[v].root != st.services[w].root)
  }

  ghost predicate MonitorsDistinct(st: State) {
    && (forall rs :: rs in st.backends ==>
          && st.backends[rs].service.ref < st.nextRef && st.backends[rs].service.root < st.nextRef
          && st.backends[rs].monitor < |st.monitors|)
    && (forall rs, qs :: rs in st.backends && qs in st.backends && rs != qs ==>
          st.backends[rs].monitor != st.backends[qs].monitor)
  }

  ghost predicate PointersCurrent(st: State) {
    forall v, rs :: v in st.services && rs in st.backends && st.services[v].ref == st.backends[rs].service.ref ==>
      st.services[v] == st.backends[rs].service
  }

  /** A backend's service pointer may be stale, but it carries the address of
      the service registered in its place, and the backend's address family. */
  ghost predicate Lineage(st: State) {
    && (forall v, rs :: v in st.services && rs in st.backends && st.services[v].root == st.backends[rs].service.root ==>
          KeyOf(st.services[v].options) == KeyOf(st.backends[rs].service.options))
    && (forall rs :: rs in st.backends ==>
          AddrFamily(st.backends[rs].options.ip) == AddrFamily(st.backends[rs].service.options.ip))
  }

  /** Registered options are filled and valid. */
  ghost predicate Normal(env: Env, st: State) {
    && (forall v :: v in st.services ==> NormalService(env, st.services[v].options))
    && (forall rs :: rs in st.backends ==>
          && NormalBackend(env, st.backends[rs].options)
          && ValidProtocol(st.backends[rs].service.options.spec.protocol))
  }

  predicate Describes(v: Virtual, o: ServiceOptions) {
    v.scheduler == o.spec.sched && v.flags == FlagBits(FlagList(o.spec.flags))
  }

  /** Every registered service is in the kernel under its own address. */
  ghost predicate ServicesInKernel(st: State) {
    && (forall v :: v in st.services ==>
          && KeyOf(st.services[v].options) in st.kernel
          && Describes(st.kernel[KeyOf(st.services[v].options)], st.services[v].options))
    && (forall v, w :: v in st.services && w in st.services && v != w ==>
          KeyOf(st.services[v].options) != KeyOf(st.services[w].options))
  }

  predicate Backs(b: Backend, k: ServiceKey, d: DestKey, dest: Dest) {
    && KeyOf(b.service.options) == k && DestOf(b.options) == d
    && dest.weight == b.options.spec.weight && Some(dest.forwarding) == ForwardingOf(b.options.spec.fwd)
  }

  /** Every kernel destination is some backend's, with its weight and method. */
  ghost predicate DestsMatched(st: State) {
    forall k, d :: HasDest(st.kernel, k, d) ==>
      exists rs :: rs in st.backends && Backs(st.backends[rs], k, d, st.kernel[k].dests[d])
  }

  predicate IsAt(st: State, v: string, k: ServiceKey) {
    v in st.services && KeyOf(st.services[v].options) == k
  }

  /** Every kernel service is registered. */
  ghost predicate NoStrayService(st: State) {
    forall k :: k in st.kernel ==> exists v :: IsAt(st, v, k)
  }

  /** The backend's destination is in the kernel with its weight and method. */
  predicate Placed(st: State, rs: string)
    requires rs in st.backends
  {
    && HasDest(st.kernel, BackKey(st, rs), BackDest(st, rs))
    && Backs(st.backends[rs], BackKey(st, rs), BackDest(st, rs), st.kernel[BackKey(st, rs)].dests[BackDest(st, rs)])
  }

  predicate Apart(st: State, rs: string, qs: string)
    requires rs in st.backends && qs in st.backends
  {
    BackKey(st, rs) != BackKey(st, qs) || BackDest(st, rs) != BackDest(st, qs)
  }

  /** Every backend is in the kernel, each under a destination of its own. */
  ghost predicate BackendsInKernel(st: State) {
    && (forall rs :: rs in st.backends ==> Placed(st, rs))
    && (forall rs, qs :: rs in st.backends && qs in st.backends && rs != qs ==> Apart(st, rs, qs))
  }

  lemma IdentitiesKept(env: Env, st: State, e: Effect)
    requires Enabled(env, st, e) && Identities(st)
    ensures Identities(Change(env, st, e))
  {
    if e.NewBackend? {
      IdentitiesOfNewBackend(env, st, e);
    } else if e.NewService? {
      IdentitiesOfNewService(env, st, e);
    } else if e.NewOptions? {
      IdentitiesOfNewOptions(env, st, e);
    }
  }

  lemma IdentitiesOfNewBackend(env: Env, st: State, e: Effect)
    requires e.NewBackend? && Enabled(env, st, e) && Identities(st)
    ensures Identities(Change(env, st, e))
  {}

  lemma IdentitiesOfNewService(env: Env, st: State, e: Effect)
    requires e.NewService? && Enabled(env, st, e) && Identities(st)
    ensures Identities(Change(env, st, e))
  {
    NewServiceDistinct(env, st, e);
    NewServicePointers(env, st, e);
  }

  lemma NewServiceDistinct(env: Env, st: State, e: Effect)
    requires e.NewService? && Enabled(env, st, e) && ServicesDistinct(st)
    ensures ServicesDistinct(Change(env, st, e))
  {}

  lemma NewServicePointers(env: Env, st: State, e: Effect)
    requires e.NewService? && Enabled(env, st, e) && MonitorsDistinct(st) && PointersCurrent(st)
    ensures MonitorsDistinct(Change(env, st, e)) && PointersCurrent(Change(env, st, e))
  {}

  lemma IdentitiesOfNewOptions(env: Env, st: State, e: Effect)
    requires e.NewOptions? && Enabled(env, st, e) && Identities(st)
    ensures Identities(Change(env, st, e))
  {}

  lemma LineageKept(env: Env, st: State, e: Effect)
    requires Enabled(env, st, e) && Identities(st) && Lineage(st)
    ensures Lineage(Change(env, st, e))
  {}

  lemma NormalKept(env: Env, st: State, e: Effect)
    requires Enabled(env, st, e) && Normal(env, st)
    ensures Normal(env, Change(env, st, e))
  {
    forall v | v in Change(env, st, e).services ensures NormalService(env, Change(env, st, e).services[v].options) {
      NormalServiceKept(env, st, e, v);
    }
    forall rs | rs in Change(env, st, e).backends
      ensures NormalBackend(env, Change(env, st, e).backends[rs].options)
      ensures ValidProtocol(Change(env, st, e).backends[rs].service.options.spec.protocol)
    {
      NormalBackendKept(env, st, e, rs);
    }
  }

  lemma NormalServiceKept(env: Env, st: State, e: Effect, v: string)
    requires Enabled(env, st, e) && Normal(env, st) && v in Change(env, st, e).services
    ensures NormalService(env, Change(env, st, e).services[v].options)
  {}

  lemma NormalBackendKept(env: Env, st: State, e: Effect, rs: string)
    requires Enabled(env, st, e) && Normal(env, st) && rs in Change(env, st, e).backends
    ensures NormalBackend(env, Change(env, st, e).backends[rs].options)
    ensures ValidProtocol(Change(env, st, e).backends[rs].service.options.spec.protocol)
  {
    if e.NewBackend? && rs == e.rsID {
      NormalProtocol(env, st.services[e.vsID].options);
    }
  }

  lemma NormalProtocol(env: Env, o: ServiceOptions)
    requires NormalService(env, o)
    ensures ValidProtocol(o.spec.protocol)
  {
    FillServiceNormalises(env, ServiceOptions(o.spec, []), []);
  }

  lemma ServicesInKernelKept(env: Env, st: State, e: Effect)
    requires Enabled(env, st, e) && ServicesInKernel(st)
    ensures ServicesInKernel(Change(env, st, e))
  {
    if e.NewService? {
      ServicesInKernelOfNewService(env, st, e);
    } else if e.NewOptions? {
      ServicesInKernelOfNewOptions(env, st, e);
    } else {
      ServicesInKernelElsewhere(env, st, e);
    }
  }

  lemma ServicesInKernelOfNewService(env: Env, st: State, e: Effect)
    requires e.NewService? && Enabled(env, st, e) && ServicesInKernel(st)
    ensures ServicesInKernel(Change(env, st, e))
  {}

  lemma ServicesInKernelOfNewOptions(env: Env, st: State, e: Effect)
    requires e.NewOptions? && Enabled(env, st, e) && ServicesInKernel(st)
    ensures ServicesInKernel(Change(env, st, e))
  {}

  lemma ServicesInKernelElsewhere(env: Env, st: State, e: Effect)
    requires !e.NewService? && !e.NewOptions? && Enabled(env, st, e) && ServicesInKernel(st)
    ensures ServicesInKernel(Change(env, st, e))
  {}

  lemma DestsMatchedKept(env: Env, st: State, e: Effect)
    requires Enabled(env, st, e) && Identities(st) && DestsMatched(st)
    ensures DestsMatched(Change(env, st, e))
  {
    var after := Change(env, st, e);
    forall k, d | HasDest(after.kernel, k, d)
      ensures exists rs :: rs in after.backends && Backs(after.backends[rs], k, d, after.kernel[k].dests[d])
    {
      var _ := DestOwner(env, st, e, k, d);
    }
  }

  /** The destination an effect writes, if it writes one. */
  predicate Writes(st: State, e: Effect, k: ServiceKey, d: DestKey) {
    || (e.NewBackend? && e.vsID in st.services && k == Key(st, e.vsID) && d == DestOf(e.backend))
    || (e.NewWeight? && e.rsID in st.backends && k == BackKey(st, e.rsID) && d == BackDest(st, e.rsID))
  }

  lemma DestOwner(env: Env, st: State, e: Effect, k: ServiceKey, d: DestKey) returns (rs: string)
    requires Enabled(env, st, e) && Identities(st) && DestsMatched(st)
    requires HasDest(Change(env, st, e).kernel, k, d)
    ensures var after := Change(env, st, e);
            rs in after.backends && Backs(after.backends[rs], k, d, after.kernel[k].dests[d])
  {
    if Writes(st, e, k, d) {
      rs := e.rsID;
    } else {
      OldDest(env, st, e, k, d);
      rs :| rs in st.backends && Backs(st.backends[rs], k, d, st.kernel[k].dests[d]);
      OwnerStays(env, st, e, k, d, rs);
    }
  }

  lemma OldDest(env: Env, st: State, e: Effect, k: ServiceKey, d: DestKey)
    requires Enabled(env, st, e) && !Writes(st, e, k, d)
    ensures HasDest(Change(env, st, e).kernel, k, d) ==>
              HasDest(st.kernel, k, d) && Change(env, st, e).kernel[k].dests[d] == st.kernel[k].dests[d]
  {}

  lemma OwnerStays(env: Env, st: State, e: Effect, k: ServiceKey, d: DestKey, rs: string)
    requires Enabled(env, st, e) && Identities(st) && !Writes(st, e, k, d)
    requires HasDest(Change(env, st, e).kernel, k, d)
    requires rs in st.backends && BackKey(st, rs) == k && BackDest(st, rs) == d
    ensures var after := Change(env, st, e);
            && rs in after.backends && after.backends[rs].service == st.backends[rs].service
            && after.backends[rs].options == st.backends[rs].options
  {}

  lemma NoStrayServiceKept(env: Env, st: State, e: Effect)
    requires Enabled(env, st, e) && !e.ServiceForgotten? && NoStrayService(st)
    ensures NoStrayService(Change(env, st, e))
  {
    var after := Change(env, st, e);
    forall k | k in after.kernel
      ensures exists v :: IsAt(after, v, k)
    {
      if e.NewService? && k == KeyOf(e.service) {
        assert IsAt(after, e.vsID, k);
      } else {
        var v :| IsAt(st, v, k);
        assert IsAt(after, v, k);
      }
    }
  }

  /** No backend sits at the service's address without being cleaned up with
      it, that is, through a stale pointer. */
  ghost predicate NoAlias(st: State, v: string)
    requires v in st.services
  {
    forall rs :: rs in st.backends && BackKey(st, rs) == Key(st, v) ==>
      st.backends[rs].service.ref == st.services[v].ref
  }

  /** A removal that cleans up every backend at the service's address. */
  predicate CleansAddress(st: State, e: Effect) {
    e.ServiceGone? && e.vsID in st.services ==>
      forall rs :: rs in st.backends && BackKey(st, rs) == Key(st, e.vsID) ==> rs in e.cleaned
  }

  lemma BackendsInKernelKept(env: Env, st: State, e: Effect)
    requires Enabled(env, st, e) && Identities(st) && BackendsInKernel(st) && CleansAddress(st, e)
    ensures BackendsInKernel(Change(env, st, e))
  {
    var after := Change(env, st, e);
    forall rs | rs in after.backends
      ensures Placed(after, rs)
    {
      PlacedAfter(env, st, e, rs);
    }
    forall rs, qs | rs in after.backends && qs in after.backends && rs != qs
      ensures Apart(after, rs, qs)
    {
      ApartAfter(env, st, e, rs, qs);
    }
  }

  lemma PlacedAfter(env: Env, st: State, e: Effect, rs: string)
    requires Enabled(env, st, e) && Identities(st) && BackendsInKernel(st) && CleansAddress(st, e)
    requires rs in Change(env, st, e).backends
    ensures Placed(Change(env, st, e), rs)
  {
    if (e.NewBackend? || e.NewWeight?) && rs == e.rsID {
      PlacedWhenWritten(env, st, e);
    } else {
      assert Placed(st, rs);
      var k, d := BackKey(st, rs), BackDest(st, rs);
      assert e.BackendGone? || e.NewWeight? ==> Apart(st, rs, e.rsID);
      if e.NewBackend? { assert !Writes(st, e, k, d); }
      DestStays(env, st, e, k, d);
      BackendStays(env, st, e, rs);
    }
  }

  lemma PlacedWhenWritten(env: Env, st: State, e: Effect)
    requires Enabled(env, st, e) && (e.NewBackend? || e.NewWeight?)
    ensures Placed(Change(env, st, e), e.rsID)
  {}

  /** The destinations an effect erases. */
  predicate Erases(st: State, e: Effect, k: ServiceKey, d: DestKey) {
    || (e.ServiceGone? && e.vsID in st.services && k == Key(st, e.vsID))
    || (e.BackendGone? && e.rsID in st.backends && k == BackKey(st, e.rsID) && d == BackDest(st, e.rsID))
  }

  lemma DestStays(env: Env, st: State, e: Effect, k: ServiceKey, d: DestKey)
    requires Enabled(env, st, e) && HasDest(st.kernel, k, d)
    requires !Writes(st, e, k, d) && !Erases(st, e, k, d)
    ensures HasDest(Change(env, st, e).kernel, k, d) && Change(env, st, e).kernel[k].dests[d] == st.kernel[k].dests[d]
  {}

  lemma BackendStays(env: Env, st: State, e: Effect, rs: string)
    requires Enabled(env, st, e) && rs in st.backends && rs in Change(env, st, e).backends
    requires e.NewWeight? ==> rs != e.rsID
    ensures var b := Change(env, st, e).backends[rs];
            b.service == st.backends[rs].service && b.options == st.backends[rs].options
  {}

  lemma ApartAfter(env: Env, st: State, e: Effect, rs: string, qs: string)
    requires Enabled(env, st, e) && BackendsInKernel(st)
    requires rs in Change(env, st, e).backends && qs in Change(env, st, e).backends && rs != qs
    ensures Apart(Change(env, st, e), rs, qs)
  {
    if rs in st.backends && qs in st.backends {
      assert Apart(st, rs, qs);
    } else if rs in st.backends {
      assert Placed(st, rs);
    } else if qs in st.backends {
      assert Placed(st, qs);
    }
  }
}
