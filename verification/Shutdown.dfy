/** Runs in which every view stays in step, and what Context.Close leaves
    behind (core/context.go). */
module Shutdown {
  import opened Basics
  import opened Options
  import opened Model
  import opened Effects
  import opened Invariants
  import opened Runs

  /** The service id a backend was created under. */
  function Owner(st: State, rs: string): string
    requires rs in st.backends && st.backends[rs].monitor < |st.monitors|
  {
    st.monitors[st.backends[rs].monitor].vsID
  }

  predicate OwnedBackend(st: State, rs: string) {
    && rs in st.backends
    && st.backends[rs].monitor < |st.monitors|
    && Owner(st, rs) in st.services
    && st.services[Owner(st, rs)].ref == st.backends[rs].service.ref
  }

  /** No backend holds a stale service pointer. */
  predicate Owned(st: State) {
    forall rs :: rs in st.backends ==> OwnedBackend(st, rs)
  }

  /** All four views agree and nothing has gone wrong. */
  ghost predicate InStep(env: Env, st: State) {
    Sound(env, st) && Refined(st) && Owned(st) && Unwedged(st) && !st.crashed
  }

  /** Services are updated only while they have no backends, and the kernel
      deletes what it is asked to delete. */
  predicate Calm(st: State, op: Op) {
    && (op.OpUpdateService? && op.vsID in st.services ==> Orphans(st, st.services[op.vsID]) == {})
    && (op.OpRemoveService? || op.OpRemoveBackend? ==> op.io.up)
  }

  lemma OwnedMeansNoAlias(env: Env, st: State, v: string)
    requires Sound(env, st) && Owned(st) && v in st.services
    ensures NoAlias(st, v)
  {
    forall rs | rs in st.backends && BackKey(st, rs) == Key(st, v)
      ensures st.backends[rs].service.ref == st.services[v].ref
    {
      assert OwnedBackend(st, rs);
      assert Key(st, Owner(st, rs)) == Key(st, v);
    }
  }

  lemma RefinedDeletesDest(env: Env, st: State, op: Op)
    requires Sound(env, st) && Refined(st) && op.OpRemoveBackend? && op.io.up
    ensures !FailsToDelete(st, op)
  {
    if op.rsID in st.backends {
      assert Placed(st, op.rsID);
    }
  }

  lemma OwnedKept(env: Env, st: State, e: Effect)
    requires Enabled(env, st, e) && Identities(st) && Owned(st)
    requires !e.ServiceForgotten?
    requires e.ServiceGone? ==> e.cleaned == Orphans(st, st.services[e.vsID])
    requires e.NewOptions? ==> Orphans(st, st.services[e.vsID]) == {}
    ensures Owned(Change(env, st, e))
  {
    forall rs | rs in Change(env, st, e).backends
      ensures OwnedBackend(Change(env, st, e), rs)
    {
      OwnedAfter(env, st, e, rs);
    }
  }

  lemma OwnedAfter(env: Env, st: State, e: Effect, rs: string)
    requires Enabled(env, st, e) && Identities(st) && (rs in st.backends ==> OwnedBackend(st, rs))
    requires !e.ServiceForgotten?
    requires e.ServiceGone? ==> e.cleaned == Orphans(st, st.services[e.vsID])
    requires e.NewOptions? ==> Orphans(st, st.services[e.vsID]) == {}
    requires rs in Change(env, st, e).backends
    ensures OwnedBackend(Change(env, st, e), rs)
  {
    if rs in st.backends && e.NewOptions? {
      assert rs !in Orphans(st, st.services[e.vsID]);
    }
  }

  lemma CalmKeepsInStep(env: Env, st: State, op: Op)
    requires InStep(env, st) && Calm(st, op)
    ensures InStep(env, Apply(env, st, op).0)
  {
    CalmIsClean(env, st, op);
    CleanKeepsRefined(env, st, op);
    if op.OpRemoveBackend? {
      RefinedDeletesDest(env, st, op);
    }
    UnwedgedKept(env, st, op);
    CalmKeepsOwned(env, st, op);
  }

  lemma CalmIsClean(env: Env, st: State, op: Op)
    requires InStep(env, st) && Calm(st, op)
    ensures CleanRemoval(st, op)
  {
    if op.OpRemoveService? && op.vsID in st.services {
      OwnedMeansNoAlias(env, st, op.vsID);
      UnwedgedMeansClean(st, op);
    }
  }

  lemma CalmKeepsOwned(env: Env, st: State, op: Op)
    requires InStep(env, st) && Calm(st, op)
    ensures Sound(env, Apply(env, st, op).0) && Owned(Apply(env, st, op).0)
  {
    var e := SoundKept(env, st, op);
    if e.ServiceForgotten? || e.ServiceGone? {
      UnwedgedMeansClean(st, op);
      RemovalSucceeds(env, st, op);
    }
    OwnedKept(env, st, e);
    OwnedIgnoresStore(Change(env, st, e), Apply(env, st, op).0);
  }

  lemma UnwedgedMeansClean(st: State, op: Op)
    requires Unwedged(st) && op.OpRemoveService? && op.vsID in st.services
    ensures MonitorsOf(st, Orphans(st, st.services[op.vsID])) !! st.stopped
  {}

  lemma OwnedIgnoresStore(a: State, b: State)
    requires Alike(a, b) && Owned(a)
    ensures Owned(b)
  {
    forall rs | rs in b.backends ensures OwnedBackend(b, rs) { assert OwnedBackend(a, rs); }
  }

  /** Starting empty, every calm run keeps the kernel table equal to the
      projection of the context's maps, every pointer fresh, every monitor of
      a registered backend running, and the process alive. */
  lemma {:induction false} CalmRunsStayInStep(env: Env, ops: seq<Op>, n: nat)
    requires n <= |ops| && forall i :: 0 <= i < n ==> Calm(At(env, ops, i), ops[i])
    ensures InStep(env, At(env, ops, n))
  {
    if n == 0 {
      EmptyIsSound(env);
    } else {
      CalmRunsStayInStep(env, ops, n - 1);
      AtStep(env, ops, n - 1);
      CalmKeepsInStep(env, At(env, ops, n - 1), ops[n - 1]);
    }
  }

  /** Close removes the registered services in the order the map yields them.
      It runs outside a request, where a panic is the end. */
  function Close(env: Env, st: State, order: seq<string>, io: string -> Io): State {
    if order == [] then st
    else Forgotten(Close(env, st, order[..|order| - 1], io), order[|order| - 1], io)
  }

  function Forgotten(st: State, id: string, io: string -> Io): State {
    if st.crashed then st else Fatal(RemoveService(st, id, io(id)))
  }

  lemma CloseOne(env: Env, st: State, order: seq<string>, id: string, io: string -> Io)
    ensures Close(env, st, order + [id], io) == Forgotten(Close(env, st, order, io), id, io)
  {
    assert (order + [id])[..|order|] == order;
  }

  /** The same answers, where the clean-up that panics, if one does, came to
      these backends first. */
  function Reaching(io: string -> Io, reached: set<string>): string -> Io {
    id => io(id).(reached := reached)
  }

  lemma RemovalReaching(st: State, vsID: string, io: Io, reached: set<string>)
    requires RemoveService(st, vsID, io).1 != Err(Panic)
    ensures RemoveService(st, vsID, io.(reached := reached)) == RemoveService(st, vsID, io)
  {}

  lemma {:induction false} CloseReaching(env: Env, st: State, order: seq<string>, io: string -> Io, reached: set<string>)
    requires !Close(env, st, order, Reaching(io, {})).crashed
    ensures Close(env, st, order, Reaching(io, reached)) == Close(env, st, order, Reaching(io, {}))
  {
    if order != [] {
      var n := |order| - 1;
      CloseReaching(env, st, order[..n], io, reached);
      RemovalReaching(Close(env, st, order[..n], Reaching(io, {})), order[n], Reaching(io, {})(order[n]), reached);
    }
  }

  /** Whatever the kernel answers, Close forgets every service it visits, or
      the process has died on a stop channel closed twice. */
  lemma {:induction false} CloseForgets(env: Env, st: State, order: seq<string>, io: string -> Io)
    ensures var end := Close(env, st, order, io);
            && (forall v :: v in end.services ==> v in st.services && (v !in order || end.crashed))
            && (forall k :: k in end.kernel ==> k in st.kernel)
  {
    if order != [] {
      var n := |order| - 1;
      CloseForgets(env, st, order[..n], io);
      assert order == order[..n] + [order[n]];
    }
  }

  /** It does not die where no monitor of a registered backend was stopped. */
  lemma {:induction false} CloseSurvives(env: Env, st: State, order: seq<string>, io: string -> Io)
    requires Sound(env, st) && Unwedged(st) && !st.crashed
    ensures var end := Close(env, st, order, io);
            Sound(env, end) && Unwedged(end) && !end.crashed
  {
    if order != [] {
      var n := |order| - 1;
      CloseSurvives(env, st, order[..n], io);
      var mid, op := Close(env, st, order[..n], io), OpRemoveService(order[n], io(order[n]));
      var _ := SoundKept(env, mid, op);
      UnwedgedKept(env, mid, op);
    }
  }

  lemma {:induction false} CloseStaysInStep(env: Env, st: State, order: seq<string>, io: string -> Io)
    requires InStep(env, st) && forall v :: v in order ==> io(v).up
    ensures InStep(env, Close(env, st, order, io))
  {
    if order != [] {
      var n := |order| - 1;
      CloseStaysInStep(env, st, order[..n], io);
      var mid, op := Close(env, st, order[..n], io), OpRemoveService(order[n], io(order[n]));
      CalmKeepsInStep(env, mid, op);
      UnwedgedKept(env, mid, op);
    }
  }

  /** From a state in step, with a kernel that deletes what it is told to,
      Close leaves no service, no backend and an empty kernel table, in
      whatever order the map yields the services. */
  lemma CloseDrains(env: Env, st: State, order: seq<string>, io: string -> Io)
    requires InStep(env, st)
    requires forall v :: v in st.services ==> v in order
    requires forall v :: v in order ==> io(v).up
    ensures var end := Close(env, st, order, io);
            end.services == map[] && end.backends == map[] && end.kernel == map[] && !end.crashed
  {
    CloseStaysInStep(env, st, order, io);
    CloseForgets(env, st, order, io);
    assert Close(env, st, order, io).services == map[];
    NothingLeft(env, Close(env, st, order, io));
  }

  lemma NothingLeft(env: Env, st: State)
    requires InStep(env, st) && st.services == map[]
    ensures st.backends == map[] && st.kernel == map[]
  {
    assert forall v, k :: !IsAt(st, v, k);
    assert forall k :: k !in st.kernel;
    forall rs ensures rs !in st.backends {
      assert rs in st.backends ==> OwnedBackend(st, rs);
    }
  }
}
