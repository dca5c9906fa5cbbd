/** Theorems about whole runs of context operations, for every kernel, store
    and resolver behaviour (core/context.go). */
module Runs {
  import opened Basics
  import opened Net
  import opened Options
  import opened IpvsTable
  import opened Model
  import opened Effects
  import opened Invariants

  /** Stop channels belong to monitors that were started. */
  predicate StoppedKnown(st: State) {
    forall m :: m in st.stopped ==> m < |st.monitors|
  }

  lemma RunLast(env: Env, st: State, ops: seq<Op>, op: Op)
    ensures Run(env, st, ops + [op]) == Apply(env, Run(env, st, ops), op).0
  {
    assert (ops + [op])[..|ops|] == ops;
  }

  lemma {:induction false} RunAppend(env: Env, st: State, a: seq<Op>, b: seq<Op>)
    ensures Run(env, st, a + b) == Run(env, Run(env, st, a), b)
  {
    if b == [] {
      assert a + b == a;
    } else {
      var n := |b| - 1;
      RunAppend(env, st, a, b[..n]);
      SameLast(env, st, a + b[..n], Run(env, st, a), b[..n], b[n]);
      LastOff(a, b);
    }
  }

  lemma SameLast(env: Env, st: State, ops: seq<Op>, st2: State, ops2: seq<Op>, op: Op)
    requires Run(env, st, ops) == Run(env, st2, ops2)
    ensures Run(env, st, ops + [op]) == Run(env, st2, ops2 + [op])
  {
    RunLast(env, st, ops, op);
    RunLast(env, st2, ops2, op);
  }

  /** What holds after every run, failures and stale pointers included. */
  ghost predicate Sound(env: Env, st: State) {
    && Identities(st) && Lineage(st) && Normal(env, st)
    && ServicesInKernel(st) && DestsMatched(st) && StoppedKnown(st)
  }

  lemma SoundKept(env: Env, st: State, op: Op) returns (e: Effect)
    requires Sound(env, st)
    ensures Sound(env, Apply(env, st, op).0)
    ensures Enabled(env, st, e) && Alike(Apply(env, st, op).0, Change(env, st, e)) && Caused(st, op, e)
  {
    e := EffectOf(env, st, op);
    IdentitiesKept(env, st, e);
    LineageKept(env, st, e);
    NormalKept(env, st, e);
    ServicesInKernelKept(env, st, e);
    DestsMatchedKept(env, st, e);
    StoppedKnownKept(env, st, e);
    SoundIgnoresStore(env, Change(env, st, e), Apply(env, st, op).0);
  }

  lemma StoppedKnownKept(env: Env, st: State, e: Effect)
    requires Enabled(env, st, e) && Identities(st) && StoppedKnown(st)
    ensures StoppedKnown(Change(env, st, e))
  {}

  lemma SoundIgnoresStore(env: Env, a: State, b: State)
    requires Alike(a, b) && Sound(env, a)
    ensures Sound(env, b)
  {
    IdentitiesIgnoreStore(a, b);
    KernelIgnoresStore(a, b);
  }

  lemma IdentitiesIgnoreStore(a: State, b: State)
    requires Alike(a, b) && Identities(a)
    ensures Identities(b)
  {}

  lemma KernelIgnoresStore(a: State, b: State)
    requires Alike(a, b) && ServicesInKernel(a) && DestsMatched(a)
    ensures ServicesInKernel(b) && DestsMatched(b)
  {}

  lemma StraysIgnoreStore(a: State, b: State)
    requires Alike(a, b) && NoStrayService(a)
    ensures NoStrayService(b)
  {
    forall k | k in b.kernel
      ensures exists v :: IsAt(b, v, k)
    {
      var v :| IsAt(a, v, k);
      assert IsAt(b, v, k);
    }
  }

  lemma PlacesIgnoreStore(a: State, b: State)
    requires Alike(a, b) && BackendsInKernel(a)
    ensures BackendsInKernel(b)
  {
    assert forall rs :: rs in b.backends ==> Placed(a, rs) ==> Placed(b, rs);
    assert forall rs, qs :: rs in b.backends && qs in b.backends && Apart(a, rs, qs) ==> Apart(b, rs, qs);
  }

  lemma EmptyIsSound(env: Env)
    ensures Sound(env, EMPTY) && Refined(EMPTY)
  {}

  /** On every run whatsoever: registered services are in the kernel with their
      scheduler and flags at distinct addresses, every kernel destination is
      matched by a backend, and stale pointers still carry the right address. */
  lemma {:induction false} AlwaysSound(env: Env, ops: seq<Op>)
    ensures Sound(env, Run(env, EMPTY, ops))
  {
    if ops == [] {
      EmptyIsSound(env);
    } else {
      AlwaysSound(env, ops[..|ops| - 1]);
      var _ := SoundKept(env, Run(env, EMPTY, ops[..|ops| - 1]), ops[|ops| - 1]);
    }
  }

  /** The kernel table is the projection of the context's two maps. */
  ghost predicate Refined(st: State) {
    NoStrayService(st) && BackendsInKernel(st)
  }

  /** The same registered options under the same ids and addresses. */
  ghost predicate SameShape(a: State, b: State) {
    && a.services.Keys == b.services.Keys && a.backends.Keys == b.backends.Keys
    && (forall v :: v in a.services ==> a.services[v].options == b.services[v].options)
    && (forall rs :: rs in a.backends ==>
          a.backends[rs].options == b.backends[rs].options && BackKey(a, rs) == BackKey(b, rs))
  }

  /** Together with soundness that determines the table. */
  lemma TableDetermined(a: State, b: State)
    requires ServicesInKernel(a) && DestsMatched(a) && Refined(a)
    requires ServicesInKernel(b) && DestsMatched(b) && Refined(b)
    requires SameShape(a, b)
    ensures a.kernel == b.kernel
  {
    ShapeIsSymmetric(a, b);
    KeysWithin(b, a);
    VirtualsWithin(a, b);
    SubmapsAreEqual(a.kernel, b.kernel);
  }

  lemma VirtualsWithin(a: State, b: State)
    requires ServicesInKernel(a) && DestsMatched(a) && Refined(a)
    requires ServicesInKernel(b) && DestsMatched(b) && Refined(b)
    requires SameShape(a, b) && SameShape(b, a)
    ensures forall k :: k in a.kernel ==> k in b.kernel && b.kernel[k] == a.kernel[k]
  {
    KeysWithin(a, b);
    forall k | k in a.kernel
      ensures k in b.kernel && b.kernel[k] == a.kernel[k]
    {
      SameVirtual(a, b, k);
    }
  }

  lemma ShapeIsSymmetric(a: State, b: State)
    requires SameShape(a, b)
    ensures SameShape(b, a)
  {}

  lemma SameVirtual(a: State, b: State, k: ServiceKey)
    requires ServicesInKernel(a) && DestsMatched(a) && Refined(a)
    requires ServicesInKernel(b) && DestsMatched(b) && Refined(b)
    requires SameShape(a, b) && SameShape(b, a) && k in a.kernel && k in b.kernel
    ensures a.kernel[k] == b.kernel[k]
  {
    SameDests(a, b, k);
    SameScheduler(a, b, k);
  }

  lemma KeysWithin(a: State, b: State)
    requires NoStrayService(a) && ServicesInKernel(b) && SameShape(a, b)
    ensures a.kernel.Keys <= b.kernel.Keys
  {
    forall k | k in a.kernel
      ensures k in b.kernel
    {
      var v :| IsAt(a, v, k);
    }
  }

  lemma SameScheduler(a: State, b: State, k: ServiceKey)
    requires ServicesInKernel(a) && ServicesInKernel(b) && NoStrayService(a) && SameShape(a, b)
    requires k in a.kernel && k in b.kernel
    ensures a.kernel[k].scheduler == b.kernel[k].scheduler && a.kernel[k].flags == b.kernel[k].flags
  {
    var v :| IsAt(a, v, k);
    assert Describes(a.kernel[k], a.services[v].options) && Describes(b.kernel[k], b.services[v].options);
  }

  lemma SameDests(a: State, b: State, k: ServiceKey)
    requires DestsMatched(a) && BackendsInKernel(a) && DestsMatched(b) && BackendsInKernel(b)
    requires SameShape(a, b) && SameShape(b, a) && k in a.kernel && k in b.kernel
    ensures a.kernel[k].dests == b.kernel[k].dests
  {
    DestsWithin(a, b, k);
    DestsWithin(b, a, k);
    SubmapsAreEqual(a.kernel[k].dests, b.kernel[k].dests);
  }

  lemma SubmapsAreEqual<K, V>(x: map<K, V>, y: map<K, V>)
    requires forall d :: d in x ==> d in y && y[d] == x[d]
    requires forall d :: d in y ==> d in x
    ensures x == y
  {}

  lemma DestsWithin(a: State, b: State, k: ServiceKey)
    requires DestsMatched(a) && BackendsInKernel(b) && SameShape(a, b) && k in a.kernel && k in b.kernel
    ensures forall d :: d in a.kernel[k].dests ==>
              d in b.kernel[k].dests && b.kernel[k].dests[d] == a.kernel[k].dests[d]
  {
    forall d | d in a.kernel[k].dests
      ensures d in b.kernel[k].dests && b.kernel[k].dests[d] == a.kernel[k].dests[d]
    {
      DestWithin(a, b, k, d);
    }
  }

  lemma DestWithin(a: State, b: State, k: ServiceKey, d: DestKey)
    requires DestsMatched(a) && BackendsInKernel(b) && SameShape(a, b) && HasDest(a.kernel, k, d)
    ensures HasDest(b.kernel, k, d) && b.kernel[k].dests[d] == a.kernel[k].dests[d]
  {
    var rs :| rs in a.backends && Backs(a.backends[rs], k, d, a.kernel[k].dests[d]);
    assert Placed(b, rs);
  }

  /** A removal that keeps context and kernel in step: the kernel answers, no
      stale pointer aliases the service's address, and no monitor about to be
      stopped has been stopped before. The last two can be looked up before the
      call. */
  ghost predicate CleanRemoval(st: State, op: Op) {
    op.OpRemoveService? && op.vsID in st.services ==>
      && op.io.up && NoAlias(st, op.vsID)
      && MonitorsOf(st, Orphans(st, st.services[op.vsID])) !! st.stopped
  }

  lemma RemovalSucceeds(env: Env, st: State, op: Op)
    requires Sound(env, st) && op.OpRemoveService? && op.vsID in st.services
    ensures RemoveService(st, op.vsID, op.io).1 ==
            if !op.io.up then Err(ErrIpvsSyscallFailed)
            else if MonitorsOf(st, Orphans(st, st.services[op.vsID])) !! st.stopped then Ok
            else Err(Panic)
  {
    FillServiceNormalises(env, ServiceOptions(st.services[op.vsID].options.spec, []), []);
  }

  lemma CleanKeepsRefined(env: Env, st: State, op: Op)
    requires Sound(env, st) && Refined(st) && CleanRemoval(st, op)
    ensures Refined(Apply(env, st, op).0)
  {
    var e := SoundKept(env, st, op);
    if e.ServiceForgotten? || e.ServiceGone? {
      RemovalSucceeds(env, st, op);
    }
    NoStrayServiceKept(env, st, e);
    BackendsInKernelKept(env, st, e);
    StraysIgnoreStore(Change(env, st, e), Apply(env, st, op).0);
    PlacesIgnoreStore(Change(env, st, e), Apply(env, st, op).0);
  }

  lemma UncleanBreaksRefined(env: Env, st: State, op: Op)
    requires Sound(env, st) && !CleanRemoval(st, op)
    ensures !Refined(Apply(env, st, op).0)
  {
    if op.io.up {
      AliasBreaksRefined(env, st, op);
    } else {
      FailureBreaksRefined(env, st, op);
    }
  }

  lemma FailureBreaksRefined(env: Env, st: State, op: Op)
    requires Sound(env, st) && !CleanRemoval(st, op) && !op.io.up
    ensures !NoStrayService(Apply(env, st, op).0)
  {
    RemovalSucceeds(env, st, op);
    var k := Key(st, op.vsID);
    var after := Apply(env, st, op).0;
    assert k in after.kernel && forall v :: !IsAt(after, v, k);
  }

  lemma AliasBreaksRefined(env: Env, st: State, op: Op)
    requires Sound(env, st) && !CleanRemoval(st, op) && op.io.up
    ensures !BackendsInKernel(Apply(env, st, op).0)
  {
    RemovalSucceeds(env, st, op);
    var rs := Survivor(env, st, op);
    assert !Placed(Apply(env, st, op).0, rs);
  }

  lemma Survivor(env: Env, st: State, op: Op) returns (rs: string)
    requires Sound(env, st) && !CleanRemoval(st, op) && op.io.up
    ensures var after := Apply(env, st, op).0;
            rs in after.backends && BackKey(after, rs) == Key(st, op.vsID) && Key(st, op.vsID) !in after.kernel
  {
    RemovalSucceeds(env, st, op);
    var orphans := Orphans(st, st.services[op.vsID]);
    assert CleanedUp(st, orphans, op.io.reached) <= orphans;
    if MonitorsOf(st, orphans) !! st.stopped {
      rs :| rs in st.backends && BackKey(st, rs) == Key(st, op.vsID) && rs !in orphans;
    } else {
      var m :| m in MonitorsOf(st, orphans) && m in st.stopped;
      rs :| rs in orphans && st.backends[rs].monitor == m;
    }
  }

  /** The state after the first n operations. */
  function At(env: Env, ops: seq<Op>, n: nat): State
    requires n <= |ops|
  {
    Run(env, EMPTY, ops[..n])
  }

  lemma AtStep(env: Env, ops: seq<Op>, n: nat)
    requires n < |ops|
    ensures At(env, ops, n + 1) == Apply(env, At(env, ops, n), ops[n]).0
    ensures Sound(env, At(env, ops, n))
  {
    assert ops[..n + 1][..n] == ops[..n];
    AlwaysSound(env, ops[..n]);
  }

  /** Two-sided refinement over whole runs, exactly: the kernel table is the
      projection of the context's maps at every point of a run if and only if
      every service removal of the run was clean. */
  lemma RefinementOfRuns(env: Env, ops: seq<Op>)
    ensures (forall n :: 0 <= n <= |ops| ==> Refined(At(env, ops, n)))
            <==> (forall n :: 0 <= n < |ops| ==> CleanRemoval(At(env, ops, n), ops[n]))
  {
    if forall n :: 0 <= n <= |ops| ==> Refined(At(env, ops, n)) {
      forall n | 0 <= n < |ops| ensures CleanRemoval(At(env, ops, n), ops[n]) {
        assert Refined(At(env, ops, n + 1));
        RefinedOnlyIfClean(env, ops, n);
      }
    }
    if forall n :: 0 <= n < |ops| ==> CleanRemoval(At(env, ops, n), ops[n]) {
      forall n | 0 <= n <= |ops| ensures Refined(At(env, ops, n)) {
        CleanRunRefined(env, ops, n);
      }
    }
  }

  lemma RefinedOnlyIfClean(env: Env, ops: seq<Op>, n: nat)
    requires n < |ops|
    ensures Refined(At(env, ops, n + 1)) ==> CleanRemoval(At(env, ops, n), ops[n])
  {
    AtStep(env, ops, n);
    if !CleanRemoval(At(env, ops, n), ops[n]) {
      UncleanBreaksRefined(env, At(env, ops, n), ops[n]);
    }
  }

  lemma {:induction false} CleanRunRefined(env: Env, ops: seq<Op>, n: nat)
    requires n <= |ops| && forall i :: 0 <= i < |ops| ==> CleanRemoval(At(env, ops, i), ops[i])
    ensures Refined(At(env, ops, n))
  {
    if n == 0 {
      EmptyIsSound(env);
    } else {
      CleanRunRefined(env, ops, n - 1);
      RefinedIfClean(env, ops, n - 1);
    }
  }

  lemma RefinedIfClean(env: Env, ops: seq<Op>, n: nat)
    requires n < |ops| && Refined(At(env, ops, n)) && CleanRemoval(At(env, ops, n), ops[n])
    ensures Refined(At(env, ops, n + 1))
  {
    AtStep(env, ops, n);
    CleanKeepsRefined(env, At(env, ops, n), ops[n]);
  }

  /** The kernel does not refuse to delete a registered service. */
  predicate DeletesService(st: State, op: Op) {
    op.OpRemoveService? && op.vsID in st.services ==> op.io.up
  }

  /** Service-level refinement, UpdateService included: the kernel's service
      keys are exactly the registered ones throughout a run if and only if no
      DelService of the run failed. */
  lemma ServiceKeysOfRuns(env: Env, ops: seq<Op>)
    ensures (forall n :: 0 <= n <= |ops| ==> NoStrayService(At(env, ops, n)))
            <==> (forall n :: 0 <= n < |ops| ==> DeletesService(At(env, ops, n), ops[n]))
  {
    if forall n :: 0 <= n <= |ops| ==> NoStrayService(At(env, ops, n)) {
      forall n | 0 <= n < |ops| ensures DeletesService(At(env, ops, n), ops[n]) {
        assert NoStrayService(At(env, ops, n + 1));
        NoStrayOnlyIfDeleted(env, ops, n);
      }
    }
    if forall n :: 0 <= n < |ops| ==> DeletesService(At(env, ops, n), ops[n]) {
      forall n | 0 <= n <= |ops| ensures NoStrayService(At(env, ops, n)) {
        NoStrayAt(env, ops, n);
      }
    }
  }

  lemma NoStrayOnlyIfDeleted(env: Env, ops: seq<Op>, n: nat)
    requires n < |ops|
    ensures NoStrayService(At(env, ops, n + 1)) ==> DeletesService(At(env, ops, n), ops[n])
  {
    AtStep(env, ops, n);
    if !DeletesService(At(env, ops, n), ops[n]) {
      FailureBreaksRefined(env, At(env, ops, n), ops[n]);
    }
  }

  lemma {:induction false} NoStrayAt(env: Env, ops: seq<Op>, n: nat)
    requires n <= |ops| && forall i :: 0 <= i < |ops| ==> DeletesService(At(env, ops, i), ops[i])
    ensures NoStrayService(At(env, ops, n))
  {
    if n > 0 {
      NoStrayAt(env, ops, n - 1);
      NoStrayIfDeleted(env, ops, n - 1);
    }
  }

  lemma NoStrayIfDeleted(env: Env, ops: seq<Op>, n: nat)
    requires n < |ops| && NoStrayService(At(env, ops, n)) && DeletesService(At(env, ops, n), ops[n])
    ensures NoStrayService(At(env, ops, n + 1))
  {
    AtStep(env, ops, n);
    DeletingKeepsNoStray(env, At(env, ops, n), ops[n]);
  }

  lemma DeletingKeepsNoStray(env: Env, st: State, op: Op)
    requires Sound(env, st) && NoStrayService(st) && DeletesService(st, op)
    ensures NoStrayService(Apply(env, st, op).0)
  {
    var e := SoundKept(env, st, op);
    if e.ServiceForgotten? {
      RemovalSucceeds(env, st, op);
    }
    NoStrayServiceKept(env, st, e);
    StraysIgnoreStore(Change(env, st, e), Apply(env, st, op).0);
  }

  /** No registered backend's monitor has been stopped. */
  predicate Unwedged(st: State) {
    forall rs :: rs in st.backends ==> st.backends[rs].monitor !in st.stopped
  }

  lemma UnwedgedKept(env: Env, st: State, op: Op)
    requires Sound(env, st) && Unwedged(st)
    ensures Apply(env, st, op).1 != Err(Panic)
    ensures Unwedged(Apply(env, st, op).0) <==> !FailsToDelete(st, op)
  {
    var e := SoundKept(env, st, op);
    NoPanic(env, st, op);
    if e.MonitorStopped? {
      assert op.rsID in Apply(env, st, op).0.backends;
    } else {
      UnwedgedEffect(env, st, e);
    }
  }

  lemma NoPanic(env: Env, st: State, op: Op)
    requires Unwedged(st)
    ensures Apply(env, st, op).1 != Err(Panic)
  {}

  lemma UnwedgedEffect(env: Env, st: State, e: Effect)
    requires Enabled(env, st, e) && !e.MonitorStopped?
    requires Identities(st) && StoppedKnown(st) && Unwedged(st)
    ensures Unwedged(Change(env, st, e))
  {}

  /** Every registered backend's monitor runs throughout a run if and only if
      no DelDestPort of the run failed; and then nothing panics. */
  lemma StopsOfRuns(env: Env, ops: seq<Op>)
    ensures (forall n :: 0 <= n <= |ops| ==> Unwedged(At(env, ops, n)))
            <==> (forall n :: 0 <= n < |ops| ==> !FailsToDelete(At(env, ops, n), ops[n]))
    ensures (forall n :: 0 <= n < |ops| ==> !FailsToDelete(At(env, ops, n), ops[n])) ==>
              forall n :: 0 <= n < |ops| ==> Apply(env, At(env, ops, n), ops[n]).1 != Err(Panic)
  {
    if forall n :: 0 <= n <= |ops| ==> Unwedged(At(env, ops, n)) {
      forall n | 0 <= n < |ops| ensures !FailsToDelete(At(env, ops, n), ops[n]) {
        assert Unwedged(At(env, ops, n + 1));
        UnwedgedOnlyIfDeleted(env, ops, n);
      }
    }
    if forall n :: 0 <= n < |ops| ==> !FailsToDelete(At(env, ops, n), ops[n]) {
      forall n | 0 <= n <= |ops|
        ensures Unwedged(At(env, ops, n)) && (n < |ops| ==> Apply(env, At(env, ops, n), ops[n]).1 != Err(Panic))
      {
        UnwedgedAt(env, ops, n);
        if n < |ops| {
          NoPanic(env, At(env, ops, n), ops[n]);
        }
      }
    }
  }

  /** The backend is registered with a monitor that was stopped. */
  predicate Wedged(st: State, rs: string) {
    rs in st.backends && st.backends[rs].monitor in st.stopped
  }

  lemma FailingWedges(env: Env, st: State, op: Op)
    requires FailsToDelete(st, op)
    ensures Wedged(Apply(env, st, op).0, op.rsID)
  {}

  lemma UnwedgedOnlyIfDeleted(env: Env, ops: seq<Op>, n: nat)
    requires n < |ops|
    ensures Unwedged(At(env, ops, n + 1)) ==> !FailsToDelete(At(env, ops, n), ops[n])
  {
    AtStep(env, ops, n);
    if FailsToDelete(At(env, ops, n), ops[n]) {
      FailingWedges(env, At(env, ops, n), ops[n]);
    }
  }

  lemma {:induction false} UnwedgedAt(env: Env, ops: seq<Op>, n: nat)
    requires n <= |ops| && forall i :: 0 <= i < |ops| ==> !FailsToDelete(At(env, ops, i), ops[i])
    ensures Unwedged(At(env, ops, n))
  {
    if n > 0 {
      UnwedgedAt(env, ops, n - 1);
      UnwedgedIfDeleted(env, ops, n - 1);
    }
  }

  lemma UnwedgedIfDeleted(env: Env, ops: seq<Op>, n: nat)
    requires n < |ops| && Unwedged(At(env, ops, n)) && !FailsToDelete(At(env, ops, n), ops[n])
    ensures Unwedged(At(env, ops, n + 1))
  {
    AtStep(env, ops, n);
    UnwedgedKept(env, At(env, ops, n), ops[n]);
  }

  /** A failed DelDestPort loses the id for good: whatever is asked afterwards,
      the backend stays registered, every attempt to remove it panics, and it
      cannot be created anew. */
  lemma WedgedForever(env: Env, ops: seq<Op>, more: seq<Op>, last: Op, io: Io, v: string, o: BackendOptions)
    requires FailsToDelete(Run(env, EMPTY, ops), last)
    ensures var st := Run(env, EMPTY, ops + [last] + more);
            && last.rsID in st.backends
            && Apply(env, st, OpRemoveBackend(last.rsID, io)).1 == Err(Panic)
            && Apply(env, st, OpCreateBackend(v, last.rsID, o, io)).1.Err?
  {
    RunLast(env, EMPTY, ops, last);
    FailingWedges(env, Run(env, EMPTY, ops), last);
    WedgedAfter(env, ops + [last], more, last.rsID);
    WedgedRefuses(env, Run(env, EMPTY, ops + [last] + more), last.rsID, io, v, o);
  }

  lemma WedgedRefuses(env: Env, st: State, rs: string, io: Io, v: string, o: BackendOptions)
    requires Wedged(st, rs)
    ensures Apply(env, st, OpRemoveBackend(rs, io)).1 == Err(Panic)
    ensures Apply(env, st, OpCreateBackend(v, rs, o, io)).1.Err?
  {}

  lemma {:induction false} WedgedAfter(env: Env, ops: seq<Op>, more: seq<Op>, rs: string)
    requires Wedged(Run(env, EMPTY, ops), rs)
    ensures Wedged(Run(env, EMPTY, ops + more), rs)
  {
    if more == [] {
      assert ops + more == ops;
    } else {
      var n := |more| - 1;
      WedgedAfter(env, ops, more[..n], rs);
      WedgedOneMore(env, ops + more[..n], more[n], rs);
      LastOff(ops, more);
    }
  }

  lemma WedgedOneMore(env: Env, ops: seq<Op>, op: Op, rs: string)
    requires Wedged(Run(env, EMPTY, ops), rs)
    ensures Wedged(Run(env, EMPTY, ops + [op]), rs)
  {
    RunLast(env, EMPTY, ops, op);
    AlwaysSound(env, ops);
    StaysWedged(env, Run(env, EMPTY, ops), op, rs);
  }

  lemma StaysWedged(env: Env, st: State, op: Op, rs: string)
    requires Sound(env, st) && Wedged(st, rs)
    ensures Wedged(Apply(env, st, op).0, rs)
  {
    var e := SoundKept(env, st, op);
    WedgedByEffect(env, st, e, rs);
  }

  lemma WedgedByEffect(env: Env, st: State, e: Effect, rs: string)
    requires Enabled(env, st, e) && Identities(st) && Wedged(st, rs)
    ensures Wedged(Change(env, st, e), rs)
  {}

  /** The backend holds the service object `vs`, of whose lineage the object
      registered under v is. */
  predicate AtHome(st: State, vs: Service, v: string, rs: string) {
    && v in st.services && rs in st.backends
    && st.backends[rs].service == vs && st.services[v].root == vs.root
  }

  lemma StaysAtHome(env: Env, st: State, op: Op, vs: Service, v: string, rs: string)
    requires AtHome(st, vs, v, rs)
    requires v in Apply(env, st, op).0.services && rs in Apply(env, st, op).0.backends
    ensures AtHome(Apply(env, st, op).0, vs, v, rs)
  {
    var e := EffectOf(env, st, op);
  }

  /** The backend created by operation k is there after n operations, and so is
      its service's id; neither was ever missing in between. */
  predicate Present(env: Env, ops: seq<Op>, k: nat, n: nat) {
    && k < n <= |ops| && ops[k].OpCreateBackend? && Apply(env, At(env, ops, k), ops[k]).1.Ok?
    && forall i :: k < i <= n ==> Registered(At(env, ops, i), ops[k].vsID, ops[k].rsID)
  }

  /** A backend keeps the service pointer it was created with, however stale it
      grows; but as long as its service's id stays registered the pointer carries
      the registered host, port and protocol, and the address families agree. */
  lemma StaleButAtHome(env: Env, ops: seq<Op>, k: nat, n: nat)
    requires Present(env, ops, k, n)
    ensures var st, v, rs := At(env, ops, n), ops[k].vsID, ops[k].rsID;
            && v in st.services && rs in st.backends && v in At(env, ops, k).services
            && st.backends[rs].service == At(env, ops, k).services[v]
            && Key(st, v) == BackKey(st, rs)
            && AddrFamily(st.backends[rs].options.ip) == AddrFamily(st.services[v].options.ip)
  {
    CreatedUnder(env, At(env, ops, k), ops[k]);
    var vs := At(env, ops, k).services[ops[k].vsID];
    AtStep(env, ops, k);
    var at := (i: int) => if 0 <= i <= |ops| then At(env, ops, i) else EMPTY;
    HomeSteps(env, ops, at, vs, ops[k].vsID, ops[k].rsID);
    HomeOfRun(at, k + 1, n, vs, ops[k].vsID, ops[k].rsID);
    AlwaysSound(env, ops[..n]);
    HomeAddress(At(env, ops, n), ops[k].vsID, ops[k].rsID);
  }

  predicate Registered(st: State, v: string, rs: string) {
    v in st.services && rs in st.backends
  }

  lemma HomeNext(env: Env, ops: seq<Op>, n: nat, vs: Service, v: string, rs: string)
    requires n < |ops| && AtHome(At(env, ops, n), vs, v, rs) && Registered(At(env, ops, n + 1), v, rs)
    ensures AtHome(At(env, ops, n + 1), vs, v, rs)
  {
    AtStep(env, ops, n);
    StaysAtHome(env, At(env, ops, n), ops[n], vs, v, rs);
  }

  /** `at` gives the states of the run. */
  lemma HomeSteps(env: Env, ops: seq<Op>, at: int -> State, vs: Service, v: string, rs: string)
    requires forall i :: 0 <= i <= |ops| ==> at(i) == At(env, ops, i)
    ensures forall i :: 0 <= i < |ops| && AtHome(at(i), vs, v, rs) && Registered(at(i + 1), v, rs) ==>
              AtHome(at(i + 1), vs, v, rs)
  {
    forall i | 0 <= i < |ops| && AtHome(at(i), vs, v, rs) && Registered(at(i + 1), v, rs)
      ensures AtHome(at(i + 1), vs, v, rs)
    {
      HomeNext(env, ops, i, vs, v, rs);
    }
  }

  lemma {:induction false} HomeOfRun(at: int -> State, k: nat, n: nat, vs: Service, v: string, rs: string)
    requires k <= n && AtHome(at(k), vs, v, rs) && forall i :: k <= i <= n ==> Registered(at(i), v, rs)
    requires forall i :: k <= i < n && AtHome(at(i), vs, v, rs) && Registered(at(i + 1), v, rs) ==>
               AtHome(at(i + 1), vs, v, rs)
    ensures AtHome(at(n), vs, v, rs)
  {
    if k < n {
      HomeOfRun(at, k, n - 1, vs, v, rs);
    }
  }

  lemma CreatedUnder(env: Env, st: State, op: Op)
    requires op.OpCreateBackend? && Apply(env, st, op).1.Ok?
    ensures var after := Apply(env, st, op).0;
            && op.vsID in st.services && op.rsID in after.backends && after.services == st.services
            && after.backends[op.rsID].service == st.services[op.vsID]
  {}

  lemma HomeAddress(st: State, v: string, rs: string)
    requires Lineage(st) && v in st.services && rs in st.backends
    requires st.services[v].root == st.backends[rs].service.root
    ensures Key(st, v) == BackKey(st, rs)
    ensures AddrFamily(st.backends[rs].options.ip) == AddrFamily(st.services[v].options.ip)
  {
    ShownAddress(st.services[v].options.ip, st.backends[rs].service.options.ip);
  }
}
