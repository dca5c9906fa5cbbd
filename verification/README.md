# GORB's control plane, modelled and verified

GORB (Go Routing and Balancing) is a front end to the Linux IPVS load balancer.
Its daemon holds four views of one configuration: the in-memory maps of virtual
services and backends, the kernel's IPVS table, an external key/value store, and
the stash of weights that its health checks take away and give back. This
project models how the operations change those views and proves how far the
views stay in agreement.

The project has three parts.

**The context and the kernel.** `Model` gives every operation of the context as
a function on one state value; `Context.Ctx` is the object whose methods change
its maps, the kernel handle (`Ipvs.Kernel`) and the store (`Store.KvStore`) in
place, each proved equal to its function. `Effects` reduces every operation,
with all its failure paths and the calls a panic cuts short, to one of ten
elementary changes, `Invariants` shows what each change keeps, and `Runs` and
`Shutdown` lift that to whole runs.

- On every run, with every kernel and store failure and every recovered panic
  allowed: registered
  services are in the kernel at distinct addresses with their scheduler and
  flags; every kernel destination is matched by a backend with its weight and
  forwarding method; a stale service pointer still carries the address and
  family of the service registered in its place (`Runs.AlwaysSound`).
- The kernel table is exactly the projection of the context's maps at every
  point of a run if and only if every service removal of the run was clean:
  no kernel failure, no stale pointer at the service's address, no monitor to be
  stopped twice (`Runs.RefinementOfRuns`). Similar exact conditions hold for
  stray kernel services and for registered backends whose monitor was stopped.
- `Close` forgets every service, and drains backends and kernel from a state in
  step.

**Health and weights.** `Metrics` and `Stash` prove the sliding window, the
uptime bound, the stateless meaning of the weight, exactness of the stash,
conservation of the configured weight under kernel failures, and tight monotone
recovery. `Runtime` is the concurrent machine: API calls, monitors, and a sink
that handles each message in two critical sections with the lock released in
between. `RuntimeTheorems` and `WeightTheorems` carry the laws to every
interleaving and show that the stash does not leak; `Recreation` says exactly
when a backend created under a used id keeps to the law, and `Displays` what the
context shows of a backend's metrics and a service's health.

**Synchronisation with the store.** `Sync` is `Context.Synchronize` with its four
loops in arbitrary order. Its outcome has a closed form (`Reconcile`) that does
not mention the orders, so what a user sees, the store and the kernel table do
not depend on them; two rounds settle everything and the third is a no-op on the
whole state (`SyncTheorems.ThreeRoundsConverge`), and one round suffices exactly
when what it creates anew is stored in normal form
(`Convergence.OneRoundSettlesExactly`). `Agreement` looks at the requests in
between: it says, from the state before the call, which requests set context and
store apart, so that after any run of others a synchronisation has nothing to do,
when each request succeeds, and what a request loses that comes between a
synchronisation's reading of the store and its taking the lock. `Outcomes` says
field by field what each request answers and what it leaves in maps, kernel and
store.

`Text`, `Net`, `Interval`, `PulseOptions`, `Options`, `IpvsTable` and `StoreKeys`
are the supporting pieces: option defaults and validation, interval strings,
address families, scheduler flags and store keys. `Witnesses` holds the runs that
show what the program does not keep.

## How to read the model

- A Go object whose identity matters is a value with an identity number:
  `Service.ref` is what `backend.service != vs` compares, `Backend.monitor`
  numbers the pulse goroutine. `Service.root` records which created object an
  updated service descends from; nothing in the operations reads it.
- What the outside world answers during one operation is the parameter `Io`:
  whether the store accepts the write, whether the kernel has no failure of its
  own, which store deletions go through, and how far a clean-up that panics got.
  The kernel also fails, as IPVS does, on an existing key (Add) or a missing one
  (Update, Del).
- Closing a stop channel twice panics in Go. In a request the panic is recovered
  by the HTTP server (main.go:113-125) after the deferred unlock
  (core/context.go:452-454, 495-497), so the call is an aborted one: it returns
  `Err(Panic)`, leaves what it had done, and the run goes on. Which backends a
  clean-up got through before it panicked is up to the map iteration and is part
  of `Io`. Store synchronisation and `Close` run outside any request; there a
  panic ends the process, which `crashed` records, and nothing further happens.
- A map iteration takes its keys in an order given by a sequence without
  repetition; methods pick the next key nondeterministically. Theorems hold for
  every order.
- An `OpSetStore` step may replace the store's content by anything, which covers
  attaching a store and writes by others.

## Where the code does not do what one would expect

- The repository's README says that failing backends have their weight set to
  zero. After Down, Up, Down the weight is half the configured one
  (`Stash.DownNeedNotBeZero`); the exact condition is `Stash.DownIsZeroExactly`.
- Updating a service that has backends leaves their pointers stale; removing it
  afterwards leaves them behind without a destination (`Witnesses.StaleRun`), and
  the table is no longer the projection. `Runs.RefinementOfRuns` says exactly when.
- A backend whose DelDestPort failed keeps a stopped monitor, and its id is lost
  for good: removing it panics ever after and it cannot be created anew
  (`Runs.WedgedForever`). No failure of the kernel's own is needed to get there
  (`Witnesses.StrandedPanics`), and the removal of its service panics as well
  (`Witnesses.PanicRun`).
- A backend re-created before its predecessor's monitor has sent its last message
  can be left with the predecessor's weight (`Witnesses.LeftoverRun`); the exact
  condition is `Recreation.RecreationExactly`.
- An Up can lower the weight (`Stash.UpCanLower`); exactly when is
  `Stash.UpLowersExactly`.
- Creating writes the store before it asks the kernel, and nothing is taken back
  when the kernel refuses: context and store then differ (`Witnesses.RefusedRun`).
  `Agreement.AgreementExactly` lists every such case.
- The pulse interval is checked after a 64-bit product that wraps: 5124096 hours
  pass as some 25 minutes (`PulseOptions.HoursAccepted`).
- With an empty store path, ids read back from the store start with a slash
  (`StoreKeys.GetIDOfKey`).

## Model

| member | source | states |
|---|---|---|
| Runs.AlwaysSound | core/context.go:154-491 | on every run, all failures and recovered panics allowed: services in the kernel with scheduler and flags at distinct addresses, every kernel destination matched by a backend, object identities, addresses behind stale pointers and address families intact, options in normal form |
| Runs.RefinementOfRuns | core/context.go:383-448 | the kernel table is the two-sided projection of the maps throughout a run if and only if every service removal is clean |
| Runs.TableDetermined | core/context.go:52-71 | two states in agreement with the same registered options have the same kernel table |
| Runs.ServiceKeysOfRuns | core/context.go:214-259 | the kernel's service keys are exactly the registered ones throughout a run, updates included, if and only if no DelService failed |
| Runs.StopsOfRuns | core/context.go:458-491 | every registered backend's monitor runs throughout a run if and only if no DelDestPort failed, and then no request panics |
| Runs.WedgedForever | core/context.go:458-491 | after a failed DelDestPort the backend stays registered on every continuation, every later removal of it panics and it cannot be created anew |
| Runs.StaleButAtHome | core/context.go:225-252 | a backend keeps the service object it was created with, and while its service id stays registered that object carries the registered address and the families agree |
| Effects.EffectOf | core/context.go:154-491 | every operation, on every path and wherever a panic cuts it short, changes maps and kernel by one of ten elementary changes that was possible |
| Invariants.LineageKept | core/context.go:225-252 | updating keeps the address, so stale pointers carry the registered address and the backend's family |
| Invariants.DestsMatchedKept | core/context.go:306-361 | one-sided safety: no change leaves a kernel destination without a matching backend, aliasing included |
| Invariants.BackendsInKernelKept | core/context.go:306-361 | every backend keeps a destination of its own in the kernel, unless a removal meets a stale pointer at the address |
| Shutdown.CalmRunsStayInStep | core/context.go:154-491 | on every run that updates only services without backends and whose deletions succeed: two-sided refinement, no stale pointer, no stopped monitor registered, no panic |
| Shutdown.CloseForgets | core/context.go:142-151 | for every kernel behaviour and order, Close leaves no service it visited, or the process died on a double close; kernel keys only shrink |
| Shutdown.CloseSurvives | core/context.go:142-151 | Close does not panic where no registered monitor was stopped |
| Shutdown.CloseDrains | core/context.go:142-151 | from a state in step and without DelService failure, Close empties services, backends and kernel table |
| Context.Ctx.CreateService | core/context.go:154-211 | the method changes request object, maps, kernel and store as the model function says, on every error path |
| Context.Ctx.RegisterService | core/context.go:159-203 | the part after Fill: existing id, store write before the kernel call, kernel failure |
| Context.Ctx.UpdateService | core/context.go:214-266 | update, or create when missing, with refusal of address changes |
| Context.Ctx.ReplaceService | core/context.go:225-258 | installs a fresh service object of the same lineage |
| Context.Ctx.CreateBackend | core/context.go:269-332 | fill, pulse validation, then registration |
| Context.Ctx.AttachBackend | core/context.go:278-324 | existing id, missing service, address family, store write, AddDestPort, new monitor |
| Context.Ctx.UpdateBackend | core/context.go:335-380 | new weight in kernel and options, old weight returned |
| Context.Ctx.RemoveService | core/context.go:383-455 | forgets the id before DelService may fail, then cleans up; on a panic the state is the one the clean-up had reached |
| Context.Ctx.CleanUp | core/context.go:424-440 | the loop over all backends removes those holding this object, stops their monitors and drops them from the store; it panics exactly when one of them was stopped before, having got through some of the others |
| Context.Ctx.RemoveBackend | core/context.go:458-498 | store deletion and monitor stop before DelDestPort may fail |
| Context.Ctx.GetService | core/context.go:523-553 | lists exactly the backends holding the object; health is their mean, in [0,1], and 1 exactly if all are at 1 or there are none |
| Context.Ctx.Synchronize | core/context.go:580-630 | the four loops, with every choice of orders, equal the model's, also where the process dies on the way |
| Context.Ctx.Range | core/context.go:594-629 | one range loop visits every key once while entries are deleted |
| Context.Ctx.SyncWithStore | core/store.go:103-118 | lists both maps, gives up if that fails, and synchronises with what was read |
| Context.Ctx.Close | core/context.go:142-151 | terminates with no service left unless a stop panicked |
| Reconcile.WithServicesTwice | core/context.go:599-607 | rebuilding services in two goes is rebuilding them at once |
| Reconcile.WithBackendsTwice | core/context.go:619-629 | the same for backends |
| Sync.ServiceLawsHold | core/context.go:594-607 | removing and creating a service, in a state in step, have the effect the closed form gives, and stay in step |
| Sync.BackendLawsHold | core/context.go:610-629 | the same for backends |
| SyncTheorems.LoopRule | core/context.go:594-629 | what every turn keeps for any unvisited key holds after the loop, in whatever order keys come |
| SyncTheorems.SynchronizedClosedForm | core/context.go:580-630 | for every order of the four loops the result is in step and has the closed form as its view |
| SyncTheorems.OrderIndependence | core/context.go:594-629 | two choices of orders give the same options, ownership, store and kernel table |
| SyncTheorems.SynchronizedMatchesStore | core/context.go:594-629 | exactly the store's ids; services with the filled options; backends with the entry's host, port and method (nat if none) at the resolved address; and in the kernel exactly the wanted services and destinations, with the scheduler (wrr if none), flags and forwarding the entries name |
| SyncTheorems.SettledSyncIsNoOp | core/options.go:106-126 | where everything compares equal a synchronisation leaves the whole state unchanged |
| SyncTheorems.ThreeRoundsConverge | core/store.go:103-118 | of three successive synchronisations the third changes nothing in context, kernel or store |
| SyncTheorems.SyncKeepsSound | core/context.go:580-630 | with arbitrary failures and orders, a synchronisation keeps what every run keeps |
| SyncTheorems.SyncIsRun | core/context.go:580-630 | a synchronisation, whatever fails and even if the process dies of it, takes the context where a run of removals and creations takes it |
| SyncTheorems.DeathEndsSync | core/context.go:594-629 | once a removal has panicked, the remaining loops of a synchronisation do nothing |
| Convergence.RoundOutcome | core/store.go:219-247 | one round, id by id: which objects are kept or rebuilt, and which store entries are rewritten in normal form because create does not overwrite |
| Convergence.ReadyAgain | core/context.go:580-630 | a round leaves store and context ready for the next one |
| Convergence.SecondRoundSettles | core/store.go:219-247 | after two rounds everything compares equal |
| Convergence.OneRoundSettlesExactly | core/store.go:219-247 | one round suffices if and only if every entry without a live object is in normal form |
| Agreement.AgreementExactly | core/context.go:180-488 | where the store answers, a request leaves context and store in agreement if and only if none of the listed cases holds of the state before it: a new object the kernel will not take, a differing update or a removal it is not up to, a backend stopped before or without destination |
| Agreement.AgreementInStep | core/context.go:154-491 | in step the cases can be told without the kernel table: free id, free address or destination, and whether the kernel is up |
| Agreement.EarlierReadingWins | core/store.go:103-118 | requests granted between the reading of the store and the synchronisation are undone in context and store: created objects go, removed ones come back, updates are reverted |
| Agreement.SmoothRunsNeedNoSync | core/context.go:580-630 | after any run of requests outside those cases, rejected ones included, a synchronisation in any order changes nothing |
| Agreement.CreateServiceSucceedsExactly | core/context.go:154-204 | in step, creation succeeds if and only if the options are valid, the id is free, store and kernel answer, and no registered service has the same shown IP, port and protocol |
| Agreement.CreateBackendSucceedsExactly | core/context.go:269-325 | the same for backends: registered service, both or neither address in IPv4 form (4 bytes, or 16 with the mapped prefix), and no backend of that service with the same shown IP and port |
| Outcomes.CreateServiceErrors | core/context.go:155-195 | which error each rejected creation gets, in which order of precedence, and that it changes nothing unless the kernel refused |
| Outcomes.UpdateServiceErrors | core/context.go:215-250 | an update is refused for its address if and only if shown IP, port or protocol differ; the other errors |
| Outcomes.UpdateCreates | core/context.go:219-223 | updating a service that is not there is creating it, options filled once or twice |
| Outcomes.CreateBackendErrors | core/context.go:270-317 | the errors of backend creation, incompatible families exactly when one address alone is in IPv4 form |
| Outcomes.RemovalErrors | core/context.go:335-491 | not found, kernel failure or panic, exactly when, for removals and reweighting |
| Outcomes.CreatedServiceIs | core/context.go:180-197 | where a new service is found: map, kernel entry at its IP, port and protocol, store entry kept if there was one |
| Outcomes.UpdatedServiceIs | core/context.go:235-252 | a fresh object, scheduler and flags replaced with the destinations kept, the store entry overwritten |
| Outcomes.CreatedBackendIs | core/context.go:298-322 | a new backend's options with its service's id, empty metrics, own monitor, and its kernel destination with weight and the forwarding its method names |
| Outcomes.ReweightedBackendIs | core/context.go:345-361 | the new weight in options and kernel and nowhere else |
| Outcomes.RemovedBackendIs | core/context.go:467-488 | gone from maps, kernel and store, monitor stopped |
| Outcomes.RemovedServiceIs | core/context.go:390-440 | gone with exactly the backends that held its object |
| Agreement.RemovalsSucceedExactly | core/context.go:335-491 | in step, removing and reweighting succeed if and only if the object is there and the kernel answers |
| Agreement.FreshContextIsReady | core/store.go:84-103 | an empty context attached to any valid store meets what the synchronisation theorems ask |
| Agreement.AnOrderExists | core/context.go:594-629 | every map has an iteration order, so the theorems over all orders are about something |
| Options.FillServiceMeaning | core/options.go:64-104 | which service options are accepted, which error each of the others gets, and every field of an accepted one with its default |
| Options.FillBackendMeaning | core/options.go:142-172 | the same for backends: weight 100, nat |
| Options.PrepareBackendMeaning | core/context.go:270-276 | the same with the pulse validation that follows: a tcp pulse every minute |
| Options.FlagListExactly | core/options.go:90-96 | the flags are the parts between the bars, none for an empty text |
| Options.FillServiceNormalises | core/options.go:64-104 | filling gives valid fields and is idempotent; host and port stay |
| Options.PrepareBackendNormalises | core/options.go:142-172 | the same for backends with their pulse options; the weight is positive |
| Requests.ServiceRequest.Fill | core/options.go:64-104 | fills the object in place, on every error path |
| Requests.BackendRequest.Fill | core/options.go:142-172 | the same for backends, allocating missing pulse options |
| Requests.BackendRequest.Prepare | core/context.go:270-276 | fill, then the validation pulse.New performs |
| Store.KvStore.PutService | core/store.go:219-246 | an existing key is kept unless overwriting; a failing store changes nothing |
| Store.KvStore.PutBackend | core/store.go:183-191 | creating never overwrites |
| Store.KvStore.RemoveService | core/store.go:203-209 | deletes the id, or nothing when the store fails |
| Store.KvStore.RemoveBackend | core/store.go:211-217 | the same for backends |
| StoreKeys.GetIDOfKey | core/store.go:248-254 | getID gives the id back if and only if the path is non-empty and the id has no slash |
| Metrics.SlidingWindow | pulse/metrics.go:44-57 | for every history the record is the whole of it up to 100 entries and its last 100 after that, and health is one minus their mean code |
| Metrics.HealthIsUpShare | pulse/metrics.go:53-57 | with Up and Down only, health is the share of Ups, in [0,1], and 1 exactly without a Down |
| Metrics.HealthAfterRemoved | pulse/metrics.go:53-57 | a final Removed takes health no lower than -1/len, below 0 exactly when nothing in the window was Up |
| Metrics.UptimeBounds | pulse/metrics.go:59-63 | over k Ups in a row uptime falls short of the elapsed time by less than k seconds and never exceeds it |
| Metrics.UptimeOfHistory | pulse/metrics.go:59-63 | over every history, cut at its last Ups as each can be (`EveryHistoryCut`), uptime counts from the last status other than Up, or the start, short of the time since by less than a second per Up, and is zero after any other status |
| Metrics.HealthMetrics.Update | pulse/metrics.go:44-66 | the loop over the record computes the model's update in place and returns a copy |
| Stash.ScaleByHealth | core/runtime.go:76-77 | scaling by a window's health is the exact integer quotient, never above the weight, and equal to it exactly without a Down |
| Stash.StashLaw | core/runtime.go:67-97 | the stash machine computes the stateless weight, and an entry is there exactly while the window holds a Down |
| Stash.WeightConserved | core/runtime.go:79-96 | under arbitrary kernel refusals the stashed or else the current weight is the configured one, and the current weight never exceeds it |
| Stash.RemovedForgets | core/runtime.go:49-55 | after Removed nothing is stashed and the weight is left as it was |
| Stash.RecoveryIsTight | core/runtime.go:68-85 | over k consecutive Ups after a Down the weight never falls, stays below the configured one with the entry kept for k < 100 and is restored, entry gone, for k >= 100 |
| Stash.DownIsZeroExactly | core/runtime.go:87-96 | after a Down the weight is zero exactly if the window before held no Down or the weight was zero already |
| Stash.DownNeedNotBeZero | core/runtime.go:87-90 | Down, Up, Down on weight 100 leaves weight 50 |
| Stash.UpLowersExactly | core/runtime.go:76-79 | an Up lowers the weight if and only if it follows a Down that left the weight alone and the share of Ups has sunk below it since |
| Stash.UpCanLower | core/runtime.go:76-79 | Down, Up, Up, Down, Up on weight 100 goes from 66 to 60 |
| RuntimeTheorems.ContextRuns | core/runtime.go:43-98 | every interleaving of API calls, monitors and the two-phase sink is a run of context operations |
| RuntimeTheorems.OrderlyKept | pulse/pulse.go:79-106 | a message in the sink is its monitor's latest, and Removed comes once and last |
| RuntimeTheorems.NoLeak | core/runtime.go:48-56 | on every interleaving, once each monitor started for an id has had its Removed message consumed, the stash has no entry for it |
| RuntimeTheorems.AlwaysHealthy | core/runtime.go:49-63 | every health stored in the context is in [0,1] on every interleaving |
| Displays.FirstStores | core/runtime.go:46-65 | a handled Up or Down about a registered backend is stored with it and nothing else changes; any other message only clears the stash entry of its source |
| Displays.OnlyFirstStores | core/runtime.go:58-63 | a backend starts without metrics, and only such a step changes what it shows |
| Displays.KeepsDisplaying | core/runtime.go:58-63 | on every interleaving a backend nobody touches shows what its own monitor has measured up to the last message noticed |
| Displays.CreationDisplays | core/context.go:319-322 | creation starts this once the earlier monitors of the id are over |
| Displays.HealthDisplayed | pulse/metrics.go:49-57 | the health shown is the share of Ups among the last 100 probes noticed, the status the latest |
| Displays.ServiceHealthDisplayed | core/context.go:535-550 | a service's health is the mean of these shares over its backends |
| WeightTheorems.KeepsFollowing | core/runtime.go:67-97 | a backend nobody touches by hand follows the stash machine on its own messages, whatever else interleaves |
| WeightTheorems.WeightIsConserved | core/runtime.go:67-97 | conservation of the configured weight in the running system under arbitrary kernel failures |
| WeightTheorems.WeightHasMeaning | core/runtime.go:67-97 | with every weight change accepted, the live weight is the stateless one and the stash entry exact |
| Recreation.CreationStartsCourse | core/context.go:319-322 | creation starts such a course at a positive weight once the earlier monitors of the id are over |
| Recreation.RecreationExactly | core/runtime.go:43-98 | a backend created under a used id keeps the weight its own messages call for on every undisturbed continuation if and only if every earlier monitor of the id had sent its last message |
| Witnesses.LeftoverRun | core/runtime.go:76-85 | otherwise: a run from the start that leaves a new backend at the old weight with nothing stashed |
| Witnesses.StaleRun | core/context.go:408-440 | create, create backend, update service, remove service: the backend stays without a destination though nothing failed |
| Witnesses.StrandedPanics | core/context.go:474-488 | removing such a backend fails, and removing it again panics |
| Witnesses.PanicRun | core/context.go:424-440 | a failed DelDestPort, a panicking retry and a clean-up that panics: the process goes on with a backend unknown to the kernel |
| Witnesses.RefusedRun | core/context.go:180-195 | a second service at one address is in the store but not in the context |
| Witnesses.FirstUpShows | core/runtime.go:58-63 | a new backend shows health 0, and 1 as soon as its first Up is handled, and so does its service |
| Pulse.PulseMonitor.Report | pulse/pulse.go:86-92 | one turn of the loop measures and reports, in agreement with the machine's monitor |
| Pulse.PulseMonitor.New | pulse/pulse.go:57-70 | there is a monitor if and only if the options are valid and the driver takes the target, and its interval is the validated, positive one |
| Pulse.PulseMonitor.Begin | pulse/pulse.go:82-83 | the random first wait is defined and lies in [0, interval) |
| Pulse.PulseMonitor.Loop | pulse/pulse.go:85-105 | one message per probe with the metrics so far, and Removed last and only then |
| Pulse.PulseMonitor.Stop | pulse/pulse.go:107-110 | closes the stop channel, and panics exactly on the second call |
| Pulse.PulseSink.StoreMetrics | core/runtime.go:43-65 | the first critical section, as the machine's step |
| Pulse.PulseSink.AdjustWeight | core/runtime.go:67-97 | the part after the lock is released, as the machine's step |
| Interval.ParseIntervalMeaning | util/time.go:49-58 | which strings are intervals, and that each denotes unit times saturated number, wrapped to 64 bits |
| Interval.ProductExact | util/time.go:49-58 | the product is exact if and only if the number is within the unit's bound |
| Interval.ParseRender | util/time.go:49-58 | a numeral with its unit parses back to its exact duration if and only if it is within the bound |
| Interval.ParseSigned | util/time.go:49-58 | a signed numeral of any size with its unit is the saturated number times the unit, wrapped |
| Interval.UnitsExactly | util/time.go:36-45 | the unit names and their nanoseconds |
| PulseOptions.ValidateMeaning | pulse/options.go:47-72 | validation succeeds exactly on tcp, http or none with a positive wrapped interval, which is then a positive int64; which error the others get |
| PulseOptions.ValidateIdempotent | pulse/options.go:47-72 | validating validated options changes nothing |
| PulseOptions.HoursAccepted | pulse/options.go:65-69 | written as a numeral, n hours get their true delay exactly up to 2562047, and 5124096 hours are accepted with a wrong one |
| PulseOptions.PulseRequest.Validate | pulse/options.go:47-72 | fills type, interval and delay in place |
| Net.ShownAddress | util/net.go:45-55 | two addresses print alike exactly if equal or mapped, and then their families agree |
| Net.FamilyExactly | util/net.go:42-55 | IPv4 exactly for 4 bytes, or 16 behind the mapped prefix, which are the ones shown dotted |
| IpvsTable.FlagBitsOfSameFlags | ipvs-shim/ipvs_shim.go:94-104 | the flag bits depend only on which flags are named |
| IpvsTable.FlagBitsExactly | ipvs-shim/ipvs_shim.go:94-104 | a bit is set exactly if a flag that carries it is named, and no other bit |
| IpvsTable.ForwardingExactly | ipvs-shim/ipvs_shim.go:23-28 | which methods there are and the forwarding each stands for |
| Ipvs.CreateFlagbits | ipvs-shim/ipvs_shim.go:94-104 | the loop computes the union of the known flags' bits |
| Ipvs.Kernel.AddService | ipvs-shim/ipvs_shim.go:117-127 | adds a service without destinations, or changes nothing |
| Ipvs.Kernel.UpdateService | ipvs-shim/ipvs_shim.go:129-138 | changes scheduler and flags, keeps destinations, or changes nothing |
| Ipvs.Kernel.DelService | ipvs-shim/ipvs_shim.go:140-146 | removes the service with its destinations, or changes nothing |
| Ipvs.Kernel.AddDestPort | ipvs-shim/ipvs_shim.go:159-170 | adds a destination, or changes nothing |
| Ipvs.Kernel.UpdateDestPort | ipvs-shim/ipvs_shim.go:172-183 | changes a destination's weight and method, or changes nothing |
| Ipvs.Kernel.DelDestPort | ipvs-shim/ipvs_shim.go:185-192 | removes a destination, or changes nothing |
| Text.JoinSplit | core/context.go:188-191 | splitting the flags at the bar loses nothing |
| Text.TrimExactly | util/time.go:50 | trimming takes all white space from both ends and nothing else |

## Left out

- HTTP handlers, the main program, the Docker link daemon, Consul discovery and the Prometheus exporter: plumbing around the context. Discovery errors are only logged.
- VIPs on a network interface (core/context.go:163-175, 392-402): netlink is not part of this model, and no other operation reads the flag it sets.
- The probes of pulse/tcp.go and pulse/http.go: a probe answers Up or Down arbitrarily. Their arguments, and which targets a driver rejects, are the parameter `Env.driver`.
- libipvs and the kernel: they are the table of `IpvsTable`. The values behind the flag names are Linux's. That the shim always sends the IPv4 family, and that `Persistent` never reaches the kernel, is not modelled.
- The resolver is one fixed function, so a service's name always resolves alike.
- JSON marshalling is the identity on exported fields, and an object decoded from the store is made when its turn in the loop comes. libkv and the transport are the map of `Store`; DeleteTree deletes one id, not other keys it is a prefix of.
- Health is the exact rational where the program rounds a float64; the program may come out one lower on the way (100 at health 1 - 90/100 gives 9), not on full recovery.
- Case folding, trimming and splitting work on ASCII text.
- Service and backend objects in the context's maps are values with an identity number instead of heap objects; no service object is changed after it is registered, and of a backend's options only the weight and the metrics change.
- In the concurrent machine a monitor measures and delivers in one step, and API calls are single operations; `Synchronize` there is the run of them that `SyncTheorems.SyncIsRun` gives. That a goroutine may block for ever on its last send after Close, and other liveness, is not modelled.
- Store.KvStore.RemoveService: deletes the id alone; DeleteTree's effect on keys that extend it depends on the store behind libkv, which is not part of this model.
- Store.KvStore.RemoveBackend: the same.
- Closing a context twice, which panics on its own channel, is not modelled; nor is anything after Close.
- NewContext's set-up and Store's construction and timer are not modelled.
