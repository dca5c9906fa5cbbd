/** Service and backend options: defaults, validation and the comparison the
    store synchronisation rests on (core/options.go). */
module Options {
  import opened Basics
  import opened Text
  import opened Net
  import opened PulseOptions
  import opened IpvsTable

  /** The world the options are read in: a fixed name resolver, the context's
      default endpoint, and the drivers' own validation of a monitor target. */
  datatype Env = Env(
    resolve: string -> Option<Ip>,
    endpoint: Option<Ip>,
    driver: (string, Address, uint16) -> bool)

  /** The exported fields of ServiceOptions: what requests and the store carry. */
  datatype ServiceSpec = ServiceSpec(
    host: string, port: uint16, protocol: string, sched: string, flags: string, persistent: bool)

  datatype ServiceOptions = ServiceOptions(spec: ServiceSpec, ip: Ip)

  /** strings.Split(flags, "|"), or no flags at all. */
  function FlagList(flags: string): seq<string> {
    if flags == "" then [] else Split(flags, '|')
  }

  function FillService(env: Env, o: ServiceOptions): (r: (ServiceOptions, Outcome))
    ensures r.1 != Err(Panic)
  {
    var s := o.spec;
    if s.port == 0 || (s.host == "" && env.endpoint.None?) then (o, Err(ErrMissingEndpoint))
    else if s.host != "" && env.resolve(s.host).None? then (o, Err(ErrResolve))
    else
      var ip := if s.host != "" then env.resolve(s.host).value else env.endpoint.value;
      var protocol := Lower(if s.protocol == "" then "tcp" else s.protocol);
      var known := ServiceOptions(s.(protocol := protocol), ip);
      if !ValidProtocol(protocol) then (known, Err(ErrUnknownProtocol))
      else if exists f :: f in FlagList(s.flags) && !ValidFlag(f) then (known, Err(ErrUnknownFlag))
      else (known.(spec := known.spec.(sched := if s.sched == "" then "wrr" else s.sched)), Ok)
  }

  /** ServiceOptions.CompareStoreOptions, which looks at every exported field. */
  predicate SameService(a: ServiceSpec, b: ServiceSpec) {
    && a.host == b.host && a.port == b.port && a.protocol == b.protocol
    && a.flags == b.flags && a.sched == b.sched && a.persistent == b.persistent
  }

  datatype BackendSpec = BackendSpec(
    host: string, port: uint16, weight: uint32, fwd: string, pulse: Option<PulseSpec>, vsid: string)

  datatype BackendOptions = BackendOptions(spec: BackendSpec, ip: Ip)

  function FillBackend(env: Env, o: BackendOptions): (r: (BackendOptions, Outcome))
    ensures r.1 != Err(Panic)
  {
    var s := o.spec;
    if s.host == "" || s.port == 0 then (o, Err(ErrMissingEndpoint))
    else match env.resolve(s.host)
      case None => (o, Err(ErrResolve))
      case Some(ip) =>
        var fwd := Lower(if s.fwd == "" then "nat" else s.fwd);
        var known := BackendOptions(s.(weight := if s.weight == 0 then 100 else s.weight, fwd := fwd), ip);
        if !ValidForwarding(fwd) then (known, Err(ErrUnknownMethod))
        else if s.pulse.None? then (known.(spec := known.spec.(pulse := Some(PulseSpec("", "")))), Ok)
        else (known, Ok)
  }

  /** BackendOptions.CompareStoreOptions: weight, pulse and service are not
      looked at. */
  predicate SameBackend(a: BackendSpec, b: BackendSpec) {
    a.host == b.host && a.port == b.port && a.fwd == b.fwd
  }

  /** Fill followed by pulse.New, as createBackend runs them. */
  function PrepareBackend(env: Env, o: BackendOptions): (r: (BackendOptions, Outcome))
    ensures r.1 != Err(Panic)
  {
    var (filled, outcome) := FillBackend(env, o);
    if outcome.Err? then (filled, outcome)
    else
      var checked := ValidatePulse(filled.spec.pulse.value, 0);
      var done := filled.(spec := filled.spec.(pulse := Some(checked.spec)));
      if checked.outcome.Err? then (done, checked.outcome)
      else if !env.driver(checked.spec.kind, ShowIp(done.ip), done.spec.port) then (done, Err(ErrPulseDriver))
      else (done, Ok)
  }

  /** A name the options can be resolved to, with the endpoint standing in for
      a service's missing host. */
  function ServiceIp(env: Env, host: string): Option<Ip> {
    if host == "" then env.endpoint else env.resolve(host)
  }

  /** The flags are the parts between the bars; no text means no flags. */
  lemma FlagListExactly(flags: string)
    ensures flags == "" ==> FlagList(flags) == []
    ensures flags != "" ==>
              FlagList(flags) != [] && Join(FlagList(flags), '|') == flags && forall f :: f in FlagList(flags) ==> '|' !in f
  {
    JoinSplit(flags, '|');
  }

  predicate KnownFlag(flag: string) {
    flag in {"sh-fallback", "sh-port", "flag-1", "flag-2", "flag-3"}
  }

  predicate KnownProtocol(protocol: string) {
    protocol == "" || Lower(protocol) in {"tcp", "udp"}
  }

  /** Which service options are accepted, which error each of the others gets,
      and what an accepted one ends up as: TCP and weighted round robin by
      default. */
  lemma FillServiceMeaning(env: Env, o: ServiceOptions)
    ensures var (f, outcome) := FillService(env, o);
            var flagged := exists flag :: flag in FlagList(o.spec.flags) && !KnownFlag(flag);
            && (outcome == Err(ErrMissingEndpoint) <==> o.spec.port == 0 || (o.spec.host == "" && env.endpoint.None?))
            && (outcome == Err(ErrResolve) <==> o.spec.port > 0 && o.spec.host != "" && env.resolve(o.spec.host).None?)
            && (outcome == Err(ErrUnknownProtocol) <==>
                o.spec.port > 0 && ServiceIp(env, o.spec.host).Some? && !KnownProtocol(o.spec.protocol))
            && (outcome == Err(ErrUnknownFlag) <==>
                o.spec.port > 0 && ServiceIp(env, o.spec.host).Some? && KnownProtocol(o.spec.protocol) && flagged)
            && (outcome.Ok? <==>
                o.spec.port > 0 && ServiceIp(env, o.spec.host).Some? && KnownProtocol(o.spec.protocol) && !flagged)
            && (outcome.Ok? ==>
                && Some(f.ip) == ServiceIp(env, o.spec.host)
                && f.spec == o.spec.(
                     protocol := if o.spec.protocol == "" then "tcp" else Lower(o.spec.protocol),
                     sched := if o.spec.sched == "" then "wrr" else o.spec.sched))
  {
    assert Lower("tcp") == "tcp";
    forall flag ensures ValidFlag(flag) <==> KnownFlag(flag) {
      NamedFlags(flag);
    }
  }

  predicate KnownMethod(fwd: string) {
    fwd == "" || Lower(fwd) in {"dr", "nat", "tunnel", "ipip"}
  }

  /** The method a backend's options stand for. */
  function MethodOf(fwd: string): string {
    if fwd == "" then "nat" else Lower(fwd)
  }

  /** The options a missing pulse stands for. */
  function PulseOf(o: BackendOptions): PulseSpec {
    if o.spec.pulse.None? then PulseSpec("", "") else o.spec.pulse.value
  }

  predicate KnownTarget(env: Env, o: BackendOptions) {
    o.spec.host != "" && o.spec.port > 0 && env.resolve(o.spec.host).Some?
  }

  /** The driver of the pulse's kind takes the resolved target. */
  predicate DriverTakes(env: Env, o: BackendOptions)
    requires KnownTarget(env, o)
  {
    env.driver(if PulseOf(o).kind == "" then "tcp" else Lower(PulseOf(o).kind),
               ShowIp(env.resolve(o.spec.host).value), o.spec.port)
  }

  /** BackendOptions.Fill: weight 100 and NAT forwarding by default. */
  lemma FillBackendMeaning(env: Env, o: BackendOptions)
    ensures var (f, outcome) := FillBackend(env, o);
            && (outcome.Ok? <==> KnownTarget(env, o) && KnownMethod(o.spec.fwd))
            && (outcome == Err(ErrMissingEndpoint) <==> o.spec.host == "" || o.spec.port == 0)
            && (outcome == Err(ErrResolve) <==> o.spec.host != "" && o.spec.port > 0 && env.resolve(o.spec.host).None?)
            && (outcome == Err(ErrUnknownMethod) <==> KnownTarget(env, o) && !KnownMethod(o.spec.fwd))
            && (outcome.Ok? ==>
                && Some(f.ip) == env.resolve(o.spec.host)
                && f.spec == o.spec.(
                     weight := if o.spec.weight == 0 then 100 else o.spec.weight,
                     fwd := MethodOf(o.spec.fwd), pulse := Some(PulseOf(o))))
  {
    assert Lower("nat") == "nat";
    ForwardingExactly(MethodOf(o.spec.fwd));
  }

  /** The same with the pulse validation that follows, a TCP pulse every minute
      by default. The errors are about the endpoint, then the method, then the
      pulse, then what the driver says. */
  lemma PrepareBackendMeaning(env: Env, o: BackendOptions)
    ensures var (f, outcome) := PrepareBackend(env, o);
            var checked := ValidatePulse(PulseOf(o), 0).outcome;
            && (outcome.Ok? ==>
                && Some(f.ip) == env.resolve(o.spec.host)
                && f.spec == o.spec.(
                     weight := if o.spec.weight == 0 then 100 else o.spec.weight,
                     fwd := MethodOf(o.spec.fwd),
                     pulse := Some(PulseSpec(if PulseOf(o).kind == "" then "tcp" else Lower(PulseOf(o).kind),
                                             if PulseOf(o).interval == "" then "1m" else PulseOf(o).interval))))
            && (outcome.Ok? <==> KnownTarget(env, o) && KnownMethod(o.spec.fwd) && checked.Ok? && DriverTakes(env, o))
            && (outcome.Err? ==>
                outcome == if !KnownTarget(env, o) || !KnownMethod(o.spec.fwd) then FillBackend(env, o).1
                           else if checked.Err? then checked else Err(ErrPulseDriver))
  {
    FillBackendMeaning(env, o);
    ValidateFills(PulseOf(o), 0);
  }

  /** What a filled service promises: valid fields, and filling again changes
      nothing. The raw host stays, so the store's copy resolves alike. */
  lemma FillServiceNormalises(env: Env, o: ServiceOptions, ip: Ip)
    requires FillService(env, o).1.Ok?
    ensures var f := FillService(env, o).0;
            && f.spec.port == o.spec.port != 0 && f.spec.host == o.spec.host
            && ValidProtocol(f.spec.protocol) && f.spec.sched != ""
            && (forall flag :: flag in FlagList(f.spec.flags) ==> ValidFlag(flag))
    ensures FillService(env, ServiceOptions(FillService(env, o).0.spec, ip)) == FillService(env, o)
  {
    LowerIdempotent(if o.spec.protocol == "" then "tcp" else o.spec.protocol);
  }

  lemma FillBackendNormalises(env: Env, o: BackendOptions, pulse: PulseSpec, ip: Ip)
    requires FillBackend(env, o).1.Ok?
    ensures var f := FillBackend(env, o).0;
            && f.spec.host == o.spec.host && f.spec.port == o.spec.port != 0 && f.spec.vsid == o.spec.vsid
            && f.spec.weight > 0 && ValidForwarding(f.spec.fwd) && f.spec.pulse.Some?
            && var g := f.(spec := f.spec.(pulse := Some(pulse)));
               FillBackend(env, BackendOptions(g.spec, ip)) == (g, Ok)
  {
    LowerIdempotent(if o.spec.fwd == "" then "nat" else o.spec.fwd);
  }

  lemma PrepareBackendNormalises(env: Env, o: BackendOptions, ip: Ip)
    requires PrepareBackend(env, o).1.Ok?
    ensures var f := PrepareBackend(env, o).0;
            && f.spec.host == o.spec.host && f.spec.port == o.spec.port != 0 && f.spec.vsid == o.spec.vsid
            && f.spec.weight > 0 && ValidForwarding(f.spec.fwd)
            && PrepareBackend(env, BackendOptions(f.spec, ip)) == (f, Ok)
  {
    var (filled, _) := FillBackend(env, o);
    var pulse := filled.spec.pulse.value;
    ValidateIdempotent(pulse, 0, 0);
    FillBackendNormalises(env, o, ValidatePulse(pulse, 0).spec, ip);
  }
}
