/** The option objects requests are decoded into, whose missing fields Fill and
    Validate set in place (core/options.go, pulse/options.go). */
module Requests {
  import opened Basics
  import opened Text
  import opened Net
  import opened PulseOptions
  import opened IpvsTable
  import opened Options

  class ServiceRequest {
    var host: string
    var port: uint16
    var protocol: string
    var sched: string
    var flags: string
    var persistent: bool
    var ip: Ip

    constructor Decode(spec: ServiceSpec)
      ensures Options() == ServiceOptions(spec, [])
    {
      host, port, protocol := spec.host, spec.port, spec.protocol;
      sched, flags, persistent := spec.sched, spec.flags, spec.persistent;
      ip := [];
    }

    function Options(): ServiceOptions
      reads this
    {
      ServiceOptions(ServiceSpec(host, port, protocol, sched, flags, persistent), ip)
    }

    method Fill(env: Env) returns (outcome: Outcome)
      modifies this
      ensures (Options(), outcome) == FillService(env, old(Options()))
    {
      if port == 0 {
        return Err(ErrMissingEndpoint);
      }
      if host != "" {
        match env.resolve(host) {
          case Some(address) => ip := address;
          case None => return Err(ErrResolve);
        }
      } else {
        match env.endpoint {
          case Some(address) => ip := address;
          case None => return Err(ErrMissingEndpoint);
        }
      }
      if protocol == "" {
        protocol := "tcp";
      }
      protocol := Lower(protocol);
      if !ValidProtocol(protocol) {
        return Err(ErrUnknownProtocol);
      }
      var known := KnownFlags(flags);
      if !known {
        return Err(ErrUnknownFlag);
      }
      if sched == "" {
        sched := "wrr";
      }
      outcome := Ok;
    }
  }

  method KnownFlags(flags: string) returns (known: bool)
    ensures known <==> forall f :: f in FlagList(flags) ==> ValidFlag(f)
  {
    var list := FlagList(flags);
    for i := 0 to |list|
      invariant forall j :: 0 <= j < i ==> ValidFlag(list[j])
    {
      if !ValidFlag(list[i]) {
        return false;
      }
    }
    known := true;
  }

  class BackendRequest {
    var host: string
    var port: uint16
    var weight: uint32
    var fwd: string
    var pulse: PulseRequest?
    var vsid: string
    var ip: Ip

    constructor Decode(spec: BackendSpec)
      ensures Options() == BackendOptions(spec, [])
      ensures pulse != null ==> fresh(pulse)
    {
      host, port, weight, fwd, vsid := spec.host, spec.port, spec.weight, spec.fwd, spec.vsid;
      ip := [];
      if spec.pulse.Some? {
        pulse := new PulseRequest(spec.pulse.value);
      } else {
        pulse := null;
      }
    }

    function Options(): BackendOptions
      reads this, pulse
    {
      BackendOptions(BackendSpec(host, port, weight, fwd, if pulse == null then None else Some(pulse.Spec()), vsid), ip)
    }

    method Fill(env: Env) returns (outcome: Outcome)
      modifies this
      ensures (Options(), outcome) == FillBackend(env, old(Options()))
      ensures pulse == old(pulse) || fresh(pulse)
      ensures outcome.Ok? ==> pulse != null
    {
      if host == "" || port == 0 {
        return Err(ErrMissingEndpoint);
      }
      match env.resolve(host) {
        case Some(address) => ip := address;
        case None => return Err(ErrResolve);
      }
      if weight <= 0 {
        weight := 100;
      }
      if fwd == "" {
        fwd := "nat";
      }
      fwd := Lower(fwd);
      if !ValidForwarding(fwd) {
        return Err(ErrUnknownMethod);
      }
      if pulse == null {
        pulse := new PulseRequest(PulseSpec("", ""));
      }
      outcome := Ok;
    }

    /** Fill, then the validation pulse.New runs before any effect. */
    method Prepare(env: Env) returns (outcome: Outcome)
      modifies this, pulse
      ensures (Options(), outcome) == PrepareBackend(env, old(Options()))
      ensures pulse == old(pulse) || fresh(pulse)
    {
      outcome := Fill(env);
      if outcome.Err? {
        return;
      }
      ValidateIgnoresDelay(pulse.Spec(), pulse.delay);
      outcome := pulse.Validate();
      if outcome.Ok? && !env.driver(pulse.kind, ShowIp(ip), port) {
        outcome := Err(ErrPulseDriver);
      }
    }
  }

  lemma ValidateIgnoresDelay(spec: PulseSpec, delay: int)
    ensures ValidatePulse(spec, delay).spec == ValidatePulse(spec, 0).spec
    ensures ValidatePulse(spec, delay).outcome == ValidatePulse(spec, 0).outcome
  {}
}
