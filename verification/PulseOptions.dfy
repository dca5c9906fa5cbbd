/** Pulse configuration and its validation (pulse/options.go). */
module PulseOptions {
  import opened Basics
  import opened Text
  import opened Interval

  /** The exported fields; the driver arguments are not part of this model. */
  datatype PulseSpec = PulseSpec(kind: string, interval: string)

  const PULSE_KINDS: seq<string> := ["tcp", "http", "none"]

  /** What Validate leaves in the object, with the unexported interval. */
  datatype Validated = Validated(spec: PulseSpec, delay: int, outcome: Outcome)

  function ValidatePulse(o: PulseSpec, delay: int): (v: Validated)
    ensures v.outcome != Err(Panic)
  {
    var kind := Lower(if o.kind == "" then "tcp" else o.kind);
    var filled := PulseSpec(kind, if o.interval == "" then "1m" else o.interval);
    if kind !in PULSE_KINDS then Validated(filled, delay, Err(ErrUnknownPulseType))
    else match ParseInterval(filled.interval)
      case None => Validated(filled, 0, Err(ErrInvalidIntervalFormat))
      case Some(d) => Validated(filled, d, if d <= 0 then Err(ErrInvalidPulseInterval) else Ok)
  }

  /** What Validate fills in, whether or not it succeeds. */
  lemma ValidateFills(o: PulseSpec, delay: int)
    ensures ValidatePulse(o, delay).spec ==
            PulseSpec(if o.kind == "" then "tcp" else Lower(o.kind), if o.interval == "" then "1m" else o.interval)
  {
    assert Lower("tcp") == "tcp";
  }

  /** A monitor that Pulse has a driver for. */
  predicate KnownKind(kind: string) {
    kind == "" || Lower(kind) == "tcp" || Lower(kind) == "http" || Lower(kind) == "none"
  }

  lemma KindsExactly(kind: string)
    ensures KnownKind(kind) <==> Lower(if kind == "" then "tcp" else kind) in PULSE_KINDS
  {
    assert Lower("tcp") == "tcp";
  }

  /** The text has the shape of an interval and its 64-bit product is positive. */
  ghost predicate PositiveInterval(text: string) {
    exists sign, digits, unit :: Shape(TrimSpace(text), sign, digits, unit)
      && Wrap64(UnitOf(Lower(unit)).value * ParseInt32(sign, digits)) > 0
  }

  ghost predicate IsInterval(text: string) {
    exists sign, digits, unit :: Shape(TrimSpace(text), sign, digits, unit)
  }

  /** Validation succeeds exactly on a known kind with an interval whose
      64-bit product is positive; the interval is then a positive int64, which
      rand.Int63n needs. An unknown kind is found before a malformed interval,
      and that before one that is not positive. */
  lemma ValidateMeaning(o: PulseSpec, delay: int)
    ensures var outcome := ValidatePulse(o, delay).outcome;
            && (outcome.Ok? <==> KnownKind(o.kind) && (o.interval == "" || PositiveInterval(o.interval)))
            && (outcome == Err(ErrUnknownPulseType) <==> !KnownKind(o.kind))
            && (outcome == Err(ErrInvalidIntervalFormat) <==>
                KnownKind(o.kind) && o.interval != "" && !IsInterval(o.interval))
            && (outcome.Err? ==>
                  outcome.error in {ErrUnknownPulseType, ErrInvalidIntervalFormat, ErrInvalidPulseInterval})
    ensures ValidatePulse(o, delay).outcome.Ok? ==> 0 < ValidatePulse(o, delay).delay <= 0x7FFF_FFFF_FFFF_FFFF
  {
    ValidateOutcome(o, delay);
    IntervalExactly(o.interval);
  }

  lemma ValidateOutcome(o: PulseSpec, delay: int)
    ensures var v, parsed := ValidatePulse(o, delay), if o.interval == "" then Some(MINUTE) else ParseInterval(o.interval);
            && v.outcome == (if !KnownKind(o.kind) then Err(ErrUnknownPulseType)
                             else if parsed.None? then Err(ErrInvalidIntervalFormat)
                             else if parsed.value <= 0 then Err(ErrInvalidPulseInterval) else Ok)
            && (v.outcome.Ok? ==> v.delay == parsed.value <= INT64_MAX)
  {
    KindsExactly(o.kind);
    DefaultInterval();
  }

  lemma IntervalExactly(text: string)
    ensures ParseInterval(text).Some? <==> IsInterval(text)
    ensures ParseInterval(text).Some? ==> (ParseInterval(text).value > 0 <==> PositiveInterval(text))
    ensures PositiveInterval(text) ==> IsInterval(text)
  {
    ParseIntervalMeaning(text);
  }

  lemma DefaultInterval()
    ensures ParseInterval("1m") == Some(MINUTE)
  {
    assert Render(1) + "m" == "1m";
    ParseRender(1, "m");
  }

  /** Validating a validated configuration changes nothing. */
  lemma ValidateIdempotent(o: PulseSpec, d1: int, d2: int)
    requires ValidatePulse(o, d1).outcome.Ok?
    ensures ValidatePulse(ValidatePulse(o, d1).spec, d2) == ValidatePulse(o, d1)
  {
    LowerIdempotent(if o.kind == "" then "tcp" else o.kind);
    DefaultInterval();
  }

  /** The guard on the interval looks at the wrapped product only: the delay
      granted to the text of n hours is the true one exactly up to 2562047
      hours, and 5124096 hours, some 584 years, pass as 25 minutes and 26
      seconds. */
  lemma HoursAccepted(n: nat)
    requires n <= INT32_MAX
    ensures var v := ValidatePulse(PulseSpec("tcp", Render(n) + "h"), 0);
            && (v.outcome.Ok? <==> Wrap64(HOUR * n) > 0)
            && (v.delay == HOUR * n <==> n <= 2_562_047)
            && (n == 5_124_096 ==> v.outcome.Ok? && v.delay == 1_526_290_448_384)
  {
    UnitHour();
    ParseNumeral(n, "h");
    WrapHours(n);
    ValidateTcp(Render(n) + "h", Wrap64(HOUR * n));
  }

  lemma WrapHours(n: nat)
    requires n <= INT32_MAX
    ensures Wrap64(HOUR * n) == HOUR * n <==> n <= 2_562_047
    ensures n == 5_124_096 ==> Wrap64(HOUR * n) == 1_526_290_448_384
  {}

  lemma ValidateTcp(interval: string, d: int)
    requires interval != "" && ParseInterval(interval) == Some(d)
    ensures ValidatePulse(PulseSpec("tcp", interval), 0).delay == d
    ensures ValidatePulse(PulseSpec("tcp", interval), 0).outcome.Ok? <==> d > 0
  {
    assert Lower("tcp") == "tcp";
  }

  lemma UnitHour()
    ensures UnitOf("h") == Some(HOUR)
  {}

  /** The configuration object whose fields Validate fills in place. */
  class PulseRequest {
    var kind: string
    var interval: string
    var delay: int

    constructor (spec: PulseSpec)
      ensures Spec() == spec && delay == 0
    {
      kind, interval, delay := spec.kind, spec.interval, 0;
    }

    function Spec(): PulseSpec
      reads this
    {
      PulseSpec(kind, interval)
    }

    method Validate() returns (outcome: Outcome)
      modifies this
      ensures Validated(Spec(), delay, outcome) == ValidatePulse(old(Spec()), old(delay))
    {
      if kind == "" {
        kind := "tcp";
      }
      if interval == "" {
        interval := "1m";
      }
      kind := Lower(kind);
      if kind !in PULSE_KINDS {
        return Err(ErrUnknownPulseType);
      }
      match ParseInterval(interval) {
        case None =>
          delay := 0;
          return Err(ErrInvalidIntervalFormat);
        case Some(d) =>
          delay := d;
          if delay <= 0 {
            return Err(ErrInvalidPulseInterval);
          }
      }
      outcome := Ok;
    }
  }
}
