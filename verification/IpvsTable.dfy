/** The kernel's IPVS table as the shim sees it (ipvs-shim/ipvs_shim.go). A
    call fails when its key is already there (Add) or missing (Update, Del),
    when an argument is invalid, or for a reason of the kernel's own, which is
    the parameter `up`; a failed call changes nothing. */
module IpvsTable {
  import opened Basics
  import opened Net

  function ProtocolNumber(protocol: string): Option<uint16> {
    if protocol == "tcp" then Some(6) else if protocol == "udp" then Some(17) else None
  }

  predicate ValidProtocol(protocol: string) { ProtocolNumber(protocol).Some? }

  /** The scheduler flag bits of Linux; two pairs of names share a bit. */
  const SCHEDULER_FLAGS: map<string, bv32> :=
    map["sh-fallback" := 0x08, "sh-port" := 0x10, "flag-1" := 0x08, "flag-2" := 0x10, "flag-3" := 0x20]

  predicate ValidFlag(flag: string) { flag in SCHEDULER_FLAGS }

  datatype Forwarding = DirectRoute | Masquerade | Tunnel

  function ForwardingOf(method_: string): Option<Forwarding> {
    if method_ == "dr" then Some(DirectRoute)
    else if method_ == "nat" then Some(Masquerade)
    else if method_ == "tunnel" || method_ == "ipip" then Some(Tunnel)
    else None
  }

  predicate ValidForwarding(method_: string) { ForwardingOf(method_).Some? }

  /** The union of the bits of the known flags. */
  function FlagBits(flags: seq<string>): bv32 {
    if flags == [] then 0 else WithFlag(FlagBits(flags[..|flags| - 1]), flags[|flags| - 1])
  }

  function WithFlag(bits: bv32, flag: string): bv32 {
    if flag in SCHEDULER_FLAGS then bits | SCHEDULER_FLAGS[flag] else bits
  }

  lemma {:induction false} BitsContain(flags: seq<string>, flag: string)
    requires flag in flags
    ensures WithFlag(FlagBits(flags), flag) == FlagBits(flags)
  {
    var init := flags[..|flags| - 1];
    assert flags == init + [flags[|flags| - 1]];
    if flag in init {
      BitsContain(init, flag);
    }
  }

  lemma {:induction false} BitsAbsorb(flags: seq<string>, all: seq<string>)
    requires forall f :: f in flags ==> f in all
    ensures FlagBits(all) | FlagBits(flags) == FlagBits(all)
  {
    if flags != [] {
      BitsAbsorb(flags[..|flags| - 1], all);
      BitsContain(all, flags[|flags| - 1]);
    }
  }

  /** Order and repetition of the flags do not matter. */
  lemma FlagBitsOfSameFlags(a: seq<string>, b: seq<string>)
    requires forall f :: f in a <==> f in b
    ensures FlagBits(a) == FlagBits(b)
  {
    BitsAbsorb(a, b);
    BitsAbsorb(b, a);
  }

  datatype ServiceKey = ServiceKey(vip: Address, port: uint16, protocol: string)
  datatype DestKey = DestKey(rip: Address, port: uint16)
  datatype Dest = Dest(weight: uint32, forwarding: Forwarding)
  datatype Virtual = Virtual(scheduler: string, flags: bv32, dests: map<DestKey, Dest>)

  type Table = map<ServiceKey, Virtual>

  function AddService(t: Table, k: ServiceKey, scheduler: string, flags: bv32, up: bool): (Table, bool) {
    if up && ValidProtocol(k.protocol) && k !in t
    then (t[k := Virtual(scheduler, flags, map[])], true)
    else (t, false)
  }

  function UpdateService(t: Table, k: ServiceKey, scheduler: string, flags: bv32, up: bool): (Table, bool) {
    if up && ValidProtocol(k.protocol) && k in t
    then (t[k := Virtual(scheduler, flags, t[k].dests)], true)
    else (t, false)
  }

  /** Removing a service removes its destinations. */
  function DelService(t: Table, k: ServiceKey, up: bool): (Table, bool) {
    if up && ValidProtocol(k.protocol) && k in t then (t - {k}, true) else (t, false)
  }

  predicate HasDest(t: Table, k: ServiceKey, d: DestKey) {
    k in t && d in t[k].dests
  }

  function SetDest(t: Table, k: ServiceKey, d: DestKey, dest: Dest): Table
    requires k in t
  {
    t[k := t[k].(dests := t[k].dests[d := dest])]
  }

  function AddDestPort(t: Table, k: ServiceKey, d: DestKey, weight: uint32, fwd: string, up: bool): (Table, bool) {
    if up && ValidProtocol(k.protocol) && ValidForwarding(fwd) && k in t && d !in t[k].dests
    then (SetDest(t, k, d, Dest(weight, ForwardingOf(fwd).value)), true)
    else (t, false)
  }

  function UpdateDestPort(t: Table, k: ServiceKey, d: DestKey, weight: uint32, fwd: string, up: bool): (Table, bool) {
    if up && ValidProtocol(k.protocol) && ValidForwarding(fwd) && HasDest(t, k, d)
    then (SetDest(t, k, d, Dest(weight, ForwardingOf(fwd).value)), true)
    else (t, false)
  }

  function DelDestPort(t: Table, k: ServiceKey, d: DestKey, up: bool): (Table, bool) {
    if up && ValidProtocol(k.protocol) && HasDest(t, k, d)
    then (t[k := t[k].(dests := t[k].dests - {d})], true)
    else (t, false)
  }

  /** A bit is set exactly if a flag that carries it is named: two names for each
      of the first two bits, one for the third, and no other bit ever. */
  lemma {:induction false} FlagBitsExactly(flags: seq<string>)
    ensures FlagBits(flags) & 0x08 != 0 <==> "sh-fallback" in flags || "flag-1" in flags
    ensures FlagBits(flags) & 0x10 != 0 <==> "sh-port" in flags || "flag-2" in flags
    ensures FlagBits(flags) & 0x20 != 0 <==> "flag-3" in flags
    ensures FlagBits(flags) & 0xFFFF_FFC7 == 0
  {
    if flags != [] {
      var init, last := flags[..|flags| - 1], flags[|flags| - 1];
      FlagBitsExactly(init);
      assert flags == init + [last];
      OneFlag(FlagBits(init), last);
    }
  }

  lemma OneFlag(bits: bv32, flag: string)
    ensures WithFlag(bits, flag) & 0x08 != 0 <==> bits & 0x08 != 0 || flag == "sh-fallback" || flag == "flag-1"
    ensures WithFlag(bits, flag) & 0x10 != 0 <==> bits & 0x10 != 0 || flag == "sh-port" || flag == "flag-2"
    ensures WithFlag(bits, flag) & 0x20 != 0 <==> bits & 0x20 != 0 || flag == "flag-3"
    ensures bits & 0xFFFF_FFC7 == 0 ==> WithFlag(bits, flag) & 0xFFFF_FFC7 == 0
  {
    NamedFlags(flag);
    OrBits(bits, if flag in SCHEDULER_FLAGS then SCHEDULER_FLAGS[flag] else 0);
  }

  lemma NamedFlags(flag: string)
    ensures ValidFlag(flag) <==> flag in {"sh-fallback", "sh-port", "flag-1", "flag-2", "flag-3"}
    ensures flag in {"sh-fallback", "flag-1"} ==> SCHEDULER_FLAGS[flag] == 0x08
    ensures flag in {"sh-port", "flag-2"} ==> SCHEDULER_FLAGS[flag] == 0x10
    ensures flag == "flag-3" ==> SCHEDULER_FLAGS[flag] == 0x20
  {}

  lemma OrBits(a: bv32, b: bv32)
    requires b == 0 || b == 0x08 || b == 0x10 || b == 0x20
    ensures (a | b) & 0x08 != 0 <==> a & 0x08 != 0 || b == 0x08
    ensures (a | b) & 0x10 != 0 <==> a & 0x10 != 0 || b == 0x10
    ensures (a | b) & 0x20 != 0 <==> a & 0x20 != 0 || b == 0x20
    ensures a & 0xFFFF_FFC7 == 0 ==> (a | b) & 0xFFFF_FFC7 == 0
  {}

  /** Which forwarding methods there are, and what they mean to the kernel. */
  lemma ForwardingExactly(fwd: string)
    ensures ForwardingOf(fwd) == Some(DirectRoute) <==> fwd == "dr"
    ensures ForwardingOf(fwd) == Some(Masquerade) <==> fwd == "nat"
    ensures ForwardingOf(fwd) == Some(Tunnel) <==> fwd == "tunnel" || fwd == "ipip"
    ensures ValidForwarding(fwd) <==> fwd in {"dr", "nat", "tunnel", "ipip"}
  {}

  lemma ProtocolExactly(protocol: string)
    ensures ProtocolNumber(protocol) == Some(6) <==> protocol == "tcp"
    ensures ProtocolNumber(protocol) == Some(17) <==> protocol == "udp"
    ensures ValidProtocol(protocol) <==> protocol in {"tcp", "udp"}
  {}
}
