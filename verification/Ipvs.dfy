/** The shim GORB calls into IPVS through (ipvs-shim/ipvs_shim.go): a stateful
    handle whose methods check their arguments and then ask the kernel. */
module Ipvs {
  import opened Basics
  import opened Net
  import opened IpvsTable
  import T = IpvsTable

  method CreateFlagbits(flags: seq<string>) returns (bits: bv32)
    ensures bits == FlagBits(flags)
  {
    bits := 0;
    for i := 0 to |flags|
      invariant bits == FlagBits(flags[..i])
    {
      assert flags[..i + 1][..i] == flags[..i];
      bits := WithFlag(bits, flags[i]);
    }
    assert flags[..|flags|] == flags;
  }

  class Kernel {
    var table: Table

    constructor ()
      ensures table == map[]
    {
      table := map[];
    }

    method AddService(vip: Address, port: uint16, protocol: string, scheduler: string, flags: seq<string>, up: bool)
      returns (ok: bool)
      modifies this
      ensures (table, ok) == T.AddService(old(table), ServiceKey(vip, port, protocol), scheduler, FlagBits(flags), up)
    {
      var bits := CreateFlagbits(flags);
      var key := ServiceKey(vip, port, protocol);
      ok := up && ValidProtocol(protocol) && key !in table;
      if ok {
        table := table[key := Virtual(scheduler, bits, map[])];
      }
    }

    method UpdateService(vip: Address, port: uint16, protocol: string, scheduler: string, flags: seq<string>, up: bool)
      returns (ok: bool)
      modifies this
      ensures (table, ok) == T.UpdateService(old(table), ServiceKey(vip, port, protocol), scheduler, FlagBits(flags), up)
    {
      var bits := CreateFlagbits(flags);
      var key := ServiceKey(vip, port, protocol);
      ok := up && ValidProtocol(protocol) && key in table;
      if ok {
        table := table[key := table[key].(scheduler := scheduler, flags := bits)];
      }
    }

    method DelService(vip: Address, port: uint16, protocol: string, up: bool)
      returns (ok: bool)
      modifies this
      ensures (table, ok) == T.DelService(old(table), ServiceKey(vip, port, protocol), up)
    {
      var key := ServiceKey(vip, port, protocol);
      ok := up && ValidProtocol(protocol) && key in table;
      if ok {
        table := table - {key};
      }
    }

    method AddDestPort(vip: Address, vport: uint16, rip: Address, rport: uint16, protocol: string,
                   weight: uint32, fwd: string, up: bool)
      returns (ok: bool)
      modifies this
      ensures (table, ok) == T.AddDestPort(old(table), ServiceKey(vip, vport, protocol), DestKey(rip, rport), weight, fwd, up)
    {
      var key, dest := ServiceKey(vip, vport, protocol), DestKey(rip, rport);
      ok := up && ValidProtocol(protocol) && ValidForwarding(fwd) && key in table && dest !in table[key].dests;
      if ok {
        var changed := table[key].dests[dest := Dest(weight, ForwardingOf(fwd).value)];
        table := table[key := table[key].(dests := changed)];
      }
    }

    method UpdateDestPort(vip: Address, vport: uint16, rip: Address, rport: uint16, protocol: string,
                   weight: uint32, fwd: string, up: bool)
      returns (ok: bool)
      modifies this
      ensures (table, ok) == T.UpdateDestPort(old(table), ServiceKey(vip, vport, protocol), DestKey(rip, rport), weight, fwd, up)
    {
      var key, dest := ServiceKey(vip, vport, protocol), DestKey(rip, rport);
      ok := up && ValidProtocol(protocol) && ValidForwarding(fwd) && key in table && dest in table[key].dests;
      if ok {
        var changed := table[key].dests[dest := Dest(weight, ForwardingOf(fwd).value)];
        table := table[key := table[key].(dests := changed)];
      }
    }

    method DelDestPort(vip: Address, vport: uint16, rip: Address, rport: uint16, protocol: string, up: bool)
      returns (ok: bool)
      modifies this
      ensures (table, ok) == T.DelDestPort(old(table), ServiceKey(vip, vport, protocol), DestKey(rip, rport), up)
    {
      var key, dest := ServiceKey(vip, vport, protocol), DestKey(rip, rport);
      ok := up && ValidProtocol(protocol) && key in table && dest in table[key].dests;
      if ok {
        table := table[key := table[key].(dests := table[key].dests - {dest})];
      }
    }
  }
}
