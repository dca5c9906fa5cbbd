/** IP addresses as Go's net.IP stores them (util/net.go), and the text form
    under which GORB hands them to IPVS. */
module Net {

  type Ip = seq<bv8>

  datatype Family = IPv4 | IPv6

  const V4_LENGTH := 4
  const V6_LENGTH := 16
  const V4_PREFIX: seq<bv8> := [0, 0, 0, 0, 0, 0, 0, 0, 0, 0, 0xff, 0xff]

  /** The address family of an IP address: a 16-byte address with the mapped
      prefix of RFC 4291 section 2.5.5.2 counts as IPv4. */
  function AddrFamily(ip: Ip): Family {
    if |ip| == V4_LENGTH then IPv4
    else if |ip| == V6_LENGTH && V4_PREFIX <= ip then IPv4
    else IPv6
  }

  /** What net.IP.String tells apart: four-byte and mapped addresses print
      alike, every other byte string prints differently. */
  datatype Address = Dotted(bytes: seq<bv8>) | Colon(bytes: seq<bv8>) | Malformed(bytes: seq<bv8>)

  function ShowIp(ip: Ip): Address {
    if |ip| == V4_LENGTH then Dotted(ip)
    else if |ip| == V6_LENGTH && V4_PREFIX <= ip then Dotted(ip[12..])
    else if |ip| == V6_LENGTH then Colon(ip)
    else Malformed(ip)
  }

  /** Two addresses print alike exactly when they are equal or one is the
      mapped form of the other; and then their families agree. */
  lemma ShownAddress(a: Ip, b: Ip)
    ensures ShowIp(a) == ShowIp(b) <==>
            a == b || (|b| == V4_LENGTH && a == V4_PREFIX + b) || (|a| == V4_LENGTH && b == V4_PREFIX + a)
    ensures ShowIp(a) == ShowIp(b) ==> AddrFamily(a) == AddrFamily(b)
  {
    if |a| == V6_LENGTH && V4_PREFIX <= a { assert a == V4_PREFIX + a[12..]; }
    if |b| == V6_LENGTH && V4_PREFIX <= b { assert b == V4_PREFIX + b[12..]; }
  }

  /** The bytes of RFC 4291 section 2.5.5.2: an IPv4 address by itself, or behind
      ten zero bytes and two of all ones. */
  predicate InFourBytes(ip: Ip) {
    || |ip| == 4
    || (|ip| == 16 && ip[10] == 0xff && ip[11] == 0xff && forall i :: 0 <= i < 10 ==> ip[i] == 0)
  }

  /** The family is IPv4 exactly for these, which are the ones printed dotted,
      by their last four bytes; a 16-byte address of another kind is printed in
      full, and no two of these forms are confused. */
  lemma FamilyExactly(ip: Ip)
    ensures AddrFamily(ip) == (if InFourBytes(ip) then IPv4 else IPv6)
    ensures ShowIp(ip) == if InFourBytes(ip) then Dotted(ip[|ip| - 4..])
                          else if |ip| == 16 then Colon(ip) else Malformed(ip)
  {
    if |ip| == 16 {
      assert V4_PREFIX <= ip <==> forall i :: 0 <= i < 12 ==> ip[i] == V4_PREFIX[i];
    }
    if |ip| == 4 {
      assert ip[0..] == ip;
    }
  }
}
