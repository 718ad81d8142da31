/**
 * The node-address remap of the OSS-cluster examples.
 *
 * A cluster reports its nodes by internal address; a client outside the
 * virtual network must reach them through the public hostname, on the same
 * port, so that TLS sees the name on the certificate. Each example installs
 * a function from a node address to the address actually dialled:
 *
 *  - `remap` in the Python cluster example, the Lettuce mapping lambda and
 *    the Jedis `HostAndPortMapper` replace the host by the public hostname
 *    when it has one of the eighteen private prefixes (`Remap`);
 *  - `remap` in the Python user- and system-assigned examples does the same
 *    with the three broad prefixes (`RemapBroad`).
 *
 * The three eighteen-prefix copies are the same conditional over the same
 * predicate, so they are modelled once; so are the two broad copies.
 */
module AddressRemap {
  import opened PrivateHosts

  /** A node address: Python's `(host, port)` tuple, Lettuce's and Jedis's
      `HostAndPort`, or Go's split host and port. The port is carried along,
      never inspected, so its type is a parameter. */
  datatype HostAndPort<P> = HostAndPort(host: string, port: P)

  /** The eighteen-prefix remap. */
  function Remap<P>(publicHostname: string, address: HostAndPort<P>): HostAndPort<P> {
    if IsInternalIP(address.host) then HostAndPort(publicHostname, address.port) else address
  }

  /** The three-prefix remap of the user- and system-assigned examples. */
  function RemapBroad<P>(publicHostname: string, address: HostAndPort<P>): HostAndPort<P> {
    if IsBroadPrivate(address.host) then HostAndPort(publicHostname, address.port) else address
  }

  // ---------------------------------------------------------------------
  // The eighteen-prefix remap.
  // ---------------------------------------------------------------------

  /** The port always survives; the host becomes the public hostname
      exactly for internal hosts and is kept otherwise. */
  lemma RemapKeepsPort<P>(publicHostname: string, address: HostAndPort<P>)
    ensures Remap(publicHostname, address).port == address.port
    ensures IsInternalIP(address.host) ==> Remap(publicHostname, address).host == publicHostname
    ensures !IsInternalIP(address.host) ==> Remap(publicHostname, address) == address
  {
  }

  /** Remapping twice is remapping once, provided the public hostname is not
      itself internal-looking. */
  lemma RemapIdempotent<P>(publicHostname: string, address: HostAndPort<P>)
    requires !IsInternalIP(publicHostname)
    ensures Remap(publicHostname, Remap(publicHostname, address)) == Remap(publicHostname, address)
  {
  }

  /** Under the same proviso no internal host survives the remap. */
  lemma RemapLeavesNoInternalHost<P>(publicHostname: string, address: HostAndPort<P>)
    requires !IsInternalIP(publicHostname)
    ensures !IsInternalIP(Remap(publicHostname, address).host)
  {
  }

  /** On a canonical dotted quad the remap sends exactly the RFC 1918
      addresses to the public hostname, on the same port. */
  lemma RemapDottedQuad<P>(publicHostname: string, a: nat, b: nat, c: nat, d: nat, port: P)
    requires a < 256 && b < 256 && c < 256 && d < 256
    ensures Remap(publicHostname, HostAndPort(DottedQuad(a, b, c, d), port)) ==
            if InRfc1918(a, b) then HostAndPort(publicHostname, port)
            else HostAndPort(DottedQuad(a, b, c, d), port)
  {
    DottedQuadInternal(a, b, c, d);
  }

  /** The edges of the 172 block and the text-prefix cases: 172.15.0.1 and
      172.32.0.1 stay, 172.16.0.1 and 172.31.255.255 move; "10.example"
      moves, "100.64.0.1" stays. */
  lemma RemapExamples(publicHostname: string, port: int)
    ensures Remap(publicHostname, HostAndPort(DottedQuad(172, 15, 0, 1), port)).host == DottedQuad(172, 15, 0, 1)
    ensures Remap(publicHostname, HostAndPort(DottedQuad(172, 32, 0, 1), port)).host == DottedQuad(172, 32, 0, 1)
    ensures Remap(publicHostname, HostAndPort(DottedQuad(172, 16, 0, 1), port)).host == publicHostname
    ensures Remap(publicHostname, HostAndPort(DottedQuad(172, 31, 255, 255), port)).host == publicHostname
    ensures Remap(publicHostname, HostAndPort("10.example", port)).host == publicHostname
    ensures Remap(publicHostname, HostAndPort("100.64.0.1", port)).host == "100.64.0.1"
  {
    Block172Edges();
    TextExamples();
  }

  /** A node the cluster reports at 10.0.2.4:8500 is dialled at the public
      hostname on port 8500; a public address such as 203.0.113.5:10000 is
      dialled as reported. */
  lemma RemapNodeAddresses(publicHostname: string)
    ensures Remap(publicHostname, HostAndPort(DottedQuad(10, 0, 2, 4), 8500)) == HostAndPort(publicHostname, 8500)
    ensures Remap(publicHostname, HostAndPort(DottedQuad(203, 0, 113, 5), 10000)) ==
            HostAndPort(DottedQuad(203, 0, 113, 5), 10000)
  {
    RemapDottedQuad(publicHostname, 10, 0, 2, 4, 8500);
    RemapDottedQuad(publicHostname, 203, 0, 113, 5, 10000);
  }

  // ---------------------------------------------------------------------
  // The broad remap.
  // ---------------------------------------------------------------------

  lemma RemapBroadKeepsPort<P>(publicHostname: string, address: HostAndPort<P>)
    ensures RemapBroad(publicHostname, address).port == address.port
    ensures IsBroadPrivate(address.host) ==> RemapBroad(publicHostname, address).host == publicHostname
    ensures !IsBroadPrivate(address.host) ==> RemapBroad(publicHostname, address) == address
  {
  }

  lemma RemapBroadIdempotent<P>(publicHostname: string, address: HostAndPort<P>)
    requires !IsBroadPrivate(publicHostname)
    ensures RemapBroad(publicHostname, RemapBroad(publicHostname, address)) == RemapBroad(publicHostname, address)
  {
  }

  /** Every address the eighteen-prefix remap moves, the broad remap moves
      to the same place; so the broad remap leaves no internal host behind
      either. */
  lemma RemapBroadCoversRemap<P>(publicHostname: string, address: HostAndPort<P>)
    ensures IsInternalIP(address.host) ==> RemapBroad(publicHostname, address) == Remap(publicHostname, address)
    ensures !IsInternalIP(publicHostname) && !IsBroadPrivate(publicHostname) ==>
              !IsInternalIP(RemapBroad(publicHostname, address).host)
  {
    InternalIsBroad(address.host);
    InternalIsBroad(publicHostname);
  }

  /** On a canonical dotted quad the broad remap moves all of 10.0.0.0/8,
      all of 172.0.0.0/8 and 192.168.0.0/16. */
  lemma RemapBroadDottedQuad<P>(publicHostname: string, a: nat, b: nat, c: nat, d: nat, port: P)
    requires a < 256 && b < 256 && c < 256 && d < 256
    ensures RemapBroad(publicHostname, HostAndPort(DottedQuad(a, b, c, d), port)) ==
            if a == 10 || a == 172 || (a == 192 && b == 168) then HostAndPort(publicHostname, port)
            else HostAndPort(DottedQuad(a, b, c, d), port)
  {
    BroadQuad(a, b, c, d);
  }

  /** Where the two differ: 172.0.0.1 and 172.200.1.1 are moved by the broad
      remap only, and 192.169.0.1 by neither. */
  lemma BroadOnlyAddresses(publicHostname: string, port: int)
    requires publicHostname != DottedQuad(172, 0, 0, 1) && publicHostname != DottedQuad(172, 200, 1, 1)
    ensures RemapBroad(publicHostname, HostAndPort(DottedQuad(172, 0, 0, 1), port)) !=
            Remap(publicHostname, HostAndPort(DottedQuad(172, 0, 0, 1), port))
    ensures RemapBroad(publicHostname, HostAndPort(DottedQuad(172, 200, 1, 1), port)) !=
            Remap(publicHostname, HostAndPort(DottedQuad(172, 200, 1, 1), port))
    ensures RemapBroad(publicHostname, HostAndPort(DottedQuad(192, 169, 0, 1), port)).host == DottedQuad(192, 169, 0, 1)
  {
    BroadOnlyExamples();
  }
}
