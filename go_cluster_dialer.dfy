/**
 * The address and server-name selection of `createClusterDialer` in the Go
 * cluster example.
 *
 * The dialer splits the address it is asked to dial into host and port,
 * replaces an internal host by the public hostname, joins host and port
 * again and dials that address over TLS with the public hostname as the
 * server name. The split and the join (net.SplitHostPort and
 * net.JoinHostPort) are parameters: `split` answers `None` where
 * SplitHostPort returns an error. The dial itself is not modelled; the
 * model stops at what would be dialled.
 */
module GoClusterDialer {
  import opened Wrappers
  import opened PrivateHosts
  import opened AddressRemap

  /** The address dialled and the TLS server name. */
  datatype DialTarget = DialTarget(addr: string, serverName: string)

  /** The "invalid address" error returned before any dial. */
  datatype DialError = InvalidAddress(addr: string)

  function DialTargetFor(publicHostname: string, addr: string,
                         split: string -> Option<HostAndPort<string>>,
                         join: HostAndPort<string> -> string): Result<DialTarget, DialError>
  {
    match split(addr)
    case None => Err(InvalidAddress(addr))
    case Some(hostPort) =>
      var targetHost := if IsInternalIP(hostPort.host) then publicHostname else hostPort.host;
      Ok(DialTarget(join(HostAndPort(targetHost, hostPort.port)), publicHostname))
  }

  /** An address that does not split is an error naming it; every other
      address is dialled with the public hostname as server name, remapped
      or not. */
  lemma ErrorOnlyWhenSplitFails(publicHostname: string, addr: string,
                                split: string -> Option<HostAndPort<string>>,
                                join: HostAndPort<string> -> string)
    ensures DialTargetFor(publicHostname, addr, split, join).Err? <==> split(addr).None?
    ensures DialTargetFor(publicHostname, addr, split, join).Err? ==>
              DialTargetFor(publicHostname, addr, split, join).error == InvalidAddress(addr)
    ensures DialTargetFor(publicHostname, addr, split, join).Ok? ==>
              DialTargetFor(publicHostname, addr, split, join).value.serverName == publicHostname
  {
  }

  /** The host and port dialled are the eighteen-prefix remap of the split
      address, as in the Python and Java cluster examples. */
  lemma DialsRemappedAddress(publicHostname: string, addr: string,
                             split: string -> Option<HostAndPort<string>>,
                             join: HostAndPort<string> -> string)
    requires split(addr).Some?
    ensures DialTargetFor(publicHostname, addr, split, join) ==
            Ok(DialTarget(join(Remap(publicHostname, split(addr).value)), publicHostname))
  {
  }

  /** A host with no ':', '[' or ']': a host name or an IPv4 address, which
      JoinHostPort writes without brackets. */
  predicate PlainHost(host: string) {
    forall k :: 0 <= k < |host| ==> host[k] != ':' && host[k] != '[' && host[k] != ']'
  }

  /** A port string with no ':', '[' or ']'. */
  predicate PlainPort(port: string) {
    forall k :: 0 <= k < |port| ==> port[k] != ':' && port[k] != '[' && port[k] != ']'
  }

  /** A pair that SplitHostPort recovers from JoinHostPort's output. */
  predicate PlainHostPort(hostPort: HostAndPort<string>) {
    PlainHost(hostPort.host) && PlainPort(hostPort.port)
  }

  /** When splitting undoes joining for plain pairs, and the public hostname
      and the split address are plain, the dialled address splits again
      into the chosen host and the original port string. */
  lemma DialledAddressSplits(publicHostname: string, addr: string,
                             split: string -> Option<HostAndPort<string>>,
                             join: HostAndPort<string> -> string)
    requires forall hostPort :: PlainHostPort(hostPort) ==> split(join(hostPort)) == Some(hostPort)
    requires split(addr).Some? && PlainHostPort(split(addr).value)
    requires PlainHost(publicHostname)
    ensures split(DialTargetFor(publicHostname, addr, split, join).value.addr) ==
            Some(HostAndPort(if IsInternalIP(split(addr).value.host) then publicHostname else split(addr).value.host,
                             split(addr).value.port))
  {
    DialsRemappedAddress(publicHostname, addr, split, join);
    var hostPort := split(addr).value;
    assert PlainHostPort(Remap(publicHostname, hostPort));
  }
}
