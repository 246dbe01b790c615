/**
 * Reading servers from the provider: fetching with transient errors absorbed, fetching that
 * requires existence, refreshing a server object in place, and the address lookup.
 */
module Servers {
  import opened Wrappers
  import opened ProviderErrors

  /** One entry of a server's per-network address list. */
  datatype Address = Address(version: int, addr: string)

  /**
   * A point-in-time read of a server: its name, raw status, the `OS-EXT-STS:task_state` hint
   * (`None` when the attribute is missing), its `fault` mapping (empty when missing; the code is
   * held as the text it prints as), its addresses per network and its metadata.
   */
  datatype Snapshot = Snapshot(
    name: string,
    status: string,
    taskState: Option<string>,
    fault: map<string, string>,
    addresses: map<string, seq<Address>>,
    metadata: map<string, string>)

  /** What one provider read of a server gives: a snapshot, or a raised error. */
  datatype Read = Fetched(snapshot: Snapshot) | Raised(error: ProviderError)

  /** A server object whose attributes are overwritten when it is re-read. */
  class Server {
    const id: string
    var name: string
    var status: string
    var taskState: Option<string>
    var fault: map<string, string>
    var addresses: map<string, seq<Address>>
    var metadata: map<string, string>

    /** The server's current attributes as a value. */
    function View(): Snapshot
      reads this
    {
      Snapshot(name, status, taskState, fault, addresses, metadata)
    }

    constructor (id: string, s: Snapshot)
      ensures this.id == id && View() == s
    {
      this.id := id;
      name, status, taskState := s.name, s.status, s.taskState;
      fault, addresses, metadata := s.fault, s.addresses, s.metadata;
    }

    /** Overwrite every attribute with a freshly read snapshot (the library's `server.get()`). */
    method Load(s: Snapshot)
      modifies this
      ensures View() == s
    {
      name, status, taskState := s.name, s.status, s.taskState;
      fault, addresses, metadata := s.fault, s.addresses, s.metadata;
    }
  }

  /**
   * `fetch_server`: the read's snapshot, or `None` when the read raised a transient error;
   * any other error is raised again unchanged.
   */
  function FetchServer(read: Read): (r: Result<Option<Snapshot>, ProviderError>)
    ensures read.Fetched? ==> r == Success(Some(read.snapshot))
    ensures r == Success(None) <==> read.Raised? && IsTransient(read.error)
    ensures r.Failure? <==> read.Raised? && !IsTransient(read.error)
    ensures r.Failure? ==> r.error == read.error
  {
    match read
    case Fetched(s) => Success(Some(s))
    case Raised(e) => if IsTransient(e) then Success(None) else Failure(e)
  }

  /**
   * `get_server`: the read's snapshot; a not-found error becomes the domain's entity-not-found
   * failure naming the server, any other error is raised again.
   */
  function GetServer(serverId: string, read: Read): (r: Result<Snapshot, Error>)
    ensures r.Success? <==> read.Fetched?
    ensures r.Success? ==> r.value == read.snapshot
    ensures read.Raised? && IsNotFound(read.error) ==> r == Failure(EntityNotFound("Server", serverId))
    ensures read.Raised? && !IsNotFound(read.error) ==> r == Failure(Reraised(read.error))
  {
    match read
    case Fetched(s) => Success(s)
    case Raised(e) =>
      if IsNotFound(e) then Failure(EntityNotFound("Server", serverId)) else Failure(Reraised(e))
  }

  /**
   * `refresh_server`: re-read the server in place. A transient error leaves it as it was and is
   * swallowed; any other error leaves it as it was and is returned to be raised again.
   */
  method RefreshServer(server: Server, read: Read) returns (raised: Option<ProviderError>)
    modifies server
    ensures read.Fetched? ==> server.View() == read.snapshot && raised == None
    ensures read.Raised? ==> server.View() == old(server.View())
    ensures read.Raised? && IsTransient(read.error) ==> raised == None
    ensures read.Raised? && !IsTransient(read.error) ==> raised == Some(read.error)
  {
    match read
    case Fetched(s) =>
      server.Load(s);
      raised := None;
    case Raised(e) =>
      raised := if IsTransient(e) then None else Some(e);
  }

  /** The addresses listed for one network; none when the network is not listed. */
  function AddressesOn(server: Snapshot, netType: string): seq<Address> {
    if netType in server.addresses then server.addresses[netType] else []
  }

  /**
   * `get_ip`: the address of the first entry on network `netType` whose IP version is
   * `ipVersion`; `None` when the network is missing or has no such entry.
   */
  method GetIp(server: Snapshot, netType: string, ipVersion: int) returns (r: Option<string>)
    ensures r.None? <==> forall j :: 0 <= j < |AddressesOn(server, netType)| ==>
      AddressesOn(server, netType)[j].version != ipVersion
    ensures r.Some? ==> exists i :: (0 <= i < |AddressesOn(server, netType)|
      && AddressesOn(server, netType)[i] == Address(ipVersion, r.value)
      && forall j :: 0 <= j < i ==> AddressesOn(server, netType)[j].version != ipVersion)
  {
    r := None;
    if netType in server.addresses {
      var ips := server.addresses[netType];
      var i := 0;
      while i < |ips|
        invariant 0 <= i <= |ips|
        invariant forall j :: 0 <= j < i ==> ips[j].version != ipVersion
      {
        if ips[i].version == ipVersion {
          assert AddressesOn(server, netType)[i] == Address(ipVersion, ips[i].addr);
          return Some(ips[i].addr);
        }
        i := i + 1;
      }
    }
  }
}
