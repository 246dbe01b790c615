/**
 * Server metadata: serialising a desired mapping to string values and reconciling the
 * provider's metadata with it by deleting stale keys, then setting the whole desired mapping.
 */
module Metadata {
  import opened Wrappers
  import opened ProviderErrors
  import Json
  import Servers

  const NOT_A_MAP := "nova server metadata needs to be a Map."

  /**
   * `meta_serialize`: a mapping keeps its keys, string values stay as they are and every other
   * value is JSON-encoded by `dumps`; anything that is not a mapping fails validation.
   */
  function MetaSerialize(metadata: Json.Value, dumps: Json.Value -> string): (r: Result<map<string, string>, Error>)
    ensures r.Failure? <==> !metadata.Object?
    ensures r.Failure? ==> r.error == StackValidationFailed(NOT_A_MAP)
    ensures r.Success? ==> r.value.Keys == metadata.fields.Keys
    ensures r.Success? ==> forall k :: k in r.value && metadata.fields[k].Str? ==> r.value[k] == metadata.fields[k].s
    ensures r.Success? ==> forall k :: k in r.value && !metadata.fields[k].Str? ==> r.value[k] == dumps(metadata.fields[k])
  {
    match metadata
    case Object(fields) =>
      Success(map k | k in fields :: if fields[k].Str? then fields[k].s else dumps(fields[k]))
    case _ => Failure(StackValidationFailed(NOT_A_MAP))
  }

  /** A call on the provider's server-metadata API. */
  datatype MetaCall =
    | DeleteMeta(serverId: string, keys: set<string>)
    | SetMeta(serverId: string, metadata: map<string, string>)

  /** The keys to delete: those present now and absent from the desired mapping. */
  function KeysToDelete(current: map<string, string>, desired: map<string, string>): (r: set<string>)
    ensures forall k :: k in r <==> k in current && k !in desired
  {
    set k | k in current && k !in desired
  }

  /** The calls `meta_update` issues: a delete only when there is something to delete, then a set. */
  function ReconcileCalls(serverId: string, current: map<string, string>, desired: map<string, string>): seq<MetaCall> {
    var toDelete := KeysToDelete(current, desired);
    (if toDelete != {} then [DeleteMeta(serverId, toDelete)] else []) + [SetMeta(serverId, desired)]
  }

  /** What one call does to the provider's metadata: delete removes keys, set upserts. */
  function ApplyCall(md: map<string, string>, call: MetaCall): map<string, string> {
    match call
    case DeleteMeta(_, keys) => md - keys
    case SetMeta(_, m) => md + m
  }

  /** The provider's metadata after a sequence of calls, in order. */
  function ApplyCalls(md: map<string, string>, calls: seq<MetaCall>): map<string, string>
    decreases |calls|
  {
    if calls == [] then md else ApplyCalls(ApplyCall(md, calls[0]), calls[1..])
  }

  /**
   * The shape of a reconciliation: at most one delete, always first and never empty, and a final
   * set carrying the whole desired mapping.
   */
  lemma ReconcileCallsShape(serverId: string, current: map<string, string>, desired: map<string, string>)
    ensures var calls := ReconcileCalls(serverId, current, desired);
      && 1 <= |calls| <= 2
      && calls[|calls| - 1] == SetMeta(serverId, desired)
      && (|calls| == 2 <==> exists k :: k in current && k !in desired)
      && (|calls| == 2 ==> calls[0] == DeleteMeta(serverId, KeysToDelete(current, desired))
                           && calls[0].keys != {})
  {
    var toDelete := KeysToDelete(current, desired);
    if exists k :: k in current && k !in desired {
      var k :| k in current && k !in desired;
      assert k in toDelete;
    }
  }

  /**
   * Applying a reconciliation computed from `current` to provider metadata `provider`: keys the
   * provider holds beyond `current` and beyond the desired mapping survive, everything else
   * becomes the desired mapping.
   */
  lemma {:induction false} ReconcileOnProvider(serverId: string, current: map<string, string>,
                                              desired: map<string, string>, provider: map<string, string>)
    ensures ApplyCalls(provider, ReconcileCalls(serverId, current, desired))
         == (provider - KeysToDelete(current, desired)) + desired
  {
    var toDelete := KeysToDelete(current, desired);
    var setCall := SetMeta(serverId, desired);
    if toDelete != {} {
      var calls := [DeleteMeta(serverId, toDelete), setCall];
      assert ReconcileCalls(serverId, current, desired) == calls;
      assert calls[1..] == [setCall] && [setCall][1..] == [];
      assert ApplyCalls(provider, calls) == ApplyCalls(provider - toDelete, [setCall]);
      assert ApplyCalls(provider - toDelete, [setCall]) == ApplyCalls((provider - toDelete) + desired, []);
    } else {
      assert ReconcileCalls(serverId, current, desired) == [setCall];
      assert [setCall][1..] == [];
      assert provider - toDelete == provider;
    }
  }

  /** When the server's metadata was current, reconciliation leaves exactly the desired mapping. */
  lemma ReconcileReachesDesired(serverId: string, current: map<string, string>, desired: map<string, string>)
    ensures ApplyCalls(current, ReconcileCalls(serverId, current, desired)) == desired
  {
    ReconcileOnProvider(serverId, current, desired, current);
    var result := (current - KeysToDelete(current, desired)) + desired;
    assert result.Keys == desired.Keys;
  }

  /** The provider's server-metadata API, as the sequence of calls made on it. */
  class ComputeApi {
    var calls: seq<MetaCall>

    constructor ()
      ensures calls == []
    {
      calls := [];
    }

    method DeleteMeta(serverId: string, keys: set<string>)
      modifies this
      ensures calls == old(calls) + [MetaCall.DeleteMeta(serverId, keys)]
    {
      calls := calls + [MetaCall.DeleteMeta(serverId, keys)];
    }

    method SetMeta(serverId: string, metadata: map<string, string>)
      modifies this
      ensures calls == old(calls) + [MetaCall.SetMeta(serverId, metadata)]
    {
      calls := calls + [MetaCall.SetMeta(serverId, metadata)];
    }
  }

  /**
   * `meta_update`: serialise the desired metadata (failing before any call when it is not a
   * mapping), then delete the server's keys that are no longer wanted, then set the whole
   * serialised mapping.
   */
  method MetaUpdate(api: ComputeApi, server: Servers.Server, metadata: Json.Value, dumps: Json.Value -> string)
    returns (err: Option<Error>)
    modifies api
    ensures MetaSerialize(metadata, dumps).Failure? ==>
      err == Some(MetaSerialize(metadata, dumps).error) && api.calls == old(api.calls)
    ensures MetaSerialize(metadata, dumps).Success? ==>
      err == None &&
      api.calls == old(api.calls) + ReconcileCalls(server.id, server.metadata, MetaSerialize(metadata, dumps).value)
  {
    var serialised := MetaSerialize(metadata, dumps);
    if serialised.Failure? {
      return Some(serialised.error);
    }
    var desired := serialised.value;
    var toDelete := KeysToDelete(server.metadata, desired);
    if toDelete != {} {
      api.DeleteMeta(server.id, toDelete);
    }
    api.SetMeta(server.id, desired);
    err := None;
  }
}
