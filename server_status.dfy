/**
 * The polling state machine: normalising a status, deciding whether a server is active, and
 * deciding whether a deletion has finished. Each check makes one provider read (the active
 * check on a server object at most one more) and answers with a `Check`.
 */
module ServerStatus {
  import opened Wrappers
  import opened ProviderErrors
  import opened Servers

  const ACTIVE := "ACTIVE"
  const ERROR := "ERROR"
  const DELETED := "DELETED"
  const SOFT_DELETED := "SOFT_DELETED"
  const DELETING := "deleting"
  const UNKNOWN := "Unknown"

  /** Statuses of a server that exists while an operation on it is still pending. */
  const DEFERRED_STATUSES: seq<string> := [
    "BUILD",
    "HARD_REBOOT",
    "PASSWORD",
    "REBOOT",
    "RESCUE",
    "RESIZE",
    "REVERT_RESIZE",
    "SHUTOFF",
    "SUSPENDED",
    "VERIFY_RESIZE"
  ]

  /**
   * The answer of a check: done or not yet, the server entered an error state
   * (ResourceInError), its status is not recognised (ResourceUnknownStatus), or a provider
   * error is raised again.
   */
  datatype Check =
    | Done(complete: bool)
    | InError(resourceStatus: string, statusReason: string)
    | UnknownStatus(resourceStatus: string, result: string)
    | Propagated(error: ProviderError)

  /** `get_status`: the status up to its first `(`, dropping a parenthesised suffix. */
  function GetStatus(status: string): (r: string)
    ensures r <= status
    ensures '(' !in r
    ensures |r| < |status| ==> status[|r|] == '('
  {
    if status == [] || status[0] == '(' then ""
    else [status[0]] + GetStatus(status[1..])
  }

  /** A status without `(` is returned unchanged. */
  lemma GetStatusPlain(status: string)
    requires '(' !in status
    ensures GetStatus(status) == status
  {
  }

  /** `P(anything` normalises to `P` when `P` has no `(`; so `ACTIVE(foo)` becomes `ACTIVE`. */
  lemma {:induction false} GetStatusDropsSuffix(p: string, q: string)
    requires '(' !in p
    ensures GetStatus(p + "(" + q) == p
    decreases |p|
  {
    var s := p + "(" + q;
    if p != [] {
      assert s[0] == p[0] && s[1..] == p[1..] + "(" + q;
      GetStatusDropsSuffix(p[1..], q);
      assert [p[0]] + p[1..] == p;
    }
  }

  /** Normalising is idempotent. */
  lemma GetStatusIdempotent(status: string)
    ensures GetStatus(GetStatus(status)) == GetStatus(status)
  {
    GetStatusPlain(GetStatus(status));
  }

  /** `fault.get(key, default)` */
  function FaultField(fault: map<string, string>, key: string, default: string): string {
    if key in fault then fault[key] else default
  }

  /** The error-state reason of the active check; message and code each default to `Unknown`. */
  function ActiveErrorReason(fault: map<string, string>): string {
    "Message: " + FaultField(fault, "message", UNKNOWN) + ", Code: " + FaultField(fault, "code", UNKNOWN)
  }

  /**
   * The error-state reason of the delete check: the message defaults to `Unknown`, while a
   * missing code is printed as `None`.
   */
  function DeleteErrorReason(name: string, fault: map<string, string>): string {
    "Server " + name + " delete failed: (" + FaultField(fault, "code", "None") + ") "
      + FaultField(fault, "message", UNKNOWN)
  }

  /** The classification of a read server at the end of `_check_active`. */
  function ClassifyActive(server: Snapshot, resName: string := "Server"): (r: Check)
    ensures r == Done(false) <==> GetStatus(server.status) in DEFERRED_STATUSES
    ensures r == Done(true) <==> GetStatus(server.status) == ACTIVE
    ensures r.InError? <==> GetStatus(server.status) == ERROR
    ensures r.InError? ==> r == InError(ERROR, ActiveErrorReason(server.fault))
    ensures r.UnknownStatus? <==> GetStatus(server.status) !in DEFERRED_STATUSES + [ACTIVE, ERROR]
    ensures r.UnknownStatus? ==> r == UnknownStatus(server.status, resName + " is not active")
    ensures !r.Propagated?
  {
    var status := GetStatus(server.status);
    if status in DEFERRED_STATUSES then Done(false)
    else if status == ACTIVE then Done(true)
    else if status == ERROR then InError(status, ActiveErrorReason(server.fault))
    else UnknownStatus(server.status, resName + " is not active")
  }

  /**
   * `_check_active` given a server id: fetch it; nothing fetched (a transient error) means not
   * yet active, otherwise classify the fetched server.
   */
  function CheckActiveById(read: Read, resName: string := "Server"): (r: Check)
    ensures r.Propagated? <==> read.Raised? && !IsTransient(read.error)
    ensures r.Propagated? ==> r.error == read.error
    ensures read.Raised? && IsTransient(read.error) ==> r == Done(false)
    ensures read.Fetched? ==> r == ClassifyActive(read.snapshot, resName)
  {
    match FetchServer(read)
    case Failure(e) => Propagated(e)
    case Success(None) => Done(false)
    case Success(Some(s)) => ClassifyActive(s, resName)
  }

  /**
   * `_check_active` given a server object: a server already `ACTIVE` is confirmed without a
   * read; otherwise it is refreshed once in place and its new state classified. A refresh error
   * that is not transient is raised again.
   */
  method CheckActiveObject(server: Server, refresh: Read, resName: string := "Server") returns (r: Check)
    modifies server
    ensures GetStatus(old(server.status)) == ACTIVE ==> unchanged(server) && r == Done(true)
    ensures GetStatus(old(server.status)) != ACTIVE && refresh.Fetched? ==>
      server.View() == refresh.snapshot && r == ClassifyActive(refresh.snapshot, resName)
    ensures GetStatus(old(server.status)) != ACTIVE && refresh.Raised? ==>
      server.View() == old(server.View())
      && r == (if IsTransient(refresh.error) then ClassifyActive(old(server.View()), resName)
               else Propagated(refresh.error))
  {
    var status := GetStatus(server.status);
    if status != ACTIVE {
      var raised := RefreshServer(server, refresh);
      if raised.Some? {
        return Propagated(raised.value);
      }
    }
    r := ClassifyActive(server.View(), resName);
  }

  /**
   * `check_delete_server_complete`: a not-found error means deleted; nothing fetched means not
   * yet; the `deleting` task state means not yet whatever the status; `DELETED` or
   * `SOFT_DELETED` means deleted; `ERROR` means the deletion failed; anything else means not yet.
   * Any other raised error is raised again.
   */
  function CheckDeleteComplete(read: Read): (r: Check)
    ensures read.Raised? && IsNotFound(read.error) && !IsTransient(read.error) ==> r == Done(true)
    ensures read.Raised? && IsTransient(read.error) ==> r == Done(false)
    ensures r.Propagated? <==> read.Raised? && !IsTransient(read.error) && !IsNotFound(read.error)
    ensures r.Propagated? ==> r.error == read.error
    ensures read.Fetched? && read.snapshot.taskState == Some(DELETING) ==> r == Done(false)
    ensures r == Done(true) <==>
      || (read.Raised? && IsNotFound(read.error) && !IsTransient(read.error))
      || (read.Fetched? && read.snapshot.taskState != Some(DELETING)
          && GetStatus(read.snapshot.status) in [DELETED, SOFT_DELETED])
    ensures r.InError? <==>
      read.Fetched? && read.snapshot.taskState != Some(DELETING) && GetStatus(read.snapshot.status) == ERROR
    ensures r.InError? ==> r == InError(ERROR, DeleteErrorReason(read.snapshot.name, read.snapshot.fault))
    ensures !r.UnknownStatus?
  {
    match FetchServer(read)
    case Failure(e) =>
      if IsNotFound(e) then Done(true) else Propagated(e)
    case Success(None) => Done(false)
    case Success(Some(s)) =>
      if s.taskState == Some(DELETING) then Done(false)
      else
        var status := GetStatus(s.status);
        if status in [DELETED, SOFT_DELETED] then Done(true)
        else if status == ERROR then InError(status, DeleteErrorReason(s.name, s.fault))
        else Done(false)
  }

  /** The status vocabularies do not overlap. */
  lemma StatusVocabularyDisjoint()
    ensures |DEFERRED_STATUSES| == 10
    ensures forall i, j :: 0 <= i < j < |DEFERRED_STATUSES| ==> DEFERRED_STATUSES[i] != DEFERRED_STATUSES[j]
    ensures ACTIVE !in DEFERRED_STATUSES && ERROR !in DEFERRED_STATUSES
    ensures DELETED !in DEFERRED_STATUSES && SOFT_DELETED !in DEFERRED_STATUSES
  {
  }

  /**
   * A parenthesised suffix never changes the verdict for a deferred or active status: for
   * example `ACTIVE(foo)` is active and `BUILD(spawning)` is not yet.
   */
  lemma SuffixIgnoredByActiveCheck(server: Snapshot, p: string, q: string, resName: string)
    requires p in DEFERRED_STATUSES || p == ACTIVE
    requires server.status == p + "(" + q
    ensures ClassifyActive(server, resName) == Done(p == ACTIVE)
  {
    StatusVocabularyDisjoint();
    GetStatusDropsSuffix(p, q);
  }

  /**
   * A transient read never aborts a poll: both checks answer "not yet" and polling goes on.
   */
  lemma TransientReadKeepsPolling(read: Read, resName: string)
    requires read.Raised? && IsTransient(read.error)
    ensures CheckActiveById(read, resName) == Done(false)
    ensures CheckDeleteComplete(read) == Done(false)
  {
  }

  /** The `deleting` task state hides even a `DELETED` status. */
  lemma DeletingHidesDeletedStatus(s: Snapshot)
    requires s.taskState == Some(DELETING) && s.status == DELETED
    ensures CheckDeleteComplete(Fetched(s)) == Done(false)
  {
  }

  /** A not-found error as the provider library builds it always means the deletion is done. */
  lemma NotFoundMeansDeleted(e: ProviderError)
    requires FromLibrary(e) && IsNotFound(e)
    ensures CheckDeleteComplete(Raised(e)) == Done(true)
  {
    LibraryErrorsClassifyOnce(e);
  }
}
