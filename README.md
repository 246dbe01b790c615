# Compute-server lifecycle client and password authentication filter, in Dafny

This project models two parts of the chef_validator service.

1. The compute client plugin (`chef_validator/engine/clients/nova.py`):
   - the error classifier and the transient-error policy of fetching and refreshing a server;
   - the status normaliser and the two polling checks ("is it active?", "is the deletion finished?");
   - the metadata serialiser and reconciler;
   - the boot-payload (user data) assembler, up to its ordered list of attachments;
   - the flavor, address and console-URL lookups.
2. The password authentication filter (`chef_validator/api/middleware/auth_password.py`):
   - the identity headers built from either shape of token;
   - the accept/reject decision;
   - the 401 challenge.

Provider calls are not made. What one call to the provider returns is an input: a `Read`
(`Fetched(snapshot)` or `Raised(error)`), a flavor list, or a console reply. A raised exception
is a value: a `Check` (`Done(bool) | InError | UnknownStatus | Propagated`) for the polling
checks, a `Result` for the lookups and the metadata serialiser, an `Option` of the error for
the refresh and the metadata update, and `Response.Raised` in the authentication filter. The JSON encoder and the multi-part parser come from libraries
outside the model and are passed in as functions, and so is the identity service's answer.
The configured service URLs and connection flags are passed in as values.

Modules, one per file: `Wrappers`, `Text` (Python's `join`, `split` and `in` on strings),
`Json`, `ProviderErrors`, `Servers`, `ServerStatus`, `Metadata`, `Userdata`, `Lookups`,
`AuthPassword`.

Where the model departs from the code as written:
- `nova.py:41` binds `resource = None`, so the `raise resource.ResourceInError(...)` and
  `raise resource.ResourceUnknownStatus(...)` statements would fail with an attribute error.
  The model gives the intended distinct outcomes, `Check.InError` and `Check.UnknownStatus`.
- Unlike the active check, which defaults both the fault message and the fault code to
  `Unknown`, the delete check defaults only the message to `Unknown`; a missing code prints
  as `None` (`nova.py:399-400`).
- "If metadata is provided" in the assembler is Python truthiness (`if metadata:`). An empty
  mapping adds no `cfn-init-data` attachment.

## Model

| member | source | states |
|---|---|---|
| `ProviderErrors.StatusOrCode` | chef_validator/engine/clients/nova.py:108-109 | the 422 check reads `http_status`, falling back to `code` when the status is missing, `None` or zero |
| `ProviderErrors.StatusAttr` | chef_validator/engine/clients/nova.py:142-143 | the fetch policy reads `http_status`, falling back to `code` only when the attribute is missing |
| `ProviderErrors.IsNotFound` | chef_validator/engine/clients/nova.py:95-96 | `isinstance` of the library's not-found class: such an error is a client exception with status 404 |
| `ProviderErrors.IsOverLimit` | chef_validator/engine/clients/nova.py:98-99 | `isinstance` of the library's over-limit class: such an error is a client exception with status 413 |
| `ProviderErrors.IsBadRequest` | chef_validator/engine/clients/nova.py:101-102 | `isinstance` of the library's bad-request class: such an error is a client exception with status 400 |
| `ProviderErrors.IsConflict` | chef_validator/engine/clients/nova.py:104-105 | `isinstance` of the library's conflict class: such an error is a client exception with status 409 |
| `ProviderErrors.IsUnprocessableEntity` | chef_validator/engine/clients/nova.py:107-111 | exactly the client exceptions whose `http_status` is 422, or, when that status is missing, `None` or zero, whose `code` is 422 |
| `ProviderErrors.IsTransient` | chef_validator/engine/clients/nova.py:137-148 | the errors fetching and refreshing absorb: every over-limit error, and exactly the client exceptions whose `http_status` (or `code`, only when that attribute is missing) is 500 or 503; nothing else is absorbed |
| `ProviderErrors.ClassesExclusive` | chef_validator/engine/clients/nova.py:95-105 | not-found, over-limit, bad-request and conflict never hold together |
| `ProviderErrors.LibraryErrorsClassifyOnce` | chef_validator/engine/clients/nova.py:95-111 | for library-built errors a not-found is never transient nor unprocessable, and an unprocessable error is a generic client error |
| `ProviderErrors.StatusLookupsDiffer` | chef_validator/engine/clients/nova.py:141-143 | a client error with `http_status` None and code 500 is not absorbed, although the `or` lookup would give 500 |
| `Servers.FetchServer` | chef_validator/engine/clients/nova.py:126-149 | the snapshot; `None` exactly for over-limit or 500/503 client errors; every other error propagates unchanged |
| `Servers.GetServer` | chef_validator/engine/clients/nova.py:113-124 | the snapshot; not-found becomes EntityNotFound('Server', id), whose entity name is always `Server`; other errors propagate |
| `Servers.Server.Load` | chef_validator/engine/clients/nova.py:157 | the object's modelled attributes become those of the new read (see "## Left out" for attributes a read lacks) |
| `Servers.RefreshServer` | chef_validator/engine/clients/nova.py:151-171 | a successful read replaces the server's state; on any error the state is unchanged; only transient errors are swallowed |
| `Servers.GetIp` | chef_validator/engine/clients/nova.py:173-178 | the address of the first entry of that network with that IP version; `None` iff there is none |
| `ServerStatus.GetStatus` | chef_validator/engine/clients/nova.py:187 | the result is the prefix of the status before the first `(`, and holds no `(` |
| `ServerStatus.GetStatusPlain` | chef_validator/engine/clients/nova.py:187 | a status without `(` is unchanged |
| `ServerStatus.GetStatusDropsSuffix` | chef_validator/engine/clients/nova.py:186-187 | `P(anything` normalises to `P`, e.g. `ACTIVE(foo)` to `ACTIVE` |
| `ServerStatus.GetStatusIdempotent` | chef_validator/engine/clients/nova.py:187 | normalising twice equals normalising once |
| `ServerStatus.StatusVocabularyDisjoint` | chef_validator/engine/clients/nova.py:45-54 | ten distinct deferred statuses, none of them ACTIVE, ERROR, DELETED or SOFT_DELETED |
| `ServerStatus.ClassifyActive` | chef_validator/engine/clients/nova.py:213-227 | deferred iff not yet; ACTIVE iff done; ERROR iff in error with message and code defaulting to Unknown; anything else iff unknown status carrying the raw status |
| `ServerStatus.CheckActiveById` | chef_validator/engine/clients/nova.py:201-206 | a transient fetch gives not-yet; a fetched server is classified; other errors propagate; the resource name defaults to `Server` |
| `ServerStatus.CheckActiveObject` | chef_validator/engine/clients/nova.py:207-211 | an ACTIVE server is confirmed untouched; otherwise it is refreshed once in place and its new status classified |
| `ServerStatus.CheckDeleteComplete` | chef_validator/engine/clients/nova.py:380-406 | not-found gives done; nothing fetched or task state `deleting` gives not yet; DELETED/SOFT_DELETED gives done; ERROR gives delete-failed; otherwise not yet |
| `ServerStatus.SuffixIgnoredByActiveCheck` | chef_validator/engine/clients/nova.py:186-216 | a parenthesised suffix does not change the verdict for deferred or active statuses |
| `ServerStatus.TransientReadKeepsPolling` | chef_validator/engine/clients/nova.py:134-149 | a transient error makes both checks answer not-yet instead of failing |
| `ServerStatus.DeletingHidesDeletedStatus` | chef_validator/engine/clients/nova.py:389-392 | task state `deleting` gives not-yet even when the status is DELETED |
| `ServerStatus.NotFoundMeansDeleted` | chef_validator/engine/clients/nova.py:382-386 | a library-built not-found error means the deletion is done |
| `Metadata.MetaSerialize` | chef_validator/engine/clients/nova.py:408-419 | non-mappings fail validation; otherwise the same keys, string values unchanged, every other value JSON-encoded |
| `Metadata.KeysToDelete` | chef_validator/engine/clients/nova.py:425-426 | exactly the current keys absent from the serialised mapping |
| `Metadata.ReconcileCallsShape` | chef_validator/engine/clients/nova.py:427-431 | at most one non-empty delete, issued first and only when some key is stale; a final set carrying the whole mapping |
| `Metadata.ReconcileOnProvider` | chef_validator/engine/clients/nova.py:421-431 | applied to any provider state, the calls leave (provider minus stale keys) overlaid with the desired mapping |
| `Metadata.ReconcileReachesDesired` | chef_validator/engine/clients/nova.py:421-431 | applied to the server's current metadata, the calls leave exactly the desired mapping |
| `Metadata.ComputeApi.DeleteMeta` | chef_validator/engine/clients/nova.py:429 | records one delete call |
| `Metadata.ComputeApi.SetMeta` | chef_validator/engine/clients/nova.py:431 | records one set call |
| `Metadata.MetaUpdate` | chef_validator/engine/clients/nova.py:421-431 | a validation failure makes no call; otherwise exactly the reconciliation calls, in order |
| `Userdata.BuildUserdata` | chef_validator/engine/clients/nova.py:279-373 | RAW returns the user data verbatim; otherwise the attachments of `Attachments`, built by appends; user data, instance user and format default to none, none and the cfntools format as the keyword arguments do |
| `Userdata.FixedPrefix` | chef_validator/engine/clients/nova.py:316-319 | every non-RAW payload starts with cloud-config, boothook.sh, part-handler.py |
| `Userdata.CfnToolsLayout` | chef_validator/engine/clients/nova.py:321-373 | cfntools order: fixed three, cfn-userdata, loguserdata.py, cfn-init-data iff metadata, cfn-watch-server, cfn-metadata-server, cfn-boto-cfg |
| `Userdata.SoftwareConfigLayout` | chef_validator/engine/clients/nova.py:323-348 | each part of multi-part user data becomes one attachment in order, else one `userdata` shell script; the watch server comes last |
| `Userdata.OtherFormatLayout` | chef_validator/engine/clients/nova.py:339-348 | any other format: fixed three, metadata if any, watch server |
| `Userdata.UserStanzaInScripts` | chef_validator/engine/clients/nova.py:296-315 | with an instance user, the cloud-config contains `user: <user>` and the boot hook contains the whole stanza: `useradd -m <user>` and the passwordless sudoers grant |
| `Userdata.NoUserNoStanza` | chef_validator/engine/clients/nova.py:306-315 | without one, the placeholder is replaced by nothing |
| `Lookups.GetFlavorId` | chef_validator/engine/clients/nova.py:229-248 | the id of the first flavor matching by name or id; FlavorMissing iff none matches |
| `Lookups.ConsoleMethodFor` | chef_validator/engine/clients/nova.py:460-466 | a console call exists exactly for the five console types |
| `Lookups.ConsoleUrlFor` | chef_validator/engine/clients/nova.py:468-477 | the URL; an unavailable-type bad request gives its message; other errors propagate; unknown types are missing keys |
| `Lookups.ConsoleCount` | chef_validator/engine/clients/nova.py:479-480 | the mapping always has five entries |
| `Lookups.ConsoleTypesDistinct` | chef_validator/engine/clients/nova.py:460-466 | the five types are distinct and both VNC types share one call |
| `Lookups.UnavailableMessageIsUrl` | chef_validator/engine/clients/nova.py:471-475 | a bad request mentioning the unavailable type anywhere yields its message as the URL |
| `AuthPassword.BuildUserHeaders` | chef_validator/api/middleware/auth_password.py:77-112 | exactly nine entries; Confirmed; user from `user`; v3 takes project, roles, auth_token, no catalog, wraps the token; any other version takes tenant, user roles, catalog, token id |
| `AuthPassword.RolesHeaderRoundTrip` | chef_validator/api/middleware/auth_password.py:86-97 | splitting the roles header at commas gives back the role names in order |
| `AuthPassword.RejectRequest` | chef_validator/api/middleware/auth_password.py:70-75 | 401 with `WWW-Authenticate: Keystone uri='<auth_url>'` |
| `AuthPassword.ChallengeNamesUrl` | chef_validator/api/middleware/auth_password.py:73 | the challenge holds the auth URL verbatim between its quotes |
| `AuthPassword.Call` | chef_validator/api/middleware/auth_password.py:41-68 | a missing or empty user is rejected without asking the identity service; the four failures reject; success extends the environment with the headers and passes the request on |

## Left out

- Client construction (`_create`, `nova.py:59-93`): endpoint lookup, extension discovery and the library constructor are foreign calls.
- `get_keypair`, `server_to_ipaddress`, `absolute_limits`, `get_net_id_by_label` and `get_nova_network_id` (`nova.py:250-260`, `433-509`): thin wrappers over provider calls; `is_uuid_like` is not part of this model.
- MIME serialisation (`make_subpart`, `MIMEMultipart`, `as_string`): the model stops at the attachment list. The subtype a part gets from its file name when none is given is not modelled.
- Template file contents, `string.Template` parsing and `urlparse`: templates are given already split at their placeholder. Host names are given already extracted. The multi-part parser is a function that gives the parts or `None`, and nothing parses out of a missing user data.
- `ignore_not_found` lives in a base class that is not part of this model. It is taken to re-raise anything that is not not-found.
- JSON encoding is the caller's `dumps`. JSON values hold integers only; floating-point numbers are not modelled.
- Logging, translation markers, global configuration (passed in as `Settings`), the identity-service session and its `get_access` call (the `authenticate` function), the webob response object and `filter_factory`.
- Servers.Server.Load: a re-read replaces every modelled attribute, with `fault` as `map[]` and `taskState` as `None` when the read has none. The library's `server.get()` copies only the attributes present in the new read, so an attribute the read lacks (such as `fault` after a server leaves ERROR) keeps its old value there; that stale carry-over is not modelled.
- Servers.Snapshot: the fault code is held as the text it prints as.
- Metadata.MetaUpdate: the keys handed to `delete_meta` form a set. Their list order is not modelled.
- AuthPassword.TokenInfo: a token in the older shape whose `version` is `v3` is not representable. The code would fail on it with a key error.
- AuthPassword.Header: an environment entry for a header that is not a string is read as missing.
