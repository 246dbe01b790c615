/**
 * The password authentication filter: it authenticates a request's user against the identity
 * service and, on success, adds identity headers to the request before passing it on; otherwise
 * it answers 401 with a challenge naming the identity service.
 */
module AuthPassword {
  import opened Wrappers
  import Json
  import Text

  /** An `{id, name}` record of the token. */
  datatype Ref = Ref(id: string, name: string)

  /** A role of the token; only its name is read. */
  datatype Role = Role(name: string)

  /** The `version` entry of an older-shape token: anything but `v3`, or missing. */
  type V2Version = v: Option<string> | v != Some("v3") witness None

  /**
   * The token information the identity service returns, in its two shapes: the newer, flat one
   * (`version` is `v3`, with `project`, `user`, `roles` and `auth_token`) and the older, nested
   * one (`token.tenant`, `token.id`, `user` with its `roles`, and `serviceCatalog`).
   */
  datatype TokenInfo =
    | V3Token(project: Ref, user: Ref, roles: seq<Role>, authToken: string)
    | V2Token(version: V2Version, tenant: Ref, tokenId: string, user: Ref, userRoles: seq<Role>,
              serviceCatalog: Json.Value)

  /** `token_info.get('version')` */
  function Version(t: TokenInfo): Option<string> {
    match t
    case V3Token(_, _, _, _) => Some("v3")
    case V2Token(v, _, _, _, _, _) => v
  }

  /** The `keystone.token_info` entry: a newer token wrapped as `{'token': t}`, an older one as is. */
  datatype KeystoneTokenInfo = WrappedToken(token: TokenInfo) | BareToken(info: TokenInfo)

  /** A value of the request environment. */
  datatype EnvValue =
    | Str(s: string)
    | NoneValue
    | Catalog(catalog: Json.Value)
    | TokenInfoValue(info: KeystoneTokenInfo)

  const TOKEN_INFO := "keystone.token_info"
  const IDENTITY_STATUS := "HTTP_X_IDENTITY_STATUS"
  const PROJECT_ID := "HTTP_X_PROJECT_ID"
  const PROJECT_NAME := "HTTP_X_PROJECT_NAME"
  const USER_ID := "HTTP_X_USER_ID"
  const USER_NAME := "HTTP_X_USER_NAME"
  const ROLES := "HTTP_X_ROLES"
  const SERVICE_CATALOG := "HTTP_X_SERVICE_CATALOG"
  const AUTH_TOKEN := "HTTP_X_AUTH_TOKEN"

  const HEADER_KEYS: set<string> := {
    TOKEN_INFO, IDENTITY_STATUS, PROJECT_ID, PROJECT_NAME, USER_ID, USER_NAME, ROLES,
    SERVICE_CATALOG, AUTH_TOKEN
  }

  function RoleNames(roles: seq<Role>): (names: seq<string>)
    ensures |names| == |roles|
    ensures forall i :: 0 <= i < |roles| ==> names[i] == roles[i].name
  {
    seq(|roles|, i requires 0 <= i < |roles| => roles[i].name)
  }

  /** The roles header: the role names joined by commas, in order. */
  function RolesHeader(roles: seq<Role>): string {
    Text.JoinWith(",", RoleNames(roles))
  }

  /** The token's project (newer shape) or tenant (older shape). */
  function ProjectOf(t: TokenInfo): Ref {
    match t
    case V3Token(project, _, _, _) => project
    case V2Token(_, tenant, _, _, _, _) => tenant
  }

  /** The token's roles: top-level in the newer shape, the user's in the older one. */
  function RolesOf(t: TokenInfo): seq<Role> {
    match t
    case V3Token(_, _, roles, _) => roles
    case V2Token(_, _, _, _, userRoles, _) => userRoles
  }

  /**
   * `_build_user_headers`: exactly nine entries; the identity is confirmed; project, user,
   * roles and token come from the fields of the token's shape; the newer shape has no service
   * catalog and its token information is wrapped under `token`.
   */
  function BuildUserHeaders(t: TokenInfo): (h: map<string, EnvValue>)
    ensures h.Keys == HEADER_KEYS && |h| == 9
    ensures h[IDENTITY_STATUS] == Str("Confirmed")
    ensures h[USER_ID] == Str(t.user.id) && h[USER_NAME] == Str(t.user.name)
    ensures h[PROJECT_ID] == Str(ProjectOf(t).id) && h[PROJECT_NAME] == Str(ProjectOf(t).name)
    ensures h[ROLES] == Str(RolesHeader(RolesOf(t)))
    ensures Version(t) == Some("v3") ==>
      && t.V3Token?
      && h[TOKEN_INFO] == TokenInfoValue(WrappedToken(t))
      && h[SERVICE_CATALOG] == NoneValue
      && h[AUTH_TOKEN] == Str(t.authToken)
    ensures Version(t) != Some("v3") ==>
      && t.V2Token?
      && h[TOKEN_INFO] == TokenInfoValue(BareToken(t))
      && h[SERVICE_CATALOG] == Catalog(t.serviceCatalog)
      && h[AUTH_TOKEN] == Str(t.tokenId)
  {
    var (info, catalog, authToken) :=
      match t
      case V3Token(_, _, _, token) => (WrappedToken(t), NoneValue, token)
      case V2Token(_, _, tokenId, _, _, serviceCatalog) => (BareToken(t), Catalog(serviceCatalog), tokenId);
    map[
      TOKEN_INFO := TokenInfoValue(info),
      IDENTITY_STATUS := Str("Confirmed"),
      PROJECT_ID := Str(ProjectOf(t).id),
      PROJECT_NAME := Str(ProjectOf(t).name),
      USER_ID := Str(t.user.id),
      USER_NAME := Str(t.user.name),
      ROLES := Str(RolesHeader(RolesOf(t))),
      SERVICE_CATALOG := catalog,
      AUTH_TOKEN := Str(authToken)
    ]
  }

  /**
   * The roles header gives back the role names, in order, when split at commas, provided there
   * is at least one role and no role name holds a comma.
   */
  lemma RolesHeaderRoundTrip(roles: seq<Role>)
    requires |roles| >= 1
    requires forall i :: 0 <= i < |roles| ==> ',' !in roles[i].name
    ensures Text.Split(RolesHeader(roles), ',') == RoleNames(roles)
  {
    assert "," == [','];
    Text.SplitJoin(RoleNames(roles), ',');
  }

  /** A request answer: a 401 challenge, the request passed on to the wrapped application, or an error raised. */
  datatype Response =
    | Challenge(status: int, header: (string, string))
    | PassedToApp
    | Raised(error: string)

  /** `"Keystone uri='%s'" % auth_url`, where a missing URL prints as `None`. */
  function ChallengeValue(authUrl: Option<string>): string {
    "Keystone uri='" + (if authUrl.Some? then authUrl.value else "None") + "'"
  }

  /** `_reject_request`: 401 with a `WWW-Authenticate` challenge naming the identity service. */
  function RejectRequest(authUrl: Option<string>): (r: Response)
    ensures r.Challenge? && r.status == 401
    ensures r.header == ("WWW-Authenticate", ChallengeValue(authUrl))
  {
    Challenge(401, ("WWW-Authenticate", ChallengeValue(authUrl)))
  }

  /** The challenge names the identity service's URL verbatim between `Keystone uri='` and `'`. */
  lemma ChallengeNamesUrl(url: string)
    ensures var v := ChallengeValue(Some(url));
      |v| == |url| + 15 && v[..14] == "Keystone uri='" && v[14..|v| - 1] == url && v[|v| - 1] == '\''
  {
  }

  /** The credentials handed to the identity service. */
  datatype Credentials = Credentials(
    username: Option<string>,
    password: Option<string>,
    tenant: Option<string>,
    authUrl: Option<string>)

  /** What the identity service answers: the token, one of the four handled failures, or another error. */
  datatype AuthResult =
    | Authenticated(token: TokenInfo)
    | Unauthorized
    | Forbidden
    | NotFound
    | AuthorizationFailure
    | OtherAuthError(name: string)

  /** The request environment, which the filter extends in place. */
  class Environ {
    var vars: map<string, EnvValue>

    constructor (vars: map<string, EnvValue>)
      ensures this.vars == vars
    {
      this.vars := vars;
    }
  }

  /** `env.get(key)` for a header, which holds a string or is missing. */
  function Header(vars: map<string, EnvValue>, key: string): Option<string> {
    if key in vars && vars[key].Str? then Some(vars[key].s) else None
  }

  /** `not tenant` */
  predicate IsMissing(v: Option<string>) {
    v.None? || v.value == ""
  }

  /**
   * `__call__`: without a user name (which also serves as tenant) reject at once, without
   * asking the identity service; otherwise ask it once; on one of its four handled failures
   * reject, on any other error raise it, and on success add the identity headers to the
   * environment and pass the request on.
   */
  method Call(env: Environ, authenticate: Credentials -> AuthResult) returns (resp: Response, asked: seq<Credentials>)
    modifies env
    ensures var username := Header(old(env.vars), "HTTP_X_AUTH_USER");
      var authUrl := Header(old(env.vars), "HTTP_X_AUTH_URL");
      var creds := Credentials(username, Header(old(env.vars), "HTTP_X_AUTH_KEY"), username, authUrl);
      && (IsMissing(username) ==> asked == [] && resp == RejectRequest(authUrl) && env.vars == old(env.vars))
      && (!IsMissing(username) ==> asked == [creds] && match authenticate(creds)
          case Authenticated(t) => resp == PassedToApp && env.vars == old(env.vars) + BuildUserHeaders(t)
          case OtherAuthError(name) => resp == Raised(name) && env.vars == old(env.vars)
          case _ => resp == RejectRequest(authUrl) && env.vars == old(env.vars))
  {
    var username := Header(env.vars, "HTTP_X_AUTH_USER");
    var password := Header(env.vars, "HTTP_X_AUTH_KEY");
    var tenant := username;
    var authUrl := Header(env.vars, "HTTP_X_AUTH_URL");
    if IsMissing(tenant) {
      return RejectRequest(authUrl), [];
    }
    var creds := Credentials(username, password, tenant, authUrl);
    asked := [creds];
    match authenticate(creds)
    case Authenticated(t) =>
      env.vars := env.vars + BuildUserHeaders(t);
      resp := PassedToApp;
    case OtherAuthError(name) =>
      resp := Raised(name);
    case _ =>
      resp := RejectRequest(authUrl);
  }
}
