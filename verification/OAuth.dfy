/** The OAuth authorization-code, PKCE and refresh-rotation store: two tables and a login-limit table,
    changed by transactions. A transaction that raises an error leaves the tables as they were, except
    that a detected reuse is committed before its error is raised. */
module OAuth {
  import opened Text
  import opened Wrappers

  type Digest = string
  type Family = string
  type ClientId = string

  const SCOPE := "mcp"
  const MAX_PENDING := 2000
  const PENDING_SECONDS := 600
  const CODE_SECONDS := 300
  const LOGIN_ATTEMPTS := 10
  const LOGIN_WINDOW := 900

  /** The hash functions, and the settings of the service. */
  datatype Env = Env(digest: string -> Digest, s256: string -> string, resource: string,
                     accessSeconds: int, refreshSeconds: int, maxClients: nat)

  datatype Client = Client(name: string, redirects: seq<string>, refreshGrant: bool, active: bool, lastUsed: int)

  const ACTIVE := "active"
  const DISABLED := "disabled"

  datatype Field = Unset | NotText | Given(value: string)

  /** A requested change of a client; `others` says that it names further fields. */
  datatype Patch = Patch(name: Field, status: Field, others: bool)

  const DISABLING := Patch(Unset, Given(DISABLED), false)

  datatype Kind = Pending | Code | Access | Refresh

  datatype Data =
    | AuthData(redirectUri: string, explicitRedirect: bool, state: Option<string>, challenge: string,
               resource: string, browserHash: Option<string>)
    | TokenData(resource: string)

  datatype Artifact = Artifact(kind: Kind, clientId: ClientId, family: Option<Family>, data: Data,
                               expiresAt: int, consumed: bool, revoked: bool)

  datatype LoginLimit = LoginLimit(attempts: nat, resetAt: int)

  datatype Tables = Tables(clients: map<ClientId, Client>, artifacts: map<Digest, Artifact>,
                           limits: map<Digest, LoginLimit>)

  datatype Error =
    | InvalidClient | InvalidGrant | InvalidRequest | InvalidScope | InvalidTarget
    | UnsupportedResponseType | UnsupportedGrantType | TemporarilyUnavailable
    | AccessDenied(status: int) | RegistrationLimit | KeyCollision | InvalidValue

  datatype Outcome<T> = Outcome(tables: Tables, result: Result<T, Error>)

  datatype AuthRequest = AuthRequest(clientId: ClientId, redirectUri: Option<string>, responseType: string,
                                     challengeMethod: string, challenge: string, resource: Option<string>,
                                     scope: Option<string>, state: Option<string>)

  datatype Grant = AuthorizationCode | RefreshToken | OtherGrant

  datatype TokenRequest = TokenRequest(grant: Grant, credential: string, resource: Option<string>,
                                       redirectUri: Option<string>, verifier: string, scope: Option<string>)

  /** The random values a token response draws. */
  datatype Draws = Draws(family: Family, access: string, refresh: string)

  datatype Tokens = Tokens(access: string, refresh: Option<string>)

  datatype AccessToken = AccessToken(clientId: ClientId, expiresAt: int)

  // ---- shared checks ----

  predicate IsUrlChar(c: char)
  {
    'A' <= c <= 'Z' || 'a' <= c <= 'z' || '0' <= c <= '9' || c == '_' || c == '-'
  }

  predicate IsChallenge(s: string)
  {
    |s| == 43 && forall i :: 0 <= i < |s| ==> IsUrlChar(s[i])
  }

  predicate IsVerifier(s: string)
  {
    43 <= |s| <= 128 && forall i :: 0 <= i < |s| ==> IsUrlChar(s[i]) || s[i] == '.' || s[i] == '~'
  }

  predicate ResourceAllowed(env: Env, value: Option<string>)
  {
    value.None? || value.value == env.resource
  }

  predicate ScopeAllowed(scope: Option<string>)
  {
    scope.None? || scope.value == SCOPE
  }

  predicate ActiveClient(t: Tables, id: ClientId)
  {
    id in t.clients && t.clients[id].active
  }

  /** The artifact is in the table with this kind, neither revoked nor expired. */
  predicate Usable(t: Tables, d: Digest, kind: Kind, now: int)
  {
    d in t.artifacts && t.artifacts[d].kind == kind && !t.artifacts[d].revoked && t.artifacts[d].expiresAt > now
  }

  function DataResource(data: Data): string
  {
    match data
    case AuthData(_, _, _, _, resource, _) => resource
    case TokenData(resource) => resource
  }

  function Fail<T>(t: Tables, e: Error): Outcome<T>
  {
    Outcome(t, Err(e))
  }

  // ---- bulk updates ----

  function RevokeWhere(artifacts: map<Digest, Artifact>, family: Option<Family>): map<Digest, Artifact>
  {
    map d | d in artifacts ::
      if family.Some? && artifacts[d].family == family then artifacts[d].(revoked := true) else artifacts[d]
  }

  function RevokeClientArtifacts(artifacts: map<Digest, Artifact>, id: ClientId): map<Digest, Artifact>
  {
    map d | d in artifacts ::
      if artifacts[d].clientId == id then artifacts[d].(revoked := true) else artifacts[d]
  }

  function PurgeExpired(artifacts: map<Digest, Artifact>, now: int): map<Digest, Artifact>
  {
    map d | d in artifacts && artifacts[d].expiresAt > now :: artifacts[d]
  }

  function DropClientArtifacts(artifacts: map<Digest, Artifact>, id: ClientId): map<Digest, Artifact>
  {
    map d | d in artifacts && artifacts[d].clientId != id :: artifacts[d]
  }

  function PendingDigests(artifacts: map<Digest, Artifact>): set<Digest>
  {
    set d | d in artifacts && artifacts[d].kind == Pending
  }

  function TouchClient(clients: map<ClientId, Client>, id: ClientId, now: int): map<ClientId, Client>
  {
    if id in clients then clients[id := clients[id].(lastUsed := now)] else clients
  }

  // ---- clients ----

  function CreateClient(env: Env, t: Tables, id: ClientId, client: Client): Outcome<ClientId>
  {
    if |t.clients| >= env.maxClients then Fail(t, RegistrationLimit)
    else if id in t.clients then Fail(t, KeyCollision)
    else Outcome(t.(clients := t.clients[id := client.(active := true)]), Ok(id))
  }

  predicate NameAccepted(f: Field)
  {
    match f
    case Unset => true
    case NotText => false
    case Given(name) => !Blank(name) && |name| <= 200
  }

  predicate StatusAccepted(f: Field)
  {
    match f
    case Unset => true
    case NotText => false
    case Given(status) => status == ACTIVE || status == DISABLED
  }

  function UpdateClient(t: Tables, id: ClientId, p: Patch): Outcome<()>
  {
    if p.others || (p.name.Unset? && p.status.Unset?) then Fail(t, InvalidValue)
    else if id !in t.clients then Fail(t, InvalidClient)
    else if !NameAccepted(p.name) || !StatusAccepted(p.status) then Fail(t, InvalidValue)
    else
      var before := t.clients[id];
      var status := if p.status.Given? then p.status.value == ACTIVE else before.active;
      var client := before.(name := if p.name.Given? then Strip(p.name.value) else before.name, active := status);
      Outcome(t.(clients := t.clients[id := client],
                 artifacts := if status then t.artifacts else RevokeClientArtifacts(t.artifacts, id)), Ok(()))
  }

  function RevokeClient(t: Tables, id: ClientId, delete: bool): Outcome<()>
  {
    if id !in t.clients then Fail(t, InvalidClient)
    else if delete then
      Outcome(t.(clients := t.clients - {id}, artifacts := DropClientArtifacts(t.artifacts, id)), Ok(()))
    else Outcome(t.(artifacts := RevokeClientArtifacts(t.artifacts, id)), Ok(()))
  }

  // ---- authorization requests ----

  function ChosenRedirect(client: Client, r: AuthRequest): Option<string>
  {
    if (r.redirectUri.None? || r.redirectUri.value == "") && |client.redirects| == 1 then Some(client.redirects[0])
    else r.redirectUri
  }

  function BeginAuthorization(env: Env, t: Tables, r: AuthRequest, raw: string, now: int): Outcome<string>
  {
    if !ActiveClient(t, r.clientId) then Fail(t, InvalidClient)
    else
      var redirect := ChosenRedirect(t.clients[r.clientId], r);
      if redirect.None? || redirect.value !in t.clients[r.clientId].redirects then Fail(t, InvalidRequest)
      else if r.responseType != "code" then Fail(t, UnsupportedResponseType)
      else if r.challengeMethod != "S256" || !IsChallenge(r.challenge) then Fail(t, InvalidRequest)
      else if !ResourceAllowed(env, r.resource) then Fail(t, InvalidTarget)
      else if !ScopeAllowed(r.scope) then Fail(t, InvalidScope)
      else
        var kept := PurgeExpired(t.artifacts, now);
        if |PendingDigests(kept)| >= MAX_PENDING then Fail(t, TemporarilyUnavailable)
        else if env.digest(raw) in kept then Fail(t, KeyCollision)
        else
          var data := AuthData(redirect.value, r.redirectUri.Some?, r.state, r.challenge, env.resource, None);
          Outcome(t.(artifacts := kept[env.digest(raw) :=
                    Artifact(Pending, r.clientId, None, data, now + PENDING_SECONDS, false, false)]), Ok(raw))
  }

  function PrepareConsent(env: Env, t: Tables, pending: string, secret: string, now: int): Outcome<string>
  {
    var d := env.digest(pending);
    if !Usable(t, d, Pending, now) then Fail(t, InvalidGrant)
    else
      var row := t.artifacts[d];
      if row.consumed then Fail(t, InvalidGrant)
      else if !ActiveClient(t, row.clientId) then Fail(t, InvalidClient)
      else if DataResource(row.data) != env.resource then Fail(t, InvalidTarget)
      else if !row.data.AuthData? then Fail(t, InvalidValue)
      else
        Outcome(t.(artifacts := t.artifacts[d := row.(data := row.data.(browserHash := Some(env.digest(secret))))]),
                Ok(secret))
  }

  // ---- the three transactions of a consent ----

  /** First transaction: the browser confirmation. It changes nothing and returns the request's data. */
  function CheckConsent(env: Env, t: Tables, pending: string, secret: string, csrf: string, now: int): Result<Data, Error>
  {
    var d := env.digest(pending);
    if !Usable(t, d, Pending, now) then Err(InvalidGrant)
    else
      var row := t.artifacts[d];
      if DataResource(row.data) != env.resource then Err(InvalidTarget)
      else if !ActiveClient(t, row.clientId) then Err(InvalidClient)
      else if row.consumed || secret == "" || secret != csrf || !row.data.AuthData?
              || row.data.browserHash != Some(env.digest(secret))
      then Err(AccessDenied(403))
      else Ok(row.data)
  }

  function LiveLimits(limits: map<Digest, LoginLimit>, now: int): map<Digest, LoginLimit>
  {
    map k | k in limits && limits[k].resetAt > now :: limits[k]
  }

  /** Second transaction, for approvals only: the attempt is counted whether or not the password fits. */
  function CountLogin(env: Env, t: Tables, address: string, now: int): Outcome<()>
  {
    var limits := LiveLimits(t.limits, now);
    var key := env.digest(address);
    if key in limits && limits[key].attempts >= LOGIN_ATTEMPTS then Fail(t, AccessDenied(429))
    else
      var entry := if key in limits then limits[key].(attempts := limits[key].attempts + 1)
                   else LoginLimit(1, now + LOGIN_WINDOW);
      Outcome(t.(limits := limits[key := entry]), Ok(()))
  }

  /** Third transaction: the request is used up and, when approved, a code is issued with the data the
      first transaction read. */
  function CompleteConsent(env: Env, t: Tables, pending: string, secret: string, data: Data, approved: bool,
                           address: string, code: string, now: int): Outcome<Option<string>>
  {
    var d := env.digest(pending);
    if !Usable(t, d, Pending, now) then Fail(t, InvalidGrant)
    else
      var row := t.artifacts[d];
      if !ActiveClient(t, row.clientId) then Fail(t, InvalidClient)
      else if row.consumed || !row.data.AuthData? || row.data.browserHash != Some(env.digest(secret))
      then Fail(t, InvalidGrant)
      else
        var used := t.artifacts[d := row.(consumed := true)];
        if !approved then Outcome(t.(artifacts := used), Ok(None))
        else if env.digest(code) in used then Fail(t, KeyCollision)
        else
          Outcome(t.(artifacts := used[env.digest(code) :=
                       Artifact(Code, row.clientId, None, data, now + CODE_SECONDS, false, false)],
                     limits := t.limits - {env.digest(address)}), Ok(Some(code)))
  }

  // ---- tokens ----

  function Mint(env: Env, t: Tables, clientId: ClientId, family: Family, refreshExpiry: int, issueRefresh: bool,
                draws: Draws, now: int): Option<Tables>
  {
    var access := Artifact(Access, clientId, Some(family), TokenData(env.resource), now + env.accessSeconds, false, false);
    var refresh := Artifact(Refresh, clientId, Some(family), TokenData(env.resource), refreshExpiry, false, false);
    var a, r := env.digest(draws.access), env.digest(draws.refresh);
    if a in t.artifacts then None
    else if issueRefresh && (r == a || r in t.artifacts) then None
    else
      var minted := t.artifacts[a := access];
      Some(t.(artifacts := if issueRefresh then minted[r := refresh] else minted,
              clients := TouchClient(t.clients, clientId, now)))
  }

  predicate GrantEnabled(snapshot: Client, grant: Grant)
  {
    grant.AuthorizationCode? || (grant.RefreshToken? && snapshot.refreshGrant)
  }

  function KindOf(grant: Grant): Kind
  {
    if grant.AuthorizationCode? then Code else Refresh
  }

  /** What is wrong with presenting a credential, before its use is looked at. */
  function PresentationError(env: Env, t: Tables, clientId: ClientId, snapshot: Client, r: TokenRequest, now: int): Option<Error>
  {
    var d := env.digest(r.credential);
    if !ResourceAllowed(env, r.resource) then Some(InvalidTarget)
    else if !GrantEnabled(snapshot, r.grant) then Some(UnsupportedGrantType)
    else if !ActiveClient(t, clientId) then Some(InvalidClient)
    else if !Usable(t, d, KindOf(r.grant), now) then Some(InvalidGrant)
    else if t.artifacts[d].clientId != clientId then Some(InvalidGrant)
    else if DataResource(t.artifacts[d].data) != env.resource then Some(InvalidTarget)
    else None
  }

  /** What is wrong with redeeming an unused code. */
  function CodeError(env: Env, data: Data, r: TokenRequest): Option<Error>
  {
    if !data.AuthData? then Some(InvalidValue)
    else if r.redirectUri != (if data.explicitRedirect then Some(data.redirectUri) else None) then Some(InvalidGrant)
    else if !IsVerifier(r.verifier) then Some(InvalidGrant)
    else if env.s256(r.verifier) != data.challenge then Some(InvalidGrant)
    else None
  }

  function Issued(t: Tables, minted: Option<Tables>, draws: Draws, issueRefresh: bool): Outcome<Tokens>
  {
    match minted
    case None => Fail(t, KeyCollision)
    case Some(u) => Outcome(u, Ok(Tokens(draws.access, if issueRefresh then Some(draws.refresh) else None)))
  }

  /** `snapshot` is the client as its authentication read it, before this transaction. */
  function Exchange(env: Env, t: Tables, clientId: ClientId, snapshot: Client, r: TokenRequest, draws: Draws,
                    now: int): Outcome<Tokens>
  {
    var problem := PresentationError(env, t, clientId, snapshot, r, now);
    if problem.Some? then Fail(t, problem.value)
    else
      var d := env.digest(r.credential);
      var row := t.artifacts[d];
      if row.consumed then Outcome(t.(artifacts := RevokeWhere(t.artifacts, row.family)), Err(InvalidGrant))
      else if r.grant.AuthorizationCode? then
        var wrong := CodeError(env, row.data, r);
        if wrong.Some? then Fail(t, wrong.value)
        else
          var used := t.(artifacts := t.artifacts[d := row.(consumed := true, family := Some(draws.family))]);
          Issued(t, Mint(env, used, clientId, draws.family, now + env.refreshSeconds, snapshot.refreshGrant, draws, now),
                 draws, snapshot.refreshGrant)
      else if !ScopeAllowed(r.scope) then Fail(t, InvalidScope)
      else if row.family.None? then Fail(t, InvalidValue)
      else
        var used := t.(artifacts := t.artifacts[d := row.(consumed := true)]);
        Issued(t, Mint(env, used, clientId, row.family.value, row.expiresAt, true, draws, now), draws, true)
  }

  function VerifyAccess(env: Env, t: Tables, raw: string, now: int): Option<AccessToken>
  {
    var d := env.digest(raw);
    if !Usable(t, d, Access, now) || !ActiveClient(t, t.artifacts[d].clientId) then None
    else if t.artifacts[d].consumed || DataResource(t.artifacts[d].data) != env.resource then None
    else Some(AccessToken(t.artifacts[d].clientId, t.artifacts[d].expiresAt))
  }

  function RevokeToken(env: Env, t: Tables, clientId: ClientId, raw: string): Tables
  {
    var d := env.digest(raw);
    if d in t.artifacts && t.artifacts[d].clientId == clientId && t.artifacts[d].kind in {Access, Refresh}
    then t.(artifacts := RevokeWhere(t.artifacts, t.artifacts[d].family))
    else t
  }

  /** The service over its database. Each method is one transaction. */
  class Service {
    var clients: map<ClientId, Client>
    var artifacts: map<Digest, Artifact>
    var limits: map<Digest, LoginLimit>

    function State(): Tables
      reads this
    {
      Tables(clients, artifacts, limits)
    }

    constructor ()
      ensures State() == Tables(map[], map[], map[])
    {
      clients, artifacts, limits := map[], map[], map[];
    }

    /** INSERT; a key already present raises an integrity error. */
    method Save(env: Env, kind: Kind, clientId: ClientId, data: Data, expires: int, family: Option<Family>, raw: string)
      returns (saved: bool)
      modifies this`artifacts
      ensures saved <==> env.digest(raw) !in old(artifacts)
      ensures artifacts == if saved
        then old(artifacts)[env.digest(raw) := Artifact(kind, clientId, family, data, expires, false, false)]
        else old(artifacts)
    {
      if env.digest(raw) in artifacts {
        return false;
      }
      artifacts := artifacts[env.digest(raw) := Artifact(kind, clientId, family, data, expires, false, false)];
      return true;
    }

    method Register(env: Env, id: ClientId, client: Client) returns (result: Result<ClientId, Error>)
      modifies this
      ensures Outcome(State(), result) == CreateClient(env, old(State()), id, client)
    {
      if |clients| >= env.maxClients {
        return Err(RegistrationLimit);
      }
      if id in clients {
        return Err(KeyCollision);
      }
      clients := clients[id := client.(active := true)];
      return Ok(id);
    }

    method Update(id: ClientId, p: Patch) returns (result: Result<(), Error>)
      modifies this
      ensures Outcome(State(), result) == UpdateClient(old(State()), id, p)
    {
      if p.others || (p.name.Unset? && p.status.Unset?) {
        return Err(InvalidValue);
      }
      if id !in clients {
        return Err(InvalidClient);
      }
      var client := clients[id];
      if !p.name.Unset? {
        if p.name.NotText? || Blank(p.name.value) || |p.name.value| > 200 {
          return Err(InvalidValue);
        }
        client := client.(name := Strip(p.name.value));
      }
      if !StatusAccepted(p.status) {
        return Err(InvalidValue);
      }
      var status := if p.status.Given? then p.status.value == ACTIVE else client.active;
      clients := clients[id := client.(active := status)];
      if !status {
        artifacts := RevokeClientArtifacts(artifacts, id);
      }
      return Ok(());
    }

    method Revoke(id: ClientId, delete: bool) returns (result: Result<(), Error>)
      modifies this
      ensures Outcome(State(), result) == RevokeClient(old(State()), id, delete)
    {
      if id !in clients {
        return Err(InvalidClient);
      }
      artifacts := RevokeClientArtifacts(artifacts, id);
      if delete {
        DropRevoked(old(artifacts), id);
        artifacts := DropClientArtifacts(artifacts, id);
        clients := clients - {id};
      }
      return Ok(());
    }

    method Begin(env: Env, r: AuthRequest, raw: string, now: int) returns (result: Result<string, Error>)
      modifies this
      ensures Outcome(State(), result) == BeginAuthorization(env, old(State()), r, raw, now)
    {
      if !ActiveClient(State(), r.clientId) {
        return Err(InvalidClient);
      }
      var redirects := clients[r.clientId].redirects;
      var redirect := r.redirectUri;
      if (redirect.None? || redirect.value == "") && |redirects| == 1 {
        redirect := Some(redirects[0]);
      }
      if redirect.None? || redirect.value !in redirects {
        return Err(InvalidRequest);
      }
      if r.responseType != "code" {
        return Err(UnsupportedResponseType);
      }
      if r.challengeMethod != "S256" || !IsChallenge(r.challenge) {
        return Err(InvalidRequest);
      }
      if !ResourceAllowed(env, r.resource) {
        return Err(InvalidTarget);
      }
      if !ScopeAllowed(r.scope) {
        return Err(InvalidScope);
      }
      var before := artifacts;
      artifacts := PurgeExpired(artifacts, now);
      if |PendingDigests(artifacts)| >= MAX_PENDING {
        artifacts := before;
        return Err(TemporarilyUnavailable);
      }
      var data := AuthData(redirect.value, r.redirectUri.Some?, r.state, r.challenge, env.resource, None);
      var saved := Save(env, Pending, r.clientId, data, now + PENDING_SECONDS, None, raw);
      if !saved {
        artifacts := before;
        return Err(KeyCollision);
      }
      return Ok(raw);
    }

    method Prepare(env: Env, pending: string, secret: string, now: int) returns (result: Result<string, Error>)
      modifies this
      ensures Outcome(State(), result) == PrepareConsent(env, old(State()), pending, secret, now)
    {
      var d := env.digest(pending);
      if !Usable(State(), d, Pending, now) {
        return Err(InvalidGrant);
      }
      var row := artifacts[d];
      if row.consumed {
        return Err(InvalidGrant);
      }
      if !ActiveClient(State(), row.clientId) {
        return Err(InvalidClient);
      }
      if DataResource(row.data) != env.resource {
        return Err(InvalidTarget);
      }
      if !row.data.AuthData? {
        return Err(InvalidValue);
      }
      artifacts := artifacts[d := row.(data := row.data.(browserHash := Some(env.digest(secret))))];
      return Ok(secret);
    }

    method Login(env: Env, address: string, now: int) returns (result: Result<(), Error>)
      modifies this
      ensures Outcome(State(), result) == CountLogin(env, old(State()), address, now)
    {
      var live := LiveLimits(limits, now);
      var key := env.digest(address);
      if key in live && live[key].attempts >= LOGIN_ATTEMPTS {
        return Err(AccessDenied(429));
      }
      limits := live;
      if key in limits {
        limits := limits[key := limits[key].(attempts := limits[key].attempts + 1)];
      } else {
        limits := limits[key := LoginLimit(1, now + LOGIN_WINDOW)];
      }
      return Ok(());
    }

    method Complete(env: Env, pending: string, secret: string, data: Data, approved: bool, address: string,
                    code: string, now: int) returns (result: Result<Option<string>, Error>)
      modifies this
      ensures Outcome(State(), result)
           == CompleteConsent(env, old(State()), pending, secret, data, approved, address, code, now)
    {
      var d := env.digest(pending);
      if !Usable(State(), d, Pending, now) {
        return Err(InvalidGrant);
      }
      var row := artifacts[d];
      if !ActiveClient(State(), row.clientId) {
        return Err(InvalidClient);
      }
      if row.consumed || !row.data.AuthData? || row.data.browserHash != Some(env.digest(secret)) {
        return Err(InvalidGrant);
      }
      var before := artifacts;
      artifacts := artifacts[d := row.(consumed := true)];
      if !approved {
        return Ok(None);
      }
      var saved := Save(env, Code, row.clientId, data, now + CODE_SECONDS, None, code);
      if !saved {
        artifacts := before;
        return Err(KeyCollision);
      }
      limits := limits - {env.digest(address)};
      return Ok(Some(code));
    }

    /** Two inserts; on a key collision the caller rolls back. */
    method MintTokens(env: Env, clientId: ClientId, family: Family, refreshExpiry: int, issueRefresh: bool,
                      draws: Draws, now: int) returns (ok: bool)
      modifies this
      ensures ok <==> Mint(env, old(State()), clientId, family, refreshExpiry, issueRefresh, draws, now).Some?
      ensures ok ==> State() == Mint(env, old(State()), clientId, family, refreshExpiry, issueRefresh, draws, now).value
      ensures !ok ==> clients == old(clients) && limits == old(limits)
    {
      var saved := Save(env, Access, clientId, TokenData(env.resource), now + env.accessSeconds, Some(family), draws.access);
      if !saved {
        return false;
      }
      if issueRefresh {
        saved := Save(env, Refresh, clientId, TokenData(env.resource), refreshExpiry, Some(family), draws.refresh);
        if !saved {
          return false;
        }
      }
      clients := TouchClient(clients, clientId, now);
      return true;
    }

    method Token(env: Env, clientId: ClientId, snapshot: Client, r: TokenRequest, draws: Draws, now: int)
      returns (result: Result<Tokens, Error>)
      modifies this
      ensures Outcome(State(), result) == Exchange(env, old(State()), clientId, snapshot, r, draws, now)
    {
      var problem := PresentationError(env, State(), clientId, snapshot, r, now);
      if problem.Some? {
        return Err(problem.value);
      }
      var d := env.digest(r.credential);
      var row := artifacts[d];
      if row.consumed {
        artifacts := RevokeWhere(artifacts, row.family);
        return Err(InvalidGrant);
      }
      var before := artifacts;
      var ok: bool;
      if r.grant.AuthorizationCode? {
        var wrong := CodeError(env, row.data, r);
        if wrong.Some? {
          return Err(wrong.value);
        }
        artifacts := artifacts[d := row.(consumed := true, family := Some(draws.family))];
        ok := MintTokens(env, clientId, draws.family, now + env.refreshSeconds, snapshot.refreshGrant, draws, now);
      } else {
        if !ScopeAllowed(r.scope) {
          return Err(InvalidScope);
        }
        if row.family.None? {
          return Err(InvalidValue);
        }
        artifacts := artifacts[d := row.(consumed := true)];
        ok := MintTokens(env, clientId, row.family.value, row.expiresAt, true, draws, now);
      }
      if !ok {
        artifacts := before;
        return Err(KeyCollision);
      }
      var issued := r.grant.RefreshToken? || snapshot.refreshGrant;
      return Ok(Tokens(draws.access, if issued then Some(draws.refresh) else None));
    }

    method Verify(env: Env, raw: string, now: int) returns (token: Option<AccessToken>)
      modifies this`clients
      ensures token == VerifyAccess(env, old(State()), raw, now)
      ensures clients == if token.Some? then TouchClient(old(clients), token.value.clientId, now) else old(clients)
    {
      token := VerifyAccess(env, State(), raw, now);
      if token.Some? {
        clients := TouchClient(clients, token.value.clientId, now);
      }
    }

    method RevokeByToken(env: Env, clientId: ClientId, raw: string)
      modifies this`artifacts
      ensures State() == RevokeToken(env, old(State()), clientId, raw)
    {
      var d := env.digest(raw);
      if d in artifacts && artifacts[d].clientId == clientId && artifacts[d].kind in {Access, Refresh} {
        artifacts := RevokeWhere(artifacts, artifacts[d].family);
      }
    }
  }

  /** Revoking before deleting leaves the same rows as deleting. */
  lemma DropRevoked(artifacts: map<Digest, Artifact>, id: ClientId)
    ensures DropClientArtifacts(RevokeClientArtifacts(artifacts, id), id) == DropClientArtifacts(artifacts, id)
  {
  }
}
