/** Runs of the authorization service: any interleaving of its transactions, with the three transactions of
    a consent as separate steps and every clock reading chosen freely. Random draws never repeat. */
module OAuthRuns {
  import opened Wrappers
  import opened OAuth

  /** What an authorization request asked for when it was made. */
  datatype Request = Request(clientId: ClientId, challenge: string)

  /** One call that finishes a consent: the request, what its first transaction read, and whether the
      administrator's password has been checked. */
  datatype Consent = Consent(request: Digest, pending: string, secret: string, data: Data, clientId: ClientId,
                             approved: bool, address: string, password: bool)

  /** The exchange that started a token family. */
  datatype Redemption = Redemption(code: Digest, verifier: string, clientId: ClientId, refreshExpiry: int)

  /** Everything ever drawn, every request made, every code issued and every family started. */
  datatype History = History(drawn: set<Digest>, requests: map<Digest, Request>, codes: map<Digest, Consent>,
                             families: map<Family, Redemption>)

  datatype World = World(tables: Tables, sessions: map<nat, Consent>, history: History)

  datatype Step =
    | CreateStep(id: ClientId, client: Client)
    | UpdateStep(id: ClientId, patch: Patch)
    | RevokeClientStep(id: ClientId, delete: bool)
    | BeginStep(request: AuthRequest, raw: string, now: int)
    | PrepareStep(pending: string, secret: string, now: int)
    | ConfirmStep(session: nat, pending: string, secret: string, csrf: string, approved: bool, address: string, now: int)
    | PasswordStep(session: nat, correct: bool, now: int)
    | FinishStep(session: nat, code: string, now: int)
    | AbandonStep(session: nat)
    | ExchangeStep(clientId: ClientId, snapshot: Client, token: TokenRequest, draws: Draws, now: int)
    | VerifyStep(raw: string, now: int)
    | RevokeTokenStep(clientId: ClientId, raw: string)

  const Start := World(Tables(map[], map[], map[]), map[], History({}, map[], map[], map[]))

  function BeginNext(env: Env, w: World, r: AuthRequest, raw: string, now: int): World
  {
    var out := BeginAuthorization(env, w.tables, r, raw, now);
    var d := env.digest(raw);
    if d in w.history.drawn || out.result.Err? then w
    else
      w.(tables := out.tables,
         history := w.history.(drawn := w.history.drawn + {d},
                               requests := w.history.requests[d := Request(r.clientId, r.challenge)]))
  }

  function ConfirmNext(env: Env, w: World, sid: nat, pending: string, secret: string, csrf: string, approved: bool,
                       address: string, now: int): World
  {
    var out := CheckConsent(env, w.tables, pending, secret, csrf, now);
    var d := env.digest(pending);
    if sid in w.sessions || out.Err? || d !in w.tables.artifacts then w
    else
      w.(sessions := w.sessions[sid :=
           Consent(d, pending, secret, out.value, w.tables.artifacts[d].clientId, approved, address, false)])
  }

  /** A refused attempt ends the call; the attempt stays counted. */
  function PasswordNext(env: Env, w: World, sid: nat, correct: bool, now: int): World
  {
    if sid !in w.sessions || !w.sessions[sid].approved || w.sessions[sid].password then w
    else
      var out := CountLogin(env, w.tables, w.sessions[sid].address, now);
      w.(tables := out.tables,
         sessions := if out.result.Err? || !correct then w.sessions - {sid}
                     else w.sessions[sid := w.sessions[sid].(password := true)])
  }

  function FinishNext(env: Env, w: World, sid: nat, code: string, now: int): World
  {
    if sid !in w.sessions || w.sessions[sid].approved != w.sessions[sid].password then w
    else
      var s := w.sessions[sid];
      var out := CompleteConsent(env, w.tables, s.pending, s.secret, s.data, s.approved, s.address, code, now);
      if out.result.Err? || out.result.value.None? then World(out.tables, w.sessions - {sid}, w.history)
      else if env.digest(code) in w.history.drawn then w
      else
        World(out.tables, w.sessions - {sid},
              w.history.(drawn := w.history.drawn + {env.digest(code)},
                         codes := w.history.codes[env.digest(code) := s]))
  }

  predicate FreshDraws(env: Env, h: History, draws: Draws)
  {
    draws.family !in h.families && env.digest(draws.access) !in h.drawn && env.digest(draws.refresh) !in h.drawn
    && env.digest(draws.access) != env.digest(draws.refresh)
  }

  function ExchangeNext(env: Env, w: World, clientId: ClientId, snapshot: Client, r: TokenRequest, draws: Draws,
                        now: int): World
  {
    var out := Exchange(env, w.tables, clientId, snapshot, r, draws, now);
    if out.result.Err? then w.(tables := out.tables)
    else if !FreshDraws(env, w.history, draws) then w
    else
      w.(tables := out.tables,
         history := if r.grant.AuthorizationCode? then RedeemedHistory(env, w.history, clientId, r, draws, now)
                    else w.history.(drawn := w.history.drawn + DrawnTokens(env, draws)))
  }

  function DrawnTokens(env: Env, draws: Draws): set<Digest>
  {
    {env.digest(draws.access), env.digest(draws.refresh)}
  }

  function RedeemedHistory(env: Env, h: History, clientId: ClientId, r: TokenRequest, draws: Draws, now: int): History
  {
    h.(drawn := h.drawn + DrawnTokens(env, draws),
       families := h.families[draws.family :=
         Redemption(env.digest(r.credential), r.verifier, clientId, now + env.refreshSeconds)])
  }

  function VerifyNext(env: Env, w: World, raw: string, now: int): World
  {
    match VerifyAccess(env, w.tables, raw, now)
    case None => w
    case Some(token) => w.(tables := w.tables.(clients := TouchClient(w.tables.clients, token.clientId, now)))
  }

  function Next(env: Env, w: World, s: Step): World
  {
    match s
    case CreateStep(id, client) => w.(tables := CreateClient(env, w.tables, id, client).tables)
    case UpdateStep(id, patch) => w.(tables := UpdateClient(w.tables, id, patch).tables)
    case RevokeClientStep(id, delete) => w.(tables := RevokeClient(w.tables, id, delete).tables)
    case BeginStep(r, raw, now) => BeginNext(env, w, r, raw, now)
    case PrepareStep(pending, secret, now) => w.(tables := PrepareConsent(env, w.tables, pending, secret, now).tables)
    case ConfirmStep(sid, pending, secret, csrf, approved, address, now) =>
      ConfirmNext(env, w, sid, pending, secret, csrf, approved, address, now)
    case PasswordStep(sid, correct, now) => PasswordNext(env, w, sid, correct, now)
    case FinishStep(sid, code, now) => FinishNext(env, w, sid, code, now)
    case AbandonStep(sid) => w.(sessions := w.sessions - {sid})
    case ExchangeStep(clientId, snapshot, r, draws, now) => ExchangeNext(env, w, clientId, snapshot, r, draws, now)
    case VerifyStep(raw, now) => VerifyNext(env, w, raw, now)
    case RevokeTokenStep(clientId, raw) => w.(tables := RevokeToken(env, w.tables, clientId, raw))
  }

  function Run(env: Env, w: World, steps: seq<Step>): World
  {
    if steps == [] then w else Next(env, Run(env, w, steps[..|steps| - 1]), steps[|steps| - 1])
  }

  // ---- the invariant ----

  /** The consent is for a request made by the same client with the same challenge. */
  predicate ConsentOk(h: History, s: Consent)
  {
    s.data.AuthData? && s.request in h.requests && h.requests[s.request] == Request(s.clientId, s.data.challenge)
  }

  predicate FamilyOk(env: Env, h: History, f: Family)
    requires f in h.families
  {
    var r := h.families[f];
    r.code in h.codes && r.clientId == h.codes[r.code].clientId
    && h.codes[r.code].data.AuthData? && env.s256(r.verifier) == h.codes[r.code].data.challenge
  }

  predicate RowOk(h: History, d: Digest, row: Artifact)
  {
    d in h.drawn &&
    match row.kind
    case Pending =>
      row.data.AuthData? && row.family.None? && d in h.requests
      && h.requests[d] == Request(row.clientId, row.data.challenge)
    case Code =>
      d in h.codes && row.data == h.codes[d].data && row.clientId == h.codes[d].clientId
      && row.consumed == row.family.Some?
      && (row.family.Some? ==> row.family.value in h.families && h.families[row.family.value].code == d)
    case Access =>
      row.family.Some? && row.family.value in h.families && h.families[row.family.value].clientId == row.clientId
    case Refresh =>
      row.family.Some? && row.family.value in h.families && h.families[row.family.value].clientId == row.clientId
      && h.families[row.family.value].refreshExpiry == row.expiresAt
  }

  ghost predicate RowsOk(h: History, rows: map<Digest, Artifact>)
  {
    forall d :: d in rows ==> RowOk(h, d, rows[d])
  }

  ghost predicate HistoryOk(env: Env, h: History)
  {
    (forall c :: c in h.codes ==> c in h.drawn && ConsentOk(h, h.codes[c]) && h.codes[c].approved && h.codes[c].password)
    && (forall r :: r in h.requests ==> r in h.drawn)
    && (forall f :: f in h.families ==> FamilyOk(env, h, f))
  }

  ghost predicate SessionsOk(h: History, sessions: map<nat, Consent>, env: Env)
  {
    forall k :: k in sessions ==> ConsentOk(h, sessions[k]) && env.digest(sessions[k].pending) == sessions[k].request
  }

  /** A request yields at most one code. */
  ghost predicate OneCode(h: History)
  {
    forall a, b :: a in h.codes && b in h.codes && h.codes[a].request == h.codes[b].request ==> a == b
  }

  /** A code yields at most one family. */
  ghost predicate OneFamily(h: History)
  {
    forall f, g :: f in h.families && g in h.families && h.families[f].code == h.families[g].code ==> f == g
  }

  ghost predicate RequestsUsed(h: History, rows: map<Digest, Artifact>)
  {
    forall c :: c in h.codes && h.codes[c].request in rows ==> rows[h.codes[c].request].consumed
  }

  ghost predicate CodesUsed(h: History, rows: map<Digest, Artifact>)
  {
    forall f :: f in h.families && h.families[f].code in rows ==> rows[h.families[f].code].consumed
  }

  predicate LiveRefresh(row: Artifact)
  {
    row.kind == Refresh && !row.consumed && !row.revoked
  }

  /** A family has at most one live refresh token. */
  ghost predicate OneLive(rows: map<Digest, Artifact>)
  {
    forall a, b | a in rows && b in rows && LiveRefresh(rows[a]) && LiveRefresh(rows[b])
      :: rows[a].family == rows[b].family ==> a == b
  }

  /** The rows of a family are revoked together. */
  ghost predicate RevokedTogether(rows: map<Digest, Artifact>)
  {
    forall a, b | a in rows && b in rows && rows[a].family.Some? && rows[a].family == rows[b].family
      :: rows[a].revoked == rows[b].revoked
  }

  ghost predicate TablesInv(h: History, rows: map<Digest, Artifact>)
  {
    RowsOk(h, rows) && RequestsUsed(h, rows) && CodesUsed(h, rows) && OneLive(rows) && RevokedTogether(rows)
  }

  ghost predicate HistoryInv(env: Env, h: History)
  {
    HistoryOk(env, h) && OneCode(h) && OneFamily(h)
  }

  ghost predicate Inv(env: Env, w: World)
  {
    TablesInv(w.history, w.tables.artifacts) && HistoryInv(env, w.history) && SessionsOk(w.history, w.sessions, env)
  }
}
