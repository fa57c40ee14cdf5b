/** The promises of the authorization service, for every reachable state. */
module OAuthClaims {
  import opened Wrappers
  import opened OAuth
  import opened OAuthRuns
  import opened OAuthSafety

  ghost predicate Reachable(env: Env, w: World)
  {
    exists steps :: w == Run(env, Start, steps)
  }

  lemma ReachableInv(env: Env, w: World)
    requires Reachable(env, w)
    ensures Inv(env, w)
  {
    var steps :| w == Run(env, Start, steps);
    RunInv(env, steps);
  }

  lemma ReachableRows(env: Env, w: World)
    requires Reachable(env, w)
    ensures RowsOk(w.history, w.tables.artifacts) && RevokedTogether(w.tables.artifacts)
  {
    ReachableInv(env, w);
  }

  /** Refresh tokens of one family share client and expiry, and at most one of them is live. */
  lemma RefreshFamilies(env: Env, w: World, a: Digest, b: Digest)
    requires Reachable(env, w)
    requires var rows := w.tables.artifacts;
             a in rows && b in rows && rows[a].kind == Refresh && rows[b].kind == Refresh && rows[a].family == rows[b].family
    ensures var rows := w.tables.artifacts;
            && rows[a].clientId == rows[b].clientId
            && rows[a].expiresAt == rows[b].expiresAt
            && (LiveRefresh(rows[a]) && LiveRefresh(rows[b]) ==> a == b)
  {
    ReachableInv(env, w);
    assert RowOk(w.history, a, w.tables.artifacts[a]) && RowOk(w.history, b, w.tables.artifacts[b]);
  }

  // ---- errors ----

  /** A request, preparation or completion that fails leaves the tables as they were. */
  lemma BeginRollsBack(env: Env, t: Tables, r: AuthRequest, raw: string, now: int)
    ensures BeginAuthorization(env, t, r, raw, now).result.Err? ==> BeginAuthorization(env, t, r, raw, now).tables == t
  {
  }

  lemma PrepareRollsBack(env: Env, t: Tables, pending: string, secret: string, now: int)
    ensures PrepareConsent(env, t, pending, secret, now).result.Err? ==> PrepareConsent(env, t, pending, secret, now).tables == t
  {
  }

  lemma CompleteRollsBack(env: Env, t: Tables, pending: string, secret: string, data: Data, approved: bool,
                          address: string, raw: string, now: int)
    ensures var out := CompleteConsent(env, t, pending, secret, data, approved, address, raw, now);
            out.result.Err? ==> out.tables == t
  {
  }

  /** So does an exchange, with the one exception of a consumed credential, whose family is revoked although
      the call fails. */
  lemma FailedExchange(env: Env, t: Tables, clientId: ClientId, snapshot: Client, r: TokenRequest, draws: Draws, now: int)
    requires Exchange(env, t, clientId, snapshot, r, draws, now).result.Err?
    ensures var d := env.digest(r.credential);
            var reused := PresentationError(env, t, clientId, snapshot, r, now).None? && t.artifacts[d].consumed;
            Exchange(env, t, clientId, snapshot, r, draws, now).tables
            == if reused then t.(artifacts := RevokeWhere(t.artifacts, t.artifacts[d].family)) else t
  {
  }

  /** The transaction of the step raises an error. */
  predicate Fails(env: Env, w: World, s: Step)
  {
    match s
    case CreateStep(id, client) => CreateClient(env, w.tables, id, client).result.Err?
    case UpdateStep(id, patch) => UpdateClient(w.tables, id, patch).result.Err?
    case RevokeClientStep(id, delete) => RevokeClient(w.tables, id, delete).result.Err?
    case BeginStep(r, raw, now) => BeginAuthorization(env, w.tables, r, raw, now).result.Err?
    case PrepareStep(pending, secret, now) => PrepareConsent(env, w.tables, pending, secret, now).result.Err?
    case FinishStep(sid, code, now) =>
      sid in w.sessions &&
      (var c := w.sessions[sid];
       CompleteConsent(env, w.tables, c.pending, c.secret, c.data, c.approved, c.address, code, now).result.Err?)
    case ExchangeStep(clientId, snapshot, r, draws, now) =>
      Exchange(env, w.tables, clientId, snapshot, r, draws, now).result.Err?
    case _ => false
  }

  /** The step presents a credential that has been consumed. */
  predicate Reuses(env: Env, w: World, s: Step)
  {
    s.ExchangeStep?
    && PresentationError(env, w.tables, s.clientId, s.snapshot, s.token, s.now).None?
    && w.tables.artifacts[env.digest(s.token.credential)].consumed
  }

  /** In the course of a run a failing step commits nothing, save that a reuse revokes the family presented. */
  lemma FailedStepCommitsNothing(env: Env, w: World, s: Step)
    requires Fails(env, w, s)
    ensures Next(env, w, s).history == w.history
    ensures Reuses(env, w, s) ==>
      Next(env, w, s).tables.artifacts
        == RevokeWhere(w.tables.artifacts, w.tables.artifacts[env.digest(s.token.credential)].family)
    ensures !Reuses(env, w, s) ==> Next(env, w, s).tables == w.tables
  {
    match s
    case BeginStep(r, raw, now) => BeginRollsBack(env, w.tables, r, raw, now);
    case PrepareStep(pending, secret, now) => PrepareRollsBack(env, w.tables, pending, secret, now);
    case FinishStep(sid, code, now) =>
      var c := w.sessions[sid];
      CompleteRollsBack(env, w.tables, c.pending, c.secret, c.data, c.approved, c.address, code, now);
    case ExchangeStep(clientId, snapshot, r, draws, now) =>
      FailedExchange(env, w.tables, clientId, snapshot, r, draws, now);
    case _ =>
  }

  // ---- the end of a family ----

  predicate InFamily(rows: map<Digest, Artifact>, d: Digest, f: Family)
  {
    d in rows && rows[d].family == Some(f)
  }

  ghost predicate Dead(rows: map<Digest, Artifact>, f: Family)
  {
    forall d :: InFamily(rows, d, f) ==> rows[d].revoked
  }

  /** The family is dead in `after`, which holds no row of it that `before` did not. */
  ghost predicate DeadSince(before: map<Digest, Artifact>, after: map<Digest, Artifact>, f: Family)
  {
    forall d :: InFamily(after, d, f) ==> after[d].revoked && InFamily(before, d, f)
  }

  /** Minting for one family adds nothing to another. */
  lemma MintElsewhere(env: Env, t: Tables, clientId: ClientId, g: Family, expiry: int, issue: bool, draws: Draws, now: int,
                      u: Tables, f: Family)
    requires Mint(env, t, clientId, g, expiry, issue, draws, now) == Some(u) && f != g && Dead(t.artifacts, f)
    ensures DeadSince(t.artifacts, u.artifacts, f)
  {
  }

  lemma RotateFacts(env: Env, t: Tables, clientId: ClientId, snapshot: Client, r: TokenRequest, draws: Draws, now: int)
    returns (f: Family, used: map<Digest, Artifact>)
    requires Exchange(env, t, clientId, snapshot, r, draws, now).result.Ok? && !r.grant.AuthorizationCode?
    ensures var d := env.digest(r.credential);
            && d in t.artifacts && t.artifacts[d].family == Some(f) && !t.artifacts[d].revoked
            && used == t.artifacts[d := t.artifacts[d].(consumed := true)]
            && Mint(env, t.(artifacts := used), clientId, f, t.artifacts[d].expiresAt, true, draws, now)
               == Some(Exchange(env, t, clientId, snapshot, r, draws, now).tables)
  {
    var d := env.digest(r.credential);
    f := t.artifacts[d].family.value;
    used := t.artifacts[d := t.artifacts[d].(consumed := true)];
  }

  lemma DeadExchange(env: Env, w: World, clientId: ClientId, snapshot: Client, r: TokenRequest, draws: Draws, now: int,
                     f: Family)
    requires f in w.history.families && Dead(w.tables.artifacts, f)
    ensures DeadSince(w.tables.artifacts, ExchangeNext(env, w, clientId, snapshot, r, draws, now).tables.artifacts, f)
  {
    var out := Exchange(env, w.tables, clientId, snapshot, r, draws, now);
    var d := env.digest(r.credential);
    var rows := w.tables.artifacts;
    if out.result.Ok? && FreshDraws(env, w.history, draws) {
      if r.grant.AuthorizationCode? {
        RedeemFacts(env, w.tables, clientId, snapshot, r, draws, now);
        var used := rows[d := rows[d].(consumed := true, family := Some(draws.family))];
        MintElsewhere(env, w.tables.(artifacts := used), clientId, draws.family, now + env.refreshSeconds,
                      snapshot.refreshGrant, draws, now, out.tables, f);
      } else {
        var g, used := RotateFacts(env, w.tables, clientId, snapshot, r, draws, now);
        assert InFamily(rows, d, g);
        MintElsewhere(env, w.tables.(artifacts := used), clientId, g, rows[d].expiresAt, true, draws, now, out.tables, f);
      }
    }
  }

  lemma DeadRequest(env: Env, w: World, s: Step, f: Family)
    requires Dead(w.tables.artifacts, f)
    requires s.BeginStep? || s.PrepareStep?
    ensures DeadSince(w.tables.artifacts, Next(env, w, s).tables.artifacts, f)
  {
  }

  lemma DeadFinish(env: Env, w: World, sid: nat, code: string, now: int, f: Family)
    requires Dead(w.tables.artifacts, f)
    ensures DeadSince(w.tables.artifacts, FinishNext(env, w, sid, code, now).tables.artifacts, f)
  {
  }

  lemma DeadAdmin(env: Env, w: World, s: Step, f: Family)
    requires Dead(w.tables.artifacts, f)
    requires s.UpdateStep? || s.RevokeClientStep? || s.RevokeTokenStep?
    ensures DeadSince(w.tables.artifacts, Next(env, w, s).tables.artifacts, f)
  {
  }

  /** No step revives a dead family or adds a token to it. */
  lemma DeadStep(env: Env, w: World, s: Step, f: Family)
    requires f in w.history.families && Dead(w.tables.artifacts, f)
    ensures DeadSince(w.tables.artifacts, Next(env, w, s).tables.artifacts, f)
    ensures f in Next(env, w, s).history.families
  {
    FamiliesStay(env, w, s, f);
    match s
    case ExchangeStep(clientId, snapshot, r, draws, now) => DeadExchange(env, w, clientId, snapshot, r, draws, now, f);
    case BeginStep(_, _, _) => DeadRequest(env, w, s, f);
    case PrepareStep(_, _, _) => DeadRequest(env, w, s, f);
    case FinishStep(sid, code, now) => DeadFinish(env, w, sid, code, now, f);
    case UpdateStep(_, _) => DeadAdmin(env, w, s, f);
    case RevokeClientStep(_, _) => DeadAdmin(env, w, s, f);
    case RevokeTokenStep(_, _) => DeadAdmin(env, w, s, f);
    case _ =>
  }

  lemma FamiliesStay(env: Env, w: World, s: Step, f: Family)
    requires f in w.history.families
    ensures f in Next(env, w, s).history.families
  {
  }

  lemma {:induction false} DeadForever(env: Env, w: World, steps: seq<Step>, f: Family)
    requires f in w.history.families && Dead(w.tables.artifacts, f)
    ensures f in Run(env, w, steps).history.families
    ensures DeadSince(w.tables.artifacts, Run(env, w, steps).tables.artifacts, f)
  {
    if steps != [] {
      var front := steps[..|steps| - 1];
      DeadForever(env, w, front, f);
      DeadStep(env, Run(env, w, front), steps[|steps| - 1], f);
    }
  }

  lemma DeadAfter(env: Env, w: World, next: World, later: seq<Step>, f: Family)
    requires f in next.history.families && DeadSince(w.tables.artifacts, next.tables.artifacts, f)
    ensures DeadSince(w.tables.artifacts, Run(env, next, later).tables.artifacts, f)
  {
    DeadForever(env, next, later, f);
  }

  /** A token of a dead family neither verifies nor is exchanged. */
  lemma DeadGrantsNothing(env: Env, t: Tables, f: Family, raw: string, clientId: ClientId, snapshot: Client,
                          r: TokenRequest, draws: Draws, now: int)
    requires Dead(t.artifacts, f) && InFamily(t.artifacts, env.digest(raw), f)
    requires r.credential == raw
    ensures VerifyAccess(env, t, raw, now).None?
    ensures Exchange(env, t, clientId, snapshot, r, draws, now).result.Err?
  {
  }

  /** Every token, and every used code, belongs to a family that was started. */
  lemma FamilyOf(h: History, rows: map<Digest, Artifact>, d: Digest) returns (f: Family)
    requires RowsOk(h, rows) && d in rows && !rows[d].kind.Pending? && (rows[d].kind.Code? ==> rows[d].consumed)
    ensures rows[d].family == Some(f) && f in h.families
  {
    assert RowOk(h, d, rows[d]);
    f := rows[d].family.value;
  }

  /** A used code or refresh token, not yet expired, presented by its own active client. */
  predicate PresentedAgain(env: Env, t: Tables, clientId: ClientId, snapshot: Client, r: TokenRequest, now: int)
  {
    var d := env.digest(r.credential);
    d in t.artifacts && t.artifacts[d].kind == KindOf(r.grant) && t.artifacts[d].consumed && t.artifacts[d].expiresAt > now
    && t.artifacts[d].clientId == clientId && DataResource(t.artifacts[d].data) == env.resource
    && ActiveClient(t, clientId) && ResourceAllowed(env, r.resource) && GrantEnabled(snapshot, r.grant)
  }

  /** Reuse fails, and yet ends the family: whatever happens later, none of its tokens is live, none is
      added, and none verifies or can be exchanged. */
  lemma ReuseEndsFamily(env: Env, w: World, clientId: ClientId, snapshot: Client, r: TokenRequest, draws: Draws,
                        now: int, later: seq<Step>)
    requires Reachable(env, w) && PresentedAgain(env, w.tables, clientId, snapshot, r, now)
    ensures var row := w.tables.artifacts[env.digest(r.credential)];
            var reused := Next(env, w, ExchangeStep(clientId, snapshot, r, draws, now));
            && Exchange(env, w.tables, clientId, snapshot, r, draws, now).result == Err(InvalidGrant)
            && row.family.Some?
            && DeadSince(w.tables.artifacts, Run(env, reused, later).tables.artifacts, row.family.value)
  {
    ReachableRows(env, w);
    var f := FamilyOf(w.history, w.tables.artifacts, env.digest(r.credential));
    var s := ExchangeStep(clientId, snapshot, r, draws, now);
    ReuseRevokes(env, w, clientId, snapshot, r, draws, now, f);
    DeadAfter(env, w, Next(env, w, s), later, f);
  }

  lemma ReuseRevokes(env: Env, w: World, clientId: ClientId, snapshot: Client, r: TokenRequest, draws: Draws, now: int, f: Family)
    requires RevokedTogether(w.tables.artifacts) && PresentedAgain(env, w.tables, clientId, snapshot, r, now)
    requires w.tables.artifacts[env.digest(r.credential)].family == Some(f)
    ensures Exchange(env, w.tables, clientId, snapshot, r, draws, now).result == Err(InvalidGrant)
    ensures var after := ExchangeNext(env, w, clientId, snapshot, r, draws, now);
            DeadSince(w.tables.artifacts, after.tables.artifacts, f) && after.history == w.history
  {
    var rows := w.tables.artifacts;
    if rows[env.digest(r.credential)].revoked {
      assert Dead(rows, f);
    }
  }

  lemma RevocationKills(env: Env, t: Tables, clientId: ClientId, raw: string, f: Family)
    requires InFamily(t.artifacts, env.digest(raw), f)
    requires t.artifacts[env.digest(raw)].clientId == clientId && t.artifacts[env.digest(raw)].kind in {Access, Refresh}
    ensures DeadSince(t.artifacts, RevokeToken(env, t, clientId, raw).artifacts, f)
  {
  }

  /** Revoking any of its tokens ends a family in the same way. */
  lemma RevocationEndsFamily(env: Env, w: World, clientId: ClientId, raw: string, later: seq<Step>)
    requires Reachable(env, w)
    requires var t := w.tables;
             var d := env.digest(raw);
             d in t.artifacts && t.artifacts[d].clientId == clientId && t.artifacts[d].kind in {Access, Refresh}
    ensures var row := w.tables.artifacts[env.digest(raw)];
            row.family.Some? &&
            DeadSince(w.tables.artifacts, Run(env, Next(env, w, RevokeTokenStep(clientId, raw)), later).tables.artifacts,
                      row.family.value)
  {
    ReachableRows(env, w);
    var f := FamilyOf(w.history, w.tables.artifacts, env.digest(raw));
    var s := RevokeTokenStep(clientId, raw);
    RevocationKills(env, w.tables, clientId, raw, f);
    DeadAfter(env, w, Next(env, w, s), later, f);
  }

  /** Disabling a client ends every family it owns. */
  lemma DisablingEndsFamilies(env: Env, w: World, id: ClientId, f: Family, later: seq<Step>)
    requires Reachable(env, w)
    requires id in w.tables.clients && f in w.history.families && w.history.families[f].clientId == id
    ensures DeadSince(w.tables.artifacts,
                      Run(env, Next(env, w, UpdateStep(id, DISABLING)), later).tables.artifacts, f)
  {
    ReachableInv(env, w);
    var s := UpdateStep(id, DISABLING);
    DisablingKills(env, w, id, f);
    DeadAfter(env, w, Next(env, w, s), later, f);
  }

  lemma DisablingKills(env: Env, w: World, id: ClientId, f: Family)
    requires Inv(env, w) && id in w.tables.clients && f in w.history.families && w.history.families[f].clientId == id
    ensures var next := Next(env, w, UpdateStep(id, DISABLING));
            f in next.history.families && DeadSince(w.tables.artifacts, next.tables.artifacts, f)
  {
    assert FamilyOk(env, w.history, f);
    var after := Next(env, w, UpdateStep(id, DISABLING)).tables.artifacts;
    forall d | InFamily(after, d, f) ensures after[d].revoked {
      assert RowOk(w.history, d, w.tables.artifacts[d]);
    }
  }

  // ---- where tokens come from ----

  /** The family started with one code, issued by one approved and password-checked consent of the
      client, and redeemed with a verifier that fits the challenge of the client's request. */
  predicate DescendsFromConsent(env: Env, h: History, f: Family, clientId: ClientId)
  {
    f in h.families && h.families[f].clientId == clientId && h.families[f].code in h.codes &&
    var consent := h.codes[h.families[f].code];
    consent.approved && consent.password && consent.clientId == clientId && consent.request in h.requests
    && h.requests[consent.request] == Request(clientId, env.s256(h.families[f].verifier))
  }

  lemma TokenProvenance(env: Env, w: World, raw: string, now: int)
    requires Reachable(env, w) && VerifyAccess(env, w.tables, raw, now).Some?
    ensures var token := VerifyAccess(env, w.tables, raw, now).value;
            var row := w.tables.artifacts[env.digest(raw)];
            && ActiveClient(w.tables, token.clientId)
            && row.family.Some? && DescendsFromConsent(env, w.history, row.family.value, token.clientId)
  {
    ReachableInv(env, w);
    var d := env.digest(raw);
    assert RowOk(w.history, d, w.tables.artifacts[d]);
    var f := w.tables.artifacts[d].family.value;
    assert FamilyOk(env, w.history, f);
    assert ConsentOk(w.history, w.history.codes[w.history.families[f].code]);
  }

  /** A request leads to at most one code and a code to at most one family, over the whole run. */
  lemma OneCodeOneFamily(env: Env, w: World)
    requires Reachable(env, w)
    ensures OneCode(w.history) && OneFamily(w.history)
  {
    ReachableInv(env, w);
  }

  /** A request that led to a code finishes no second consent. */
  lemma RequestIsSpent(env: Env, w: World, code: Digest, s: Consent, next: string, now: int)
    requires Reachable(env, w)
    requires var h := w.history;
             code in h.codes && h.codes[code].request == env.digest(s.pending)
    ensures CompleteConsent(env, w.tables, s.pending, s.secret, s.data, s.approved, s.address, next,
                            now).result.Err?
  {
    ReachableInv(env, w);
    assert RequestsUsed(w.history, w.tables.artifacts);
  }

  /** A code that started a family is redeemed by no second exchange. */
  lemma CodeIsSpent(env: Env, w: World, f: Family, clientId: ClientId, snapshot: Client, r: TokenRequest,
                    draws: Draws, now: int)
    requires Reachable(env, w)
    requires var h := w.history;
             f in h.families && h.families[f].code == env.digest(r.credential) && r.grant.AuthorizationCode?
    ensures Exchange(env, w.tables, clientId, snapshot, r, draws, now).result.Err?
  {
    ReachableInv(env, w);
    assert CodesUsed(w.history, w.tables.artifacts);
  }
}
