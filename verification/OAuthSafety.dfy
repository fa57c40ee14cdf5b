/** What every interleaving of the authorization service's transactions keeps: one live refresh token per
    family, the end of a family on reuse, and the descent of every token from one checked consent. */
module OAuthSafety {
  import opened Wrappers
  import opened OAuth
  import opened OAuthRuns

  // ---- changes to the artifact table that keep its invariant ----

  ghost predicate SubMap<K, V>(a: map<K, V>, b: map<K, V>)
  {
    forall k :: k in a ==> k in b && a[k] == b[k]
  }

  /** The history only grows. */
  ghost predicate Extends(h: History, g: History)
  {
    h.drawn <= g.drawn && SubMap(h.requests, g.requests) && SubMap(h.codes, g.codes) && SubMap(h.families, g.families)
  }

  lemma FewerRows(h: History, rows: map<Digest, Artifact>, kept: map<Digest, Artifact>)
    requires TablesInv(h, rows) && SubMap(kept, rows)
    ensures TablesInv(h, kept)
  {
  }

  lemma RevokeFamilyInv(h: History, rows: map<Digest, Artifact>, family: Option<Family>)
    requires TablesInv(h, rows)
    ensures TablesInv(h, RevokeWhere(rows, family))
  {
    var after := RevokeWhere(rows, family);
    assert RowsOk(h, after) by {
      forall d | d in after ensures RowOk(h, d, after[d]) {
        assert RowOk(h, d, rows[d]);
      }
    }
  }

  /** All rows of a family belong to one client. */
  lemma FamilyHasOneClient(env: Env, h: History, rows: map<Digest, Artifact>, a: Digest, b: Digest)
    requires RowsOk(h, rows) && HistoryOk(env, h) && a in rows && b in rows
    requires rows[a].family.Some? && rows[a].family == rows[b].family
    ensures rows[a].clientId == rows[b].clientId
  {
    assert RowOk(h, a, rows[a]) && RowOk(h, b, rows[b]);
    assert FamilyOk(env, h, rows[a].family.value);
  }

  lemma RevokeClientInv(env: Env, h: History, rows: map<Digest, Artifact>, id: ClientId)
    requires TablesInv(h, rows) && HistoryOk(env, h)
    ensures TablesInv(h, RevokeClientArtifacts(rows, id))
  {
    var after := RevokeClientArtifacts(rows, id);
    assert RowsOk(h, after) by {
      forall d | d in after ensures RowOk(h, d, after[d]) {
        assert RowOk(h, d, rows[d]);
      }
    }
    assert RevokedTogether(after) by {
      forall a, b | a in after && b in after && after[a].family.Some? && after[a].family == after[b].family
        ensures after[a].revoked == after[b].revoked
      {
        FamilyHasOneClient(env, h, rows, a, b);
      }
    }
  }

  /** Rows stay well-formed when the history grows. */
  lemma RowsOkGrow(h: History, g: History, rows: map<Digest, Artifact>)
    requires RowsOk(h, rows) && Extends(h, g)
    ensures RowsOk(g, rows)
  {
    forall d | d in rows ensures RowOk(g, d, rows[d]) {
      assert RowOk(h, d, rows[d]);
    }
  }

  lemma SessionsOkGrow(env: Env, h: History, g: History, sessions: map<nat, Consent>)
    requires SessionsOk(h, sessions, env) && Extends(h, g)
    ensures SessionsOk(g, sessions, env)
  {
    forall k | k in sessions ensures ConsentOk(g, sessions[k]) {
      assert ConsentOk(h, sessions[k]);
    }
  }

  lemma HistoryOkGrow(env: Env, h: History, g: History)
    requires HistoryOk(env, h) && Extends(h, g)
    ensures forall c :: c in h.codes ==> ConsentOk(g, g.codes[c])
    ensures forall f :: f in h.families ==> f in g.families && FamilyOk(env, g, f)
  {
    forall c | c in h.codes ensures ConsentOk(g, g.codes[c]) {
      assert ConsentOk(h, h.codes[c]);
    }
    forall f | f in h.families ensures f in g.families && FamilyOk(env, g, f) {
      assert FamilyOk(env, h, f);
    }
  }

  // ---- requests ----

  lemma BeginInv(env: Env, w: World, r: AuthRequest, raw: string, now: int)
    requires Inv(env, w)
    ensures Inv(env, BeginNext(env, w, r, raw, now))
  {
    var d := env.digest(raw);
    var after := BeginNext(env, w, r, raw, now);
    if after != w {
      var h, g := w.history, after.history;
      var kept := PurgeExpired(w.tables.artifacts, now);
      FewerRows(h, w.tables.artifacts, kept);
      NewRequestHistory(env, h, g, d, Request(r.clientId, r.challenge));
      SessionsOkGrow(env, h, g, w.sessions);
      NewRequestRow(h, g, kept, d, after.tables.artifacts[d]);
      assert after.tables.artifacts == kept[d := after.tables.artifacts[d]];
    }
  }

  lemma NewRequestHistory(env: Env, h: History, g: History, d: Digest, request: Request)
    requires HistoryInv(env, h) && d !in h.drawn
    requires g == h.(drawn := h.drawn + {d}, requests := h.requests[d := request])
    ensures Extends(h, g) && HistoryInv(env, g)
  {
    assert d !in h.requests;
    HistoryOkGrow(env, h, g);
  }

  lemma NewRequestRow(h: History, g: History, rows: map<Digest, Artifact>, d: Digest, row: Artifact)
    requires TablesInv(h, rows) && Extends(h, g) && g.codes == h.codes && g.families == h.families
    requires d !in h.drawn && row.kind == Pending && RowOk(g, d, row)
    requires forall c :: c in h.codes ==> h.codes[c].request in h.drawn && c in h.drawn
    requires forall f :: f in h.families ==> h.families[f].code in h.codes
    ensures TablesInv(g, rows[d := row])
  {
    RowsOkGrow(h, g, rows);
  }

  predicate SameMarks(a: Artifact, b: Artifact)
  {
    a.kind == b.kind && a.family == b.family && a.consumed == b.consumed && a.revoked == b.revoked
  }

  lemma PrepareInv(env: Env, w: World, pending: string, secret: string, now: int)
    requires Inv(env, w)
    ensures Inv(env, w.(tables := PrepareConsent(env, w.tables, pending, secret, now).tables))
  {
    var d := env.digest(pending);
    var out := PrepareConsent(env, w.tables, pending, secret, now);
    if out.result.Ok? {
      var rows, after := w.tables.artifacts, out.tables.artifacts;
      assert RowOk(w.history, d, rows[d]);
      assert RowOk(w.history, d, after[d]);
      assert RowsOk(w.history, after);
      assert forall k :: k in after <==> k in rows;
      assert forall k | k in rows :: SameMarks(after[k], rows[k]);
    }
  }

  lemma ConfirmInv(env: Env, w: World, sid: nat, pending: string, secret: string, csrf: string, approved: bool,
                   address: string, now: int)
    requires Inv(env, w)
    ensures Inv(env, ConfirmNext(env, w, sid, pending, secret, csrf, approved, address, now))
  {
    var after := ConfirmNext(env, w, sid, pending, secret, csrf, approved, address, now);
    if after != w {
      assert RowOk(w.history, env.digest(pending), w.tables.artifacts[env.digest(pending)]);
      assert ConsentOk(w.history, after.sessions[sid]);
    }
  }

  lemma PasswordInv(env: Env, w: World, sid: nat, correct: bool, now: int)
    requires Inv(env, w)
    ensures Inv(env, PasswordNext(env, w, sid, correct, now))
  {
    var after := PasswordNext(env, w, sid, correct, now);
    if sid in w.sessions {
      assert ConsentOk(w.history, w.sessions[sid]);
    }
    assert SessionsOk(after.history, after.sessions, env);
  }

  // ---- codes ----

  lemma FinishInv(env: Env, w: World, sid: nat, code: string, now: int)
    requires Inv(env, w)
    ensures Inv(env, FinishNext(env, w, sid, code, now))
  {
    var after := FinishNext(env, w, sid, code, now);
    if sid in w.sessions && after != w {
      var s := w.sessions[sid];
      assert ConsentOk(w.history, s);
      var out := CompleteConsent(env, w.tables, s.pending, s.secret, s.data, s.approved, s.address, code, now);
      if out.result.Ok? {
        var rows := w.tables.artifacts;
        var used := rows[s.request := rows[s.request].(consumed := true)];
        UseRequest(w.history, rows, s.request);
        if s.approved {
          CodeIssued(env, w, s, used, code, after, now);
        }
      }
    }
  }

  lemma UseRequest(h: History, rows: map<Digest, Artifact>, d: Digest)
    requires TablesInv(h, rows) && d in rows && rows[d].kind == Pending
    ensures TablesInv(h, rows[d := rows[d].(consumed := true)])
  {
    assert RowOk(h, d, rows[d]);
  }

  lemma CodeIssued(env: Env, w: World, s: Consent, used: map<Digest, Artifact>, code: string, after: World, now: int)
    requires Inv(env, w) && ConsentOk(w.history, s) && s.approved && s.password
    requires TablesInv(w.history, used)
    requires s.request in w.tables.artifacts && !w.tables.artifacts[s.request].consumed
    requires w.tables.artifacts[s.request].kind == Pending
    requires used == w.tables.artifacts[s.request := w.tables.artifacts[s.request].(consumed := true)]
    requires env.digest(code) !in w.history.drawn
    requires after.sessions.Keys <= w.sessions.Keys && forall k :: k in after.sessions ==> after.sessions[k] == w.sessions[k]
    requires after.history == w.history.(drawn := w.history.drawn + {env.digest(code)},
                                         codes := w.history.codes[env.digest(code) := s])
    requires after.tables.artifacts == used[env.digest(code) :=
      Artifact(Code, w.tables.artifacts[s.request].clientId, None, s.data, now + CODE_SECONDS, false, false)]
    ensures Inv(env, after)
  {
    var h, g, d := w.history, after.history, env.digest(code);
    assert d !in h.codes;
    assert RowOk(h, s.request, w.tables.artifacts[s.request]);
    assert RequestUnused(h, s.request) by {
      assert RequestsUsed(h, w.tables.artifacts);
    }
    NewCodeHistory(env, h, g, d, s);
    SessionsOkGrow(env, h, g, w.sessions);
    NewCodeRow(h, g, used, d, after.tables.artifacts[d], s);
  }

  ghost predicate RequestUnused(h: History, request: Digest)
  {
    forall c :: c in h.codes ==> h.codes[c].request != request
  }

  lemma NewCodeHistory(env: Env, h: History, g: History, d: Digest, s: Consent)
    requires HistoryInv(env, h) && d !in h.drawn && ConsentOk(h, s) && s.approved && s.password
    requires RequestUnused(h, s.request)
    requires g == h.(drawn := h.drawn + {d}, codes := h.codes[d := s])
    ensures Extends(h, g) && HistoryInv(env, g)
  {
    assert d !in h.codes;
    HistoryOkGrow(env, h, g);
  }

  lemma NewCodeRow(h: History, g: History, rows: map<Digest, Artifact>, d: Digest, row: Artifact, s: Consent)
    requires TablesInv(h, rows) && Extends(h, g) && g.codes == h.codes[d := s] && g.families == h.families
    requires d !in h.drawn && row.kind == Code && row.family.None? && RowOk(g, d, row)
    requires s.request in rows && rows[s.request].consumed
    requires forall c :: c in h.codes ==> h.codes[c].request in h.drawn && c in h.drawn
    requires forall f :: f in h.families ==> h.families[f].code in h.codes
    ensures TablesInv(g, rows[d := row])
  {
    RowsOkGrow(h, g, rows);
    assert d !in rows;
    var after := rows[d := row];
    assert RequestsUsed(g, after) by {
      forall c | c in g.codes && g.codes[c].request in after ensures after[g.codes[c].request].consumed {
        if c != d { assert h.codes[c].request in h.drawn; }
      }
    }
  }

  // ---- tokens ----

  /** A family that is not revoked takes an access token, or a refresh token when it has no live one. */
  lemma TokenRow(h: History, rows: map<Digest, Artifact>, f: Family, d: Digest, row: Artifact)
    requires TablesInv(h, rows) && d !in rows && RowOk(h, d, row)
    requires row.kind.Access? || row.kind.Refresh?
    requires row.family == Some(f) && !row.revoked
    requires row.kind.Refresh? ==> NoneLive(rows, f)
    requires NoneRevoked(rows, f) && Unmentioned(h, d)
    ensures TablesInv(h, rows[d := row]) && NoneRevoked(rows[d := row], f)
    ensures row.kind.Access? && NoneLive(rows, f) ==> NoneLive(rows[d := row], f)
  {
  }

  /** The digest is neither a request that led to a code nor a code. */
  ghost predicate Unmentioned(h: History, d: Digest)
  {
    (forall c :: c in h.codes ==> h.codes[c].request != d) && (forall f :: f in h.families ==> h.families[f].code != d)
  }

  ghost predicate NoneLive(rows: map<Digest, Artifact>, f: Family)
  {
    forall d :: d in rows && rows[d].family == Some(f) ==> !LiveRefresh(rows[d])
  }

  ghost predicate NoneRevoked(rows: map<Digest, Artifact>, f: Family)
  {
    forall d :: d in rows && rows[d].family == Some(f) ==> !rows[d].revoked
  }

  /** Minting into such a family; `u` is the result. */
  lemma MintInv(env: Env, h: History, t: Tables, clientId: ClientId, f: Family, expiry: int, issue: bool, draws: Draws,
                now: int, u: Tables)
    requires TablesInv(h, t.artifacts) && NoneLive(t.artifacts, f) && NoneRevoked(t.artifacts, f)
    requires f in h.families && h.families[f].clientId == clientId && h.families[f].refreshExpiry == expiry
    requires env.digest(draws.access) in h.drawn && env.digest(draws.refresh) in h.drawn
    requires Unmentioned(h, env.digest(draws.access)) && Unmentioned(h, env.digest(draws.refresh))
    requires Mint(env, t, clientId, f, expiry, issue, draws, now) == Some(u)
    ensures TablesInv(h, u.artifacts)
  {
    hide TablesInv, NoneLive, NoneRevoked, Unmentioned;
    var a, r := env.digest(draws.access), env.digest(draws.refresh);
    var access := Artifact(Access, clientId, Some(f), TokenData(env.resource), now + env.accessSeconds, false, false);
    TokenRow(h, t.artifacts, f, a, access);
    if issue {
      var refresh := Artifact(Refresh, clientId, Some(f), TokenData(env.resource), expiry, false, false);
      assert NoneLive(t.artifacts[a := access], f);
      TokenRow(h, t.artifacts[a := access], f, r, refresh);
    }
  }

  /** Using up the live refresh token leaves its family without one, and not revoked. */
  lemma RefreshUsed(h: History, rows: map<Digest, Artifact>, d: Digest, f: Family)
    requires TablesInv(h, rows) && d in rows && LiveRefresh(rows[d]) && rows[d].family == Some(f)
    ensures var after := rows[d := rows[d].(consumed := true)];
            TablesInv(h, after) && NoneLive(after, f) && NoneRevoked(after, f)
  {
    assert RowOk(h, d, rows[d]);
  }

  /** Redeeming an unused code starts a family that has no token yet. */
  lemma CodeUsed(h: History, g: History, rows: map<Digest, Artifact>, d: Digest, f: Family)
    requires TablesInv(h, rows) && d in rows && rows[d].kind == Code && !rows[d].consumed && !rows[d].revoked
    requires f !in h.families && f in g.families && g.families[f].code == d
    requires Extends(h, g) && g.codes == h.codes && g.families.Keys == h.families.Keys + {f}
    ensures var after := rows[d := rows[d].(consumed := true, family := Some(f))];
            TablesInv(g, after) && NoneLive(after, f) && NoneRevoked(after, f)
  {
    assert RowOk(h, d, rows[d]);
    RowsOkGrow(h, g, rows);
    assert forall k :: k in rows && rows[k].family.Some? ==> rows[k].family.value in h.families by {
      forall k | k in rows && rows[k].family.Some? ensures rows[k].family.value in h.families {
        assert RowOk(h, k, rows[k]);
      }
    }
  }

  lemma DrawnGrow(h: History, g: History, rows: map<Digest, Artifact>)
    requires TablesInv(h, rows) && h.drawn <= g.drawn && g == h.(drawn := g.drawn)
    ensures TablesInv(g, rows)
  {
    RowsOkGrow(h, g, rows);
  }

  lemma NewFamilyHistory(env: Env, h: History, g: History, f: Family, r: Redemption)
    requires HistoryInv(env, h) && f !in h.families && Extends(h, g)
    requires g == h.(drawn := g.drawn, families := h.families[f := r])
    requires r.code in h.codes && r.clientId == h.codes[r.code].clientId
    requires h.codes[r.code].data.AuthData? && env.s256(r.verifier) == h.codes[r.code].data.challenge
    requires forall k :: k in h.families ==> h.families[k].code != r.code
    ensures HistoryInv(env, g)
  {
    HistoryOkGrow(env, h, g);
    assert FamilyOk(env, g, f);
  }

  lemma FreshUnmentioned(env: Env, h: History, g: History, d: Digest)
    requires HistoryInv(env, h) && d !in h.drawn && g.codes == h.codes && (g.families == h.families || HistoryInv(env, g))
    ensures Unmentioned(g, d)
  {
    assert forall c :: c in h.codes ==> c in h.drawn && ConsentOk(h, h.codes[c]);
    forall f | f in g.families ensures g.families[f].code in g.codes {
      if g.families == h.families { assert FamilyOk(env, h, f); } else { assert FamilyOk(env, g, f); }
    }
  }

  lemma ExchangeInv(env: Env, w: World, clientId: ClientId, snapshot: Client, r: TokenRequest, draws: Draws, now: int)
    requires Inv(env, w)
    ensures Inv(env, ExchangeNext(env, w, clientId, snapshot, r, draws, now))
  {
    hide TablesInv, HistoryInv, SessionsOk, Mint, RedeemedHistory;
    var out := Exchange(env, w.tables, clientId, snapshot, r, draws, now);
    var d := env.digest(r.credential);
    if out.result.Err? {
      if out.tables != w.tables {
        RevokeFamilyInv(w.history, w.tables.artifacts, w.tables.artifacts[d].family);
      }
    } else if FreshDraws(env, w.history, draws) {
      if r.grant.AuthorizationCode? {
        RedeemFacts(env, w.tables, clientId, snapshot, r, draws, now);
        RedeemMinted(env, w, clientId, r, draws, now, RedeemedHistory(env, w.history, clientId, r, draws, now),
                     snapshot.refreshGrant, out.tables);
      } else {
        RotateInv(env, w, clientId, snapshot, r, draws, now, out);
      }
    }
  }

  /** What a successful redemption of a code has checked. */
  lemma RedeemFacts(env: Env, t: Tables, clientId: ClientId, snapshot: Client, r: TokenRequest, draws: Draws, now: int)
    requires Exchange(env, t, clientId, snapshot, r, draws, now).result.Ok? && r.grant.AuthorizationCode?
    ensures RedeemableBy(env, t, clientId, r)
    ensures var d := env.digest(r.credential);
            var used := t.artifacts[d := t.artifacts[d].(consumed := true, family := Some(draws.family))];
            var minted := Mint(env, t.(artifacts := used), clientId, draws.family, now + env.refreshSeconds,
                               snapshot.refreshGrant, draws, now);
            minted == Some(Exchange(env, t, clientId, snapshot, r, draws, now).tables)
  {
  }

  predicate RedeemableBy(env: Env, t: Tables, clientId: ClientId, r: TokenRequest)
  {
    var d := env.digest(r.credential);
    d in t.artifacts && t.artifacts[d].kind == Code && !t.artifacts[d].consumed && !t.artifacts[d].revoked
    && t.artifacts[d].clientId == clientId && t.artifacts[d].data.AuthData?
    && env.s256(r.verifier) == t.artifacts[d].data.challenge
  }

  lemma RedeemHistory(env: Env, h: History, rows: map<Digest, Artifact>, d: Digest, clientId: ClientId, r: TokenRequest,
                      draws: Draws, now: int, g: History)
    requires HistoryInv(env, h) && TablesInv(h, rows) && FreshDraws(env, h, draws)
    requires d == env.digest(r.credential) && d in rows && rows[d].kind == Code && !rows[d].consumed
    requires rows[d].clientId == clientId && rows[d].data.AuthData? && env.s256(r.verifier) == rows[d].data.challenge
    requires g == RedeemedHistory(env, h, clientId, r, draws, now)
    ensures Extends(h, g) && HistoryInv(env, g)
    ensures Unmentioned(g, env.digest(draws.access)) && Unmentioned(g, env.digest(draws.refresh))
  {
    assert RowOk(h, d, rows[d]);
    assert CodesUsed(h, rows);
    NewFamilyHistory(env, h, g, draws.family, g.families[draws.family]);
    FreshUnmentioned(env, h, g, env.digest(draws.access));
    FreshUnmentioned(env, h, g, env.digest(draws.refresh));
  }

  lemma RedeemInv(env: Env, w: World, clientId: ClientId, r: TokenRequest, draws: Draws, now: int, g: History)
    requires Inv(env, w) && FreshDraws(env, w.history, draws) && RedeemableBy(env, w.tables, clientId, r)
    requires g == RedeemedHistory(env, w.history, clientId, r, draws, now)
    ensures HistoryInv(env, g) && SessionsOk(g, w.sessions, env)
    ensures Unmentioned(g, env.digest(draws.access)) && Unmentioned(g, env.digest(draws.refresh))
    ensures var d, f := env.digest(r.credential), draws.family;
            var used := w.tables.artifacts[d := w.tables.artifacts[d].(consumed := true, family := Some(f))];
            TablesInv(g, used) && NoneLive(used, f) && NoneRevoked(used, f)
  {
    var d := env.digest(r.credential);
    RedeemHistory(env, w.history, w.tables.artifacts, d, clientId, r, draws, now, g);
    SessionsOkGrow(env, w.history, g, w.sessions);
    CodeUsed(w.history, g, w.tables.artifacts, d, draws.family);
  }

  lemma RedeemMinted(env: Env, w: World, clientId: ClientId, r: TokenRequest, draws: Draws, now: int, g: History,
                     issue: bool, u: Tables)
    requires Inv(env, w) && FreshDraws(env, w.history, draws) && RedeemableBy(env, w.tables, clientId, r)
    requires g == RedeemedHistory(env, w.history, clientId, r, draws, now)
    requires var d := env.digest(r.credential);
             var used := w.tables.artifacts[d := w.tables.artifacts[d].(consumed := true, family := Some(draws.family))];
             Mint(env, w.tables.(artifacts := used), clientId, draws.family, now + env.refreshSeconds, issue, draws, now)
             == Some(u)
    ensures Inv(env, w.(tables := u, history := g))
  {
    hide TablesInv, HistoryInv, SessionsOk, NoneLive, NoneRevoked, Unmentioned, Mint;
    var d := env.digest(r.credential);
    var used := w.tables.artifacts[d := w.tables.artifacts[d].(consumed := true, family := Some(draws.family))];
    RedeemInv(env, w, clientId, r, draws, now, g);
    MintInv(env, g, w.tables.(artifacts := used), clientId, draws.family, now + env.refreshSeconds, issue, draws, now, u);
  }

  lemma RotateInv(env: Env, w: World, clientId: ClientId, snapshot: Client, r: TokenRequest, draws: Draws, now: int,
                  out: Outcome<Tokens>)
    requires Inv(env, w) && FreshDraws(env, w.history, draws) && !r.grant.AuthorizationCode?
    requires out == Exchange(env, w.tables, clientId, snapshot, r, draws, now) && out.result.Ok?
    ensures Inv(env, ExchangeNext(env, w, clientId, snapshot, r, draws, now))
  {
    var h, g := w.history, ExchangeNext(env, w, clientId, snapshot, r, draws, now).history;
    var d, rows := env.digest(r.credential), w.tables.artifacts;
    assert RowOk(h, d, rows[d]);
    var f := rows[d].family.value;
    RefreshUsed(h, rows, d, f);
    var used := rows[d := rows[d].(consumed := true)];
    DrawnGrow(h, g, used);
    HistoryOkGrow(env, h, g);
    FreshUnmentioned(env, h, g, env.digest(draws.access));
    FreshUnmentioned(env, h, g, env.digest(draws.refresh));
    SessionsOkGrow(env, h, g, w.sessions);
    MintInv(env, g, w.tables.(artifacts := used), clientId, f, rows[d].expiresAt, true, draws, now, out.tables);
  }

  // ---- all runs ----

  lemma UpdateInv(env: Env, w: World, id: ClientId, patch: Patch)
    requires Inv(env, w)
    ensures Inv(env, w.(tables := UpdateClient(w.tables, id, patch).tables))
  {
    RevokeClientInv(env, w.history, w.tables.artifacts, id);
  }

  lemma RevokeInv(env: Env, w: World, id: ClientId, delete: bool)
    requires Inv(env, w)
    ensures Inv(env, w.(tables := RevokeClient(w.tables, id, delete).tables))
  {
    RevokeClientInv(env, w.history, w.tables.artifacts, id);
    FewerRows(w.history, w.tables.artifacts, DropClientArtifacts(w.tables.artifacts, id));
  }

  lemma RevokeTokenInv(env: Env, w: World, clientId: ClientId, raw: string)
    requires Inv(env, w)
    ensures Inv(env, w.(tables := RevokeToken(env, w.tables, clientId, raw)))
  {
    var d := env.digest(raw);
    if d in w.tables.artifacts {
      RevokeFamilyInv(w.history, w.tables.artifacts, w.tables.artifacts[d].family);
    }
  }

  lemma StepInv(env: Env, w: World, s: Step)
    requires Inv(env, w)
    ensures Inv(env, Next(env, w, s))
  {
    match s
    case CreateStep(_, _) =>
    case UpdateStep(id, patch) => UpdateInv(env, w, id, patch);
    case RevokeClientStep(id, delete) => RevokeInv(env, w, id, delete);
    case BeginStep(r, raw, now) => BeginInv(env, w, r, raw, now);
    case PrepareStep(pending, secret, now) => PrepareInv(env, w, pending, secret, now);
    case ConfirmStep(sid, pending, secret, csrf, approved, address, now) =>
      ConfirmInv(env, w, sid, pending, secret, csrf, approved, address, now);
    case PasswordStep(sid, correct, now) => PasswordInv(env, w, sid, correct, now);
    case FinishStep(sid, code, now) => FinishInv(env, w, sid, code, now);
    case AbandonStep(_) =>
    case ExchangeStep(clientId, snapshot, r, draws, now) => ExchangeInv(env, w, clientId, snapshot, r, draws, now);
    case VerifyStep(_, _) =>
    case RevokeTokenStep(clientId, raw) => RevokeTokenInv(env, w, clientId, raw);
  }

  lemma {:induction false} RunInv(env: Env, steps: seq<Step>)
    ensures Inv(env, Run(env, Start, steps))
  {
    if steps != [] {
      RunInv(env, steps[..|steps| - 1]);
      StepInv(env, Run(env, Start, steps[..|steps| - 1]), steps[|steps| - 1]);
    }
  }
}
