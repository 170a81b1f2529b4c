/** What the deletions of the token-cleanup job change in the next answer, and what keeps every later answer as it
    was. */
module Cleanup {
  import opened Options
  import opened Tokens
  import opened BulkRevocation
  import opened CleanupJob
  import opened Evolution
  import opened Flows
  import opened Requests
  import Protocol

  // ---------------------------------------------------------------------------------------------
  // The next answer
  // ---------------------------------------------------------------------------------------------

  /** The access tokens for whose sake a bulk revocation of that scope aborts. */
  function Blockers(db: Db, scope: Scope): set<nat> {
    AccessOf(db, scope, SidsRead(db, scope)) * db.revokedJti.Keys
  }

  predicate SessionGoes(w: World, sid: nat) {
    sid in w.db.sessions && SessionIsOld(w.db.sessions[sid], w.now)
  }

  /** MFA verification and code exchange take any valid session, expired or not, and cleanup deletes it a week
      after its expiry. */
  predicate LosesSession(w: World, q: Request) {
    || (q.VerifyMfa? && q.codeOk && SessionGoes(w, q.sid) && w.db.sessions[q.sid].valid
        && CanIssue(w.db, w.db.sessions[q.sid].identityId, q.client))
    || (q.ExchangeCode? && MayExchange(w.db, q.identity, q.client) && SessionGoes(w, SessionFound(w.db, q.identity).value))
  }

  /** A context switch swaps the session's bound refresh token without a look at its expiry. */
  predicate LosesToken(w: World, ms: nat, q: Request) {
    && q.SwitchTo? && GuardAccepts(w.db, q.jti, User, w.now + ms)
    && var identity, found := w.db.jwts[q.jti].sub, SessionFound(w.db, w.db.jwts[q.jti].sub);
       && found.Some? && Usable(w.db, found.value, identity, w.now + ms) && CanIssue(w.db, identity, q.client)
       && BoundTokenGoes(w, found.value)
  }

  /** The valid sessions of an identity that stay. */
  function StayingOf(w: World, identity: nat): set<nat> {
    set sid | sid in ValidOf(w.db, identity) && !SessionIsOld(w.db.sessions[sid], w.now)
  }

  /** A context switch finds a valid session that has expired, and an older one that has not once that is gone. */
  predicate UncoversSession(w: World, ms: nat, q: Request) {
    && q.SwitchTo? && GuardAccepts(w.db, q.jti, User, w.now + ms)
    && var identity, found := w.db.jwts[q.jti].sub, SessionFound(w.db, w.db.jwts[q.jti].sub);
       && found.Some? && SessionGoes(w, found.value)
       && var next := Youngest(StayingOf(w, identity));
          next.Some? && MaySwitch(w.db, next.value, identity, q.client, w.now + ms) && !BoundTokenGoes(w, next.value)
  }

  /** The session is bound to a live refresh token that goes. */
  predicate BoundTokenGoes(w: World, sid: nat)
    requires sid in w.db.sessions
  {
    var bound := w.db.sessions[sid].refreshTokenId;
    bound.Some? && IsLive(w.db, bound.value) && RefreshIsOld(w.db.refresh[bound.value], w.now)
  }

  /** What makes a bulk revocation abort is gone after the cleanup: each blocking RevokedJti row, or, where the
      scope goes by the sessions it finds, the sessions. */
  predicate LosesBlockers(w: World, q: Request) {
    && q.Bulk? && !ReturnsEarly(q.scope, SidsRead(w.db, q.scope)) && Blockers(w.db, q.scope) != {}
    && (|| (forall j | j in Blockers(w.db, q.scope) :: w.db.revokedJti[j] < w.now || LosesCover(w, q.scope, j))
        || (q.scope.ValidSessions? && forall sid | sid in SidsRead(w.db, q.scope) :: SessionIsOld(w.db.sessions[sid], w.now)))
  }

  predicate LosesCover(w: World, scope: Scope, j: nat)
    requires j in Blockers(w.db, scope)
  {
    scope.OtherSessions? && SessionIsOld(w.db.sessions[w.db.access[j].sessionId], w.now)
  }

  /** Revocation by id finds any row of the caller's, however long ago it expired. */
  predicate LosesRow(w: World, ms: nat, q: Request) {
    && q.RevokeById? && GuardAccepts(w.db, q.jti, User, w.now + ms)
    && q.key in w.db.access && w.db.access[q.key].identityId == w.db.jwts[q.jti].sub && AccessIsOld(w.db.access[q.key], w.now)
  }

  /** The level of a session row that goes is no longer claimed. */
  predicate LosesLevel(w: World, sid: Option<nat>) {
    sid.Some? && SessionGoes(w, sid.value) && w.db.sessions[sid.value].level.Some?
  }

  /** The scopes narrowed at the exchange are no longer found on the pair's newest unrevoked access token. */
  predicate LosesScopes(w: World, identity: nat, client: nat) {
    var newest := Newest(w.db.access, identity, client);
    && newest.Some? && AccessIsOld(w.db.access[newest.value], w.now)
    && newest.value in w.db.scopes && client in w.db.clients && w.db.scopes[newest.value] != w.db.clients[client]
  }

  predicate LosesGrant(w: World, ms: nat, q: Request) {
    && q.RefreshWith? && MayRotate(w.db, q.token, w.now + ms)
    && var r := w.db.refresh[q.token]; LosesLevel(w, r.sessionId) || LosesScopes(w, r.identityId, r.clientId)
  }

  lemma NoneInCommon(a: set<nat>, b: set<nat>)
    ensures a !! b <==> a * b == {}
  {
    if a * b == {} {
      forall x | x in a ensures x !in b {
        assert x !in a * b;
      }
    }
  }

  lemma BlockersDecide(db: Db, scope: Scope, now: int)
    ensures BulkRevoked(db, scope, now).1 <==> ReturnsEarly(scope, SidsRead(db, scope)) || Blockers(db, scope) == {}
  {
    var sids := SidsRead(db, scope);
    var live := AccessOf(db, scope, sids);
    assert Expiries(db, live).Keys == live;
    NoneInCommon(live, db.revokedJti.Keys);
  }

  lemma CleanBlockers(w: World, scope: Scope)
    requires Sound(w.db, w.now)
    ensures forall j :: j in Blockers(Clean(w).db, scope) <==>
      j in Blockers(w.db, scope) && w.db.revokedJti[j] >= w.now && !LosesCover(w, scope, j)
    ensures SidsRead(Clean(w).db, scope) == set sid | sid in SidsRead(w.db, scope) && !SessionIsOld(w.db.sessions[sid], w.now)
  {
    forall j | j in Blockers(w.db, scope) && w.db.revokedJti[j] >= w.now ensures j in Clean(w).db.access && j in Clean(w).db.revokedJti {
      assert w.db.access[j].expiresAt == w.db.revokedJti[j];
    }
  }

  lemma NextBulkUnchangedIff(w: World, ms: nat, q: Request)
    requires Sound(w.db, w.now) && q.Bulk?
    ensures Answer(Serve(Clean(w), Wait(ms)), q) == Answer(Serve(w, Wait(ms)), q) <==> !LosesBlockers(w, q)
  {
    BulkUnchangedIff(w, q);
    BulkAtAnyTime(w.db, q.scope, w.now, w.now + ms);
    BulkAtAnyTime(Clean(w).db, q.scope, w.now, w.now + ms);
  }

  lemma BulkAtAnyTime(db: Db, scope: Scope, now: int, later: int)
    ensures BulkRevoked(db, scope, now).1 == BulkRevoked(db, scope, later).1
  {
  }

  lemma BulkUnchangedIff(w: World, q: Request)
    requires Sound(w.db, w.now) && q.Bulk?
    ensures BulkRevoked(Clean(w).db, q.scope, w.now).1 == BulkRevoked(w.db, q.scope, w.now).1 <==> !LosesBlockers(w, q)
  {
    BlockersDecide(w.db, q.scope, w.now);
    BlockersDecide(Clean(w).db, q.scope, w.now);
    CleanBlockers(w, q.scope);
    var sids, kept := SidsRead(w.db, q.scope), SidsRead(Clean(w).db, q.scope);
    assert forall sid | sid in sids && !SessionIsOld(w.db.sessions[sid], w.now) :: sid in kept;
    if q.scope.OtherSessions? && kept == {} {
      assert forall j | j in Blockers(w.db, q.scope) :: w.db.access[j].sessionId in sids;
    }
  }

  predicate OnItsOwn(q: Request) { !q.Bulk? && !q.SwitchTo? && !q.RefreshWith? && !q.ExchangeCode? && !q.RevokeById? && !q.Introspect? }

  lemma NextIntrospectionUnchanged(w: World, ms: nat, q: Request)
    requires Sound(w.db, w.now) && q.Introspect?
    ensures Answer(Serve(Clean(w), Wait(ms)), q) == Answer(Serve(w, Wait(ms)), q)
  {
  }

  lemma NextOtherUnchangedIff(w: World, ms: nat, q: Request)
    requires Sound(w.db, w.now) && OnItsOwn(q)
    ensures Answer(Serve(Clean(w), Wait(ms)), q) == Answer(Serve(w, Wait(ms)), q) <==> !LosesSession(w, q)
  {
  }

  lemma CleanKeepsGuard(w: World, ms: nat, jti: nat)
    requires Sound(w.db, w.now)
    ensures GuardAccepts(Clean(w).db, jti, User, w.now + ms) == GuardAccepts(w.db, jti, User, w.now + ms)
  {
  }

  lemma CleanSwitch(w: World, ms: nat, sid: nat, identity: nat, client: nat)
    requires Fresh(w.db)
    ensures var later := w.now + ms;
      MaySwitch(Clean(w).db, sid, identity, client, later) == MaySwitch(w.db, sid, identity, client, later) <==>
        !(Usable(w.db, sid, identity, later) && CanIssue(w.db, identity, client) && BoundTokenGoes(w, sid))
  {
  }

  lemma NextSwitchUnchangedIff(w: World, ms: nat, q: Request)
    requires Sound(w.db, w.now) && q.SwitchTo?
    ensures Answer(Serve(Clean(w), Wait(ms)), q) == Answer(Serve(w, Wait(ms)), q)
       <==> !LosesToken(w, ms, q) && !UncoversSession(w, ms, q)
  {
    CleanKeepsGuard(w, ms, q.jti);
    if GuardAccepts(w.db, q.jti, User, w.now + ms) {
      var identity := w.db.jwts[q.jti].sub;
      CleanFound(w, identity);
      if SessionFound(w.db, identity).Some? { CleanSwitch(w, ms, SessionFound(w.db, identity).value, identity, q.client); }
      if Youngest(StayingOf(w, identity)).Some? { CleanSwitch(w, ms, Youngest(StayingOf(w, identity)).value, identity, q.client); }
    }
  }

  lemma NextByIdUnchangedIff(w: World, ms: nat, q: Request)
    requires Sound(w.db, w.now) && q.RevokeById?
    ensures Answer(Serve(Clean(w), Wait(ms)), q) == Answer(Serve(w, Wait(ms)), q) <==> !LosesRow(w, ms, q)
  {
  }

  lemma YoungestIs(s: set<nat>, m: nat)
    requires m in s && forall x | x in s :: x <= m
    ensures Youngest(s) == Some(m)
  {
  }

  /** The exchange finds another session, or none, exactly if the one it found is gone. */
  lemma NextExchangeUnchangedIff(w: World, ms: nat, q: Request)
    requires Sound(w.db, w.now) && q.ExchangeCode?
    ensures Answer(Serve(Clean(w), Wait(ms)), q) == Answer(Serve(w, Wait(ms)), q) <==> !LosesSession(w, q)
  {
    CleanFound(w, q.identity);
  }

  /** The session found after the cleanup: the same if it stays, else the next that stays. */
  lemma CleanFound(w: World, identity: nat)
    ensures SessionFound(Clean(w).db, identity) == Youngest(StayingOf(w, identity))
    ensures var found := SessionFound(w.db, identity);
      if found.Some? && !SessionGoes(w, found.value) then SessionFound(Clean(w).db, identity) == found
      else SessionFound(Clean(w).db, identity) != found || found.None?
  {
    var all, kept := ValidOf(w.db, identity), ValidOf(Clean(w).db, identity);
    assert kept == StayingOf(w, identity);
    if all != {} && !SessionGoes(w, Youngest(all).value) {
      YoungestIs(kept, Youngest(all).value);
    }
  }

  /** Of one pair's unrevoked access tokens the newest is the last to be deleted. */
  lemma CleanNewest(w: World, identity: nat, client: nat)
    requires Sound(w.db, w.now)
    ensures var n := Newest(w.db.access, identity, client);
      Newest(Clean(w).db.access, identity, client) == if n.Some? && AccessIsOld(w.db.access[n.value], w.now) then None else n
  {
    var n := Newest(w.db.access, identity, client);
    var all, kept := UnrevokedOf(w.db.access, identity, client), UnrevokedOf(Clean(w).db.access, identity, client);
    assert kept <= all;
    if n.Some? && !AccessIsOld(w.db.access[n.value], w.now) {
      assert n.value in kept;
      NewestIs(Clean(w).db.access, identity, client, n);
    } else if n.Some? {
      forall x | x in all ensures x !in kept {
        assert NotNewer(w.db.access, x, n.value);
      }
      assert kept == {};
    }
  }

  lemma CleanScopes(w: World, identity: nat, client: nat)
    requires Sound(w.db, w.now) && client in w.db.clients
    ensures InheritedScopes(Clean(w).db, identity, client) == InheritedScopes(w.db, identity, client)
       <==> !LosesScopes(w, identity, client)
  {
    CleanNewest(w, identity, client);
    var n := Newest(w.db.access, identity, client);
    if n.Some? { assert n.value in w.db.access && n.value in w.db.scopes; }
  }

  lemma NextRefreshUnchangedIff(w: World, ms: nat, q: Request)
    requires Sound(w.db, w.now) && q.RefreshWith?
    ensures Answer(Serve(Clean(w), Wait(ms)), q) == Answer(Serve(w, Wait(ms)), q) <==> !LosesGrant(w, ms, q)
  {
    if MayRotate(w.db, q.token, w.now + ms) {
      var r := w.db.refresh[q.token];
      CleanScopes(w, r.identityId, r.clientId);
      assert SessionLevel(Clean(w).db, r.sessionId) == SessionLevel(w.db, r.sessionId) <==> !LosesLevel(w, r.sessionId);
    }
  }

  /** The next request after a cleanup, however late, is answered as it would have been, with these exceptions:
      MFA verification or code exchange with a valid session that the cleanup deleted, a context switch whose
      session is bound to a refresh token that it deleted or whose session it uncovered by deleting a newer one, a
      bulk revocation that would have aborted for rows it deleted, the revocation by id of an access token it
      deleted, and a refresh whose session's level or whose narrowed scopes it deleted. */
  lemma NextAnswerUnchangedIff(w: World, ms: nat, q: Request)
    requires Sound(w.db, w.now)
    ensures Answer(Serve(Clean(w), Wait(ms)), q) == Answer(Serve(w, Wait(ms)), q)
       <==> && !LosesSession(w, q) && !LosesToken(w, ms, q) && !UncoversSession(w, ms, q) && !LosesBlockers(w, q)
            && !LosesRow(w, ms, q) && !LosesGrant(w, ms, q)
  {
    match q
    case Bulk(_) => NextBulkUnchangedIff(w, ms, q);
    case SwitchTo(_, _) => NextSwitchUnchangedIff(w, ms, q);
    case RefreshWith(_) => NextRefreshUnchangedIff(w, ms, q);
    case ExchangeCode(_, _, _) => NextExchangeUnchangedIff(w, ms, q);
    case RevokeById(_, _) => NextByIdUnchangedIff(w, ms, q);
    case Introspect(_) => NextIntrospectionUnchanged(w, ms, q);
    case _ => NextOtherUnchangedIff(w, ms, q);
  }

  // ---------------------------------------------------------------------------------------------
  // When no later answer changes either
  // ---------------------------------------------------------------------------------------------

  /** The token's row or its RevokedJti row can go without anybody noticing who does not look at access tokens. */
  predicate Spent(d: Db, j: nat, now: int)
    requires j in d.access
  {
    d.access[j].expiresAt <= now || (d.access[j].revoked && j in d.revokedJti)
  }

  /** Access tokens and their scopes are the same. */
  predicate SameAccess(d: Db, c: Db) { d.access == c.access && d.scopes == c.scopes }

  /** `c` is `d` short of RevokedJti rows that no longer decide anything and, unless `same`, of access-token rows
      that are spent, with whatever scopes were taken over from them. */
  ghost predicate Alike(d: Db, c: Db, now: int, same: bool) {
    && d == c.(access := d.access, revokedJti := d.revokedJti, scopes := d.scopes)
    && (same ==> SameAccess(d, c))
    && JtisAlike(d, c, now)
  }

  ghost predicate JtisAlike(d: Db, c: Db, now: int) { AccessAlike(d, c, now) && RecordsAlike(d, c, now) }

  ghost predicate AccessAlike(d: Db, c: Db, now: int) {
    && (forall j | j in c.access :: j in d.access && c.access[j] == d.access[j])
    && (forall j | j in d.access && j !in c.access :: Spent(d, j, now))
  }

  ghost predicate RecordsAlike(d: Db, c: Db, now: int) {
    && (forall j | j in c.revokedJti :: j in d.revokedJti && c.revokedJti[j] == d.revokedJti[j])
    && (forall j | j in d.jwts && now < d.jwts[j].exp :: j in d.revokedJti <==> j in c.revokedJti)
    && (forall j | j in d.access && !d.access[j].revoked && j in d.revokedJti :: j in c.access && j in c.revokedJti)
  }

  /** Deleted RevokedJti rows whose access token was left unrevoked: they make bulk revocations abort. */
  ghost predicate SweepsBlocker(w: World) {
    exists j :: j in w.db.revokedJti && w.db.revokedJti[j] < w.now && j in w.db.access && !w.db.access[j].revoked
  }

  lemma CleaningIsAlike(w: World)
    requires Sound(w.db, w.now) && Clean(w).db.refresh == w.db.refresh && Clean(w).db.sessions == w.db.sessions
    requires !SweepsBlocker(w)
    ensures Alike(w.db, Clean(w).db, w.now, Clean(w).db.access == w.db.access)
  {
    forall j | j in w.db.access && !w.db.access[j].revoked && j in w.db.revokedJti
      ensures j in Clean(w).db.access && j in Clean(w).db.revokedJti
    {
      assert w.db.access[j].expiresAt == w.db.revokedJti[j];
    }
  }

  lemma AlikeAccess(d: Db, c: Db, now: int, same: bool, scope: Scope)
    requires Alike(d, c, now, same)
    ensures SidsRead(d, scope) == SidsRead(c, scope)
    ensures AccessOf(c, scope, SidsRead(c, scope)) == AccessOf(d, scope, SidsRead(d, scope)) * c.access.Keys
    ensures Blockers(d, scope) == Blockers(c, scope)
  {
  }

  lemma AlikeGuards(d: Db, c: Db, now: int, same: bool, jti: nat, need: Need)
    requires Alike(d, c, now, same) && (same || !need.Scoped?)
    ensures GuardAccepts(d, jti, need, now) == GuardAccepts(c, jti, need, now)
  {
  }

  lemma AlikeRotates(d: Db, c: Db, now: int, same: bool, token: nat)
    requires Alike(d, c, now, same)
    ensures MayRotate(d, token, now) == MayRotate(c, token, now)
    ensures MayRotate(d, token, now) ==>
      var g, h := RotationGrant(d, token, d.refresh[token]), RotationGrant(c, token, c.refresh[token]);
      h == g.(scopes := h.scopes) && (same ==> h == g)
  {
  }

  lemma AlikeBulkAnswer(d: Db, c: Db, now: int, same: bool, scope: Scope)
    requires Alike(d, c, now, same)
    ensures BulkRevoked(d, scope, now).1 == BulkRevoked(c, scope, now).1
  {
    AlikeAccess(d, c, now, same, scope);
    BlockersDecide(d, scope, now);
    BlockersDecide(c, scope, now);
  }

  ghost predicate AnsweredAlike(d: World, c: World, same: bool, q: Request) {
    && Seen(q, Answer(d, q)) == Seen(q, Answer(c, q))
    && (same ==> Answer(d, q) == Answer(c, q))
  }

  lemma AlikeAuthenticatedAnswer(d: Db, c: Db, now: int, same: bool, q: Request)
    requires Alike(d, c, now, same) && IsAuthenticated(q)
    ensures AnsweredAlike(World(d, now), World(c, now), same, q)
  {
    AlikeGuards(d, c, now, same, q.jti, User);
  }

  predicate IsTokenQuestion(q: Request) { q.RefreshWith? || q.Introspect? || q.Guarded? || q.Bulk? }

  lemma AlikeIntrospection(d: Db, c: Db, now: int, same: bool, token: nat)
    requires Sound(d, now) && Alike(d, c, now, same)
    ensures AnsweredAlike(World(d, now), World(c, now), same, Introspect(token))
  {
  }

  lemma AlikeTokenAnswer(d: Db, c: Db, now: int, same: bool, q: Request)
    requires Sound(d, now) && Alike(d, c, now, same) && IsTokenQuestion(q)
    ensures AnsweredAlike(World(d, now), World(c, now), same, q)
  {
    match q
    case Bulk(scope) => AlikeBulkAnswer(d, c, now, same, scope);
    case RefreshWith(token) => AlikeRotates(d, c, now, same, token);
    case Introspect(token) => AlikeIntrospection(d, c, now, same, token);
    case Guarded(jti, need) => if same || !need.Scoped? { AlikeGuards(d, c, now, same, jti, need); }
  }

  lemma AlikeOtherAnswer(d: Db, c: Db, now: int, same: bool, q: Request)
    requires Alike(d, c, now, same) && !IsAuthenticated(q) && !IsTokenQuestion(q)
    ensures AnsweredAlike(World(d, now), World(c, now), same, q)
  {
  }

  lemma AlikeAnswers(d: Db, c: Db, now: int, same: bool, q: Request)
    requires Sound(d, now) && Alike(d, c, now, same)
    ensures AnsweredAlike(World(d, now), World(c, now), same, q)
  {
    if IsAuthenticated(q) {
      AlikeAuthenticatedAnswer(d, c, now, same, q);
    } else if IsTokenQuestion(q) {
      AlikeTokenAnswer(d, c, now, same, q);
    } else {
      AlikeOtherAnswer(d, c, now, same, q);
    }
  }

  /** What blocklisting does to one row and one jti. */
  lemma BlocklistedAt(db: Db, dead: set<nat>, j: nat)
    requires dead <= db.access.Keys
    ensures var b := RecordRevoked(MarkAccess(db, dead), dead);
      && (j in b.access <==> j in db.access)
      && (j in db.access ==> b.access[j] == if j in dead then db.access[j].(revoked := true) else db.access[j])
      && (j in b.revokedJti <==> j in db.revokedJti || j in dead)
      && (j in b.revokedJti ==> b.revokedJti[j] == if j in db.revokedJti then db.revokedJti[j] else db.access[j].expiresAt)
  {
  }

  lemma AlikeBlocklistAt(d: Db, c: Db, now: int, dead: set<nat>, here: set<nat>, j: nat)
    requires Sound(d, now) && Alike(d, c, now, false) && dead <= d.access.Keys && here == dead * c.access.Keys
    ensures var d1, c1 := RecordRevoked(MarkAccess(d, dead), dead), RecordRevoked(MarkAccess(c, here), here);
      && (j in c1.access ==> j in d1.access && c1.access[j] == d1.access[j])
      && (j in c1.revokedJti ==> j in d1.revokedJti && c1.revokedJti[j] == d1.revokedJti[j])
      && (j in d1.access && j !in c1.access ==> Spent(d1, j, now))
      && (j in d1.jwts && now < d1.jwts[j].exp ==> (j in d1.revokedJti <==> j in c1.revokedJti))
      && (j in d1.access && !d1.access[j].revoked && j in d1.revokedJti ==> j in c1.access && j in c1.revokedJti)
  {
    BlocklistedAt(d, dead, j);
    BlocklistedAt(c, here, j);
    assert j in here <==> j in dead && j in c.access;
  }

  lemma AlikeBlocklist(d: Db, c: Db, now: int, same: bool, dead: set<nat>, here: set<nat>)
    requires Sound(d, now) && Alike(d, c, now, same) && dead <= d.access.Keys && here == dead * c.access.Keys
    ensures Alike(RecordRevoked(MarkAccess(d, dead), dead), RecordRevoked(MarkAccess(c, here), here), now, same)
  {
    JtisAlikeBlocklist(d, c, now, dead, here);
    if same { assert here == dead; }
  }

  lemma JtisAlikeBlocklist(d: Db, c: Db, now: int, dead: set<nat>, here: set<nat>)
    requires Sound(d, now) && Alike(d, c, now, false) && dead <= d.access.Keys && here == dead * c.access.Keys
    ensures JtisAlike(RecordRevoked(MarkAccess(d, dead), dead), RecordRevoked(MarkAccess(c, here), here), now)
  {
    var d1, c1 := RecordRevoked(MarkAccess(d, dead), dead), RecordRevoked(MarkAccess(c, here), here);
    forall j
      ensures j in c1.access ==> j in d1.access && c1.access[j] == d1.access[j]
      ensures j in c1.revokedJti ==> j in d1.revokedJti && c1.revokedJti[j] == d1.revokedJti[j]
      ensures j in d1.access && j !in c1.access ==> Spent(d1, j, now)
      ensures j in d1.jwts && now < d1.jwts[j].exp ==> (j in d1.revokedJti <==> j in c1.revokedJti)
      ensures j in d1.access && !d1.access[j].revoked && j in d1.revokedJti ==> j in c1.access && j in c1.revokedJti
    {
      AlikeBlocklistAt(d, c, now, dead, here, j);
    }
  }

  /** Tables on which both agree may change alike. */
  lemma AlikeUpdate(d: Db, c: Db, now: int, same: bool, refresh: map<nat, RefreshRow>, sessions: map<nat, SessionRow>, nextId: nat)
    requires Alike(d, c, now, same)
    ensures Alike(d.(refresh := refresh, sessions := sessions, nextId := nextId),
                  c.(refresh := refresh, sessions := sessions, nextId := nextId), now, same)
  {
  }

  lemma AlikeRevoke(d: Db, c: Db, now: int, same: bool, keys: set<nat>, at: Option<int>)
    requires Alike(d, c, now, same)
    ensures Alike(RevokeRefresh(d, keys, at), RevokeRefresh(c, keys, at), now, same)
  {
    var rows := RevokeRefresh(d, keys, at).refresh;
    AlikeUpdate(d, c, now, same, rows, d.sessions, d.nextId);
    assert RevokeRefresh(d, keys, at) == d.(refresh := rows) && RevokeRefresh(c, keys, at) == c.(refresh := rows);
  }

  lemma AlikeSessions(d: Db, c: Db, now: int, same: bool, rows: map<nat, SessionRow>)
    requires Alike(d, c, now, same)
    ensures Alike(d.(sessions := rows), c.(sessions := rows), now, same)
  {
    AlikeUpdate(d, c, now, same, d.refresh, rows, d.nextId);
  }

  /** Refresh tokens revoked and a session invalidated, on both sides. */
  lemma AlikeEnd(d: Db, c: Db, now: int, same: bool, keys: set<nat>, at: Option<int>, sid: Option<nat>)
    requires Sound(d, now) && Alike(d, c, now, same)
    ensures var d2, c2 := InvalidateSession(RevokeRefresh(d, keys, at), sid), InvalidateSession(RevokeRefresh(c, keys, at), sid);
      Sound(d2, now) && Alike(d2, c2, now, same) && d2.jwts == d.jwts && d2.access == d.access && c2.access == c.access
  {
    var d2 := InvalidateSession(RevokeRefresh(d, keys, at), sid);
    var c2 := InvalidateSession(RevokeRefresh(c, keys, at), sid);
    EndIsSound(d, keys, at, sid, now);
    AlikeUpdate(d, c, now, same, d2.refresh, d2.sessions, d.nextId);
    assert d2 == d.(refresh := d2.refresh, sessions := d2.sessions, nextId := d.nextId);
    assert c2 == c.(refresh := d2.refresh, sessions := d2.sessions, nextId := d.nextId);
  }

  lemma AlikeKill(d: Db, c: Db, now: int, same: bool, r: RefreshRow)
    requires Sound(d, now) && Alike(d, c, now, same)
    ensures Alike(KillChain(d, r, now), KillChain(c, r, now), now, same)
  {
    AlikeEnd(d, c, now, same, FamilyKeys(d, r.familyId), None, r.sessionId);
    var d2, c2 := EndFamily(d, r), EndFamily(c, r);
    AlikeLive(d2, c2, now, same, r.identityId, r.clientId);
    AlikeBlocklist(d2, c2, now, same, LiveAccess(d2, r.identityId, r.clientId, now), LiveAccess(c2, r.identityId, r.clientId, now));
  }

  lemma AlikeLive(d: Db, c: Db, now: int, same: bool, identity: nat, client: nat)
    requires Alike(d, c, now, same)
    ensures LiveAccess(d, identity, client, now) == LiveAccess(c, identity, client, now) <= c.access.Keys
  {
  }

  /** Grants that differ in scopes at most, and not at all if the access tokens are the same. */
  predicate GrantsAlike(g: Grant, h: Grant, same: bool) { h == g.(scopes := h.scopes) && (same ==> h == g) }

  lemma JtisAlikeIssueAccess(d: Db, c: Db, now: int, g: Grant, h: Grant)
    requires Sound(d, now) && Alike(d, c, now, false) && GrantsAlike(g, h, false)
    ensures JtisAlike(IssueAccess(d, g, now), IssueAccess(c, h, now), now)
  {
  }

  lemma AlikeIssueAccess(d: Db, c: Db, now: int, same: bool, g: Grant, h: Grant)
    requires Sound(d, now) && Alike(d, c, now, same) && GrantsAlike(g, h, same)
    ensures Alike(IssueAccess(d, g, now), IssueAccess(c, h, now), now, same)
  {
    JtisAlikeIssueAccess(d, c, now, g, h);
  }

  /** issue() after its first insert. */
  lemma AfterAccess(db: Db, g: Grant, now: int)
    ensures var db1, db3 := IssueAccess(db, g, now), Issue(db, g, now);
      && db3 == db1.(refresh := db3.refresh, sessions := db3.sessions, nextId := db3.nextId)
      && db3.nextId == db.nextId + 3
      && db3.refresh == db.refresh[db.nextId + 1 := NewRefreshRow(db1, g, now)]
      && db3.sessions == BindSession(db, g.sessionId, db.nextId + 1).sessions
  {
  }

  lemma AlikeIssue(d: Db, c: Db, now: int, same: bool, g: Grant, h: Grant)
    requires Sound(d, now) && Alike(d, c, now, same) && GrantsAlike(g, h, same)
    ensures Alike(Issue(d, g, now), Issue(c, h, now), now, same)
  {
    AlikeIssueAccess(d, c, now, same, g, h);
    AfterAccess(d, g, now);
    AfterAccess(c, h, now);
    var after := Issue(d, g, now);
    AlikeUpdate(IssueAccess(d, g, now), IssueAccess(c, h, now), now, same, after.refresh, after.sessions, after.nextId);
  }

  lemma AlikeRefresh(d: Db, c: Db, now: int, same: bool, token: nat)
    requires Sound(d, now) && Alike(d, c, now, same)
    ensures Alike(Refresh(d, token, now).0, Refresh(c, token, now).0, now, same)
  {
    AlikeRotates(d, c, now, same, token);
    if token in d.refresh && d.refresh[token].revoked {
      AlikeKill(d, c, now, same, d.refresh[token]);
    } else if MayRotate(d, token, now) {
      AlikeRevoke(d, c, now, same, {token}, Some(now));
      RevokeIsSound(d, {token}, Some(now), now);
      AlikeIssue(SwapRefresh(d, token, now), SwapRefresh(c, token, now), now, same,
                 RotationGrant(d, token, d.refresh[token]), RotationGrant(c, token, c.refresh[token]));
    } else {
      RefusalChangesNothing(d, token, now);
      RefusalChangesNothing(c, token, now);
    }
  }

  lemma BlocklistNothing(db: Db)
    ensures RecordRevoked(MarkAccess(db, {}), {}) == db
  {
    assert MarkAccess(db, {}).access == db.access;
    assert RecordRevoked(db, {}).revokedJti == db.revokedJti;
  }

  lemma AlikeRevokeToken(d: Db, c: Db, now: int, same: bool, token: nat, owner: Option<nat>)
    requires Sound(d, now) && Alike(d, c, now, same)
    ensures Alike(Revoke(d, token, owner), Revoke(c, token, owner), now, same)
  {
    if token in d.access {
      if Owned(owner, d.access[token].identityId) { AlikeBlockOne(d, c, now, same, token); }
    } else {
      AlikeRevoke(d, c, now, same, {token}, None);
    }
  }

  lemma AlikeBlockOne(d: Db, c: Db, now: int, same: bool, token: nat)
    requires Sound(d, now) && Alike(d, c, now, same) && token in d.access
    ensures Alike(RecordRevoked(MarkAccess(d, {token}), {token}),
                  if token in c.access then RecordRevoked(MarkAccess(c, {token}), {token}) else c, now, same)
  {
    if token in c.access {
      AlikeBlocklist(d, c, now, same, {token}, {token});
    } else {
      AlikeBlocklist(d, c, now, same, {token}, {});
      BlocklistNothing(c);
    }
  }

  /** A row gone from one side only was spent: revoking it by id tells the caller something else and does nothing
      that would still matter. */
  lemma AlikeRevokeById(d: Db, c: Db, now: int, same: bool, key: nat, identity: nat)
    requires Sound(d, now) && Alike(d, c, now, same)
    ensures Alike(RevokedById(d, key, identity).0, RevokedById(c, key, identity).0, now, same)
  {
    ByIdIs(d, key, identity);
    ByIdIs(c, key, identity);
    if IsRevocable(d, key, identity) {
      AlikeBlockOne(d, c, now, same, key);
      assert IsRevocable(c, key, identity) <==> key in c.access;
    } else {
      assert !IsRevocable(c, key, identity);
    }
  }

  predicate IsRevocable(db: Db, key: nat, identity: nat) {
    key in db.access && db.access[key].identityId == identity && !db.access[key].revoked
  }

  lemma ByIdIs(db: Db, key: nat, identity: nat)
    ensures RevokedById(db, key, identity).0
         == if IsRevocable(db, key, identity) then RecordRevoked(MarkAccess(db, {key}), {key}) else db
  {
  }

  lemma AlikeRecord(d: Db, c: Db, now: int, same: bool, jti: nat)
    requires Sound(d, now) && Alike(d, c, now, same) && jti in d.jwts && now < d.jwts[jti].exp
    ensures Alike(Record(d, map[jti := d.jwts[jti].exp]), Record(c, map[jti := d.jwts[jti].exp]), now, same)
  {
    JtisAlikeRecord(d, c, now, jti);
  }

  lemma JtisAlikeRecord(d: Db, c: Db, now: int, jti: nat)
    requires Sound(d, now) && Alike(d, c, now, false) && jti in d.jwts && now < d.jwts[jti].exp
    ensures JtisAlike(Record(d, map[jti := d.jwts[jti].exp]), Record(c, map[jti := d.jwts[jti].exp]), now)
  {
    AccessAlikeRecord(d, c, now, jti, d.jwts[jti].exp);
  }

  lemma AccessAlikeRecord(d: Db, c: Db, now: int, jti: nat, exp: int)
    requires AccessAlike(d, c, now)
    ensures AccessAlike(Record(d, map[jti := exp]), Record(c, map[jti := exp]), now)
  {
  }

  lemma AlikeLogout(d: Db, c: Db, now: int, same: bool, owner: Option<nat>, sid: nat, jti: nat)
    requires Sound(d, now) && Alike(d, c, now, same) && jti in d.jwts && now < d.jwts[jti].exp
    ensures Alike(Logout(d, owner, sid, Some(jti), Some(d.jwts[jti].exp), now),
                  Logout(c, owner, sid, Some(jti), Some(d.jwts[jti].exp), now), now, same)
  {
    if sid in d.sessions && Owned(owner, d.sessions[sid].identityId) {
      AlikeEnd(d, c, now, same, LogoutKeys(d, sid), Some(now), Some(sid));
      AlikeRecord(Ended(d, sid, now), Ended(c, sid, now), now, same, jti);
      LogoutIs(d, owner, sid, jti, d.jwts[jti].exp, now);
      LogoutIs(c, owner, sid, jti, d.jwts[jti].exp, now);
    }
  }

  function Ended(db: Db, sid: nat, now: int): Db
    requires sid in db.sessions
  {
    InvalidateSession(RevokeRefresh(db, LogoutKeys(db, sid), Some(now)), Some(sid))
  }

  lemma LogoutIs(db: Db, owner: Option<nat>, sid: nat, jti: nat, exp: int, now: int)
    requires sid in db.sessions && Owned(owner, db.sessions[sid].identityId)
    ensures Logout(db, owner, sid, Some(jti), Some(exp), now)
         == if exp == 0 then Ended(db, sid, now) else Record(Ended(db, sid, now), map[jti := exp])
  {
  }

  lemma AlikeAdd(d: Db, c: Db, now: int, same: bool, identity: nat, evicted: set<nat>, row: SessionRow)
    requires Sound(d, now) && Alike(d, c, now, same)
    ensures Alike(AddSession(Protocol.Evict(d, identity, evicted), row), AddSession(Protocol.Evict(c, identity, evicted), row), now, same)
  {
    var after := AddSession(Protocol.Evict(d, identity, evicted), row);
    AlikeUpdate(d, c, now, same, d.refresh, after.sessions, after.nextId);
    assert after == d.(sessions := after.sessions, nextId := after.nextId);
    assert AddSession(Protocol.Evict(c, identity, evicted), row) == c.(sessions := after.sessions, nextId := after.nextId);
  }

  lemma AlikeSwitchBlock(d: Db, c: Db, now: int, same: bool, sid: nat, identity: nat)
    requires Sound(d, now) && Alike(d, c, now, same)
    ensures Alike(BlockedFor(d, sid, identity), BlockedFor(c, sid, identity), now, same)
  {
    var f, g := Protocol.SessionAccess(d, sid, identity), Protocol.SessionAccess(c, sid, identity);
    assert g == f * c.access.Keys;
    AlikeBlocklist(d, c, now, same, f, g);
    BlocklistNothing(d);
    BlocklistNothing(c);
  }

  lemma AlikeSwap(d: Db, c: Db, now: int, same: bool, bound: Option<nat>)
    requires Sound(d, now) && Alike(d, c, now, same)
    ensures Sound(Unbound(d, bound, now), now) && Alike(Unbound(d, bound, now), Unbound(c, bound, now), now, same)
  {
    if bound.Some? && IsLive(d, bound.value) {
      AlikeRevoke(d, c, now, same, {bound.value}, Some(now));
      RevokeIsSound(d, {bound.value}, Some(now), now);
    }
  }

  lemma AlikeSwitchedOff(d: Db, c: Db, now: int, same: bool, sid: nat, identity: nat, bound: Option<nat>)
    requires Sound(d, now) && Alike(d, c, now, same)
    ensures Sound(SwitchedOff(d, sid, identity, bound, now), now)
    ensures Alike(SwitchedOff(d, sid, identity, bound, now), SwitchedOff(c, sid, identity, bound, now), now, same)
  {
    AlikeSwap(d, c, now, same, bound);
    AlikeSwitchBlock(Unbound(d, bound, now), Unbound(c, bound, now), now, same, sid, identity);
    BlocklistIsSound(Unbound(d, bound, now), Protocol.SessionAccess(Unbound(d, bound, now), sid, identity), now);
  }

  lemma AlikeSwitch(d: Db, c: Db, now: int, same: bool, sid: nat, identity: nat, client: nat)
    requires Sound(d, now) && Alike(d, c, now, same)
    ensures Alike(Switched(d, sid, identity, client, now).0, Switched(c, sid, identity, client, now).0, now, same)
  {
    SwitchesIff(d, sid, identity, client, now);
    SwitchesIff(c, sid, identity, client, now);
    if MaySwitch(d, sid, identity, client, now) {
      var row := d.sessions[sid];
      SwitchedIssues(d, sid, identity, client, now);
      SwitchedIssues(c, sid, identity, client, now);
      AlikeSwitchedOff(d, c, now, same, sid, identity, row.refreshTokenId);
      var g := Grant(identity, client, sid, Some(row.level.GetOr(Aal1)), None, DEFAULT_SCOPES);
      AlikeIssue(SwitchedOff(d, sid, identity, row.refreshTokenId, now), SwitchedOff(c, sid, identity, row.refreshTokenId, now), now, same, g, g);
    }
  }

  lemma AlikeBulkWrite(d: Db, c: Db, now: int, same: bool, scope: Scope)
    requires Sound(d, now) && Alike(d, c, now, same)
    ensures var sids := SidsRead(d, scope);
      Alike(BulkWrite(d, scope, sids, Expiries(d, AccessOf(d, scope, sids)), now),
            BulkWrite(c, scope, sids, Expiries(c, AccessOf(c, scope, sids)), now), now, same)
  {
    AlikeAccess(d, c, now, same, scope);
    var sids := SidsRead(d, scope);
    var keys, f, g := RefreshOf(d, scope, sids), AccessOf(d, scope, sids), AccessOf(c, scope, sids);
    AlikeEnd(d, c, now, same, keys, Stamp(scope, now), None);
    var d1, c1 := RevokeRefresh(d, keys, Stamp(scope, now)), RevokeRefresh(c, keys, Stamp(scope, now));
    AlikeBlocklist(d1, c1, now, same, f, g);
    AlikeSessions(RecordRevoked(MarkAccess(d1, f), f), RecordRevoked(MarkAccess(c1, g), g), now, same, Invalidated(d.sessions, scope, sids));
    BulkWriteIs(d, scope, now);
    BulkWriteIs(c, scope, now);
  }

  lemma BulkRevokedIs(db: Db, scope: Scope, now: int)
    ensures var sids := SidsRead(db, scope);
      BulkRevoked(db, scope, now).0 ==
        if ReturnsEarly(scope, sids) || !BulkRevoked(db, scope, now).1 then db
        else BulkWrite(db, scope, sids, Expiries(db, AccessOf(db, scope, sids)), now)
  {
  }

  lemma AlikeBulk(d: Db, c: Db, now: int, same: bool, scope: Scope)
    requires Sound(d, now) && Alike(d, c, now, same)
    ensures Alike(BulkRevoked(d, scope, now).0, BulkRevoked(c, scope, now).0, now, same)
  {
    AlikeAccess(d, c, now, same, scope);
    AlikeBulkAnswer(d, c, now, same, scope);
    BulkRevokedIs(d, scope, now);
    BulkRevokedIs(c, scope, now);
    AlikeBulkWrite(d, c, now, same, scope);
  }

  lemma AlikeClean(d: Db, c: Db, now: int, same: bool)
    requires Sound(d, now) && Alike(d, c, now, same)
    ensures Alike(Cleaned(d, now), Cleaned(c, now), now, same)
  {
    JtisAlikeClean(d, c, now);
  }

  lemma JtisAlikeClean(d: Db, c: Db, now: int)
    requires Sound(d, now) && Alike(d, c, now, false)
    ensures JtisAlike(Cleaned(d, now), Cleaned(c, now), now)
  {
    AccessAlikeClean(d, c, now);
    RecordsAlikeClean(d, c, now);
  }

  lemma AccessAlikeClean(d: Db, c: Db, now: int)
    requires Sound(d, now) && Alike(d, c, now, false)
    ensures AccessAlike(Cleaned(d, now), Cleaned(c, now), now)
  {
  }

  lemma RecordsAlikeClean(d: Db, c: Db, now: int)
    requires Sound(d, now) && Alike(d, c, now, false)
    ensures RecordsAlike(Cleaned(d, now), Cleaned(c, now), now)
  {
  }

  lemma AlikeAccounts(d: Db, c: Db, now: int, same: bool, step: Protocol.Step)
    requires Alike(d, c, now, same) && Protocol.IsAccountStep(step)
    ensures Alike(Protocol.ApplyAccounts(d, step), Protocol.ApplyAccounts(c, step), now, same)
  {
  }

  ghost predicate AlikeWorlds(d: World, c: World, same: bool) {
    d.now == c.now && Alike(d.db, c.db, d.now, same)
  }

  /** Level two signed for a session row that is written first. */
  lemma AlikeElevate(d: Db, c: Db, now: int, same: bool, sid: nat, row: SessionRow, client: nat)
    requires Sound(d, now) && Alike(d, c, now, same) && sid in d.sessions && row.identityId == d.sessions[sid].identityId
    ensures var g := Grant(row.identityId, client, sid, Some(Aal2), None, DEFAULT_SCOPES);
      Alike(Issue(SetSession(d, sid, row), g, now), Issue(SetSession(c, sid, row), g, now), now, same)
  {
    var g := Grant(row.identityId, client, sid, Some(Aal2), None, DEFAULT_SCOPES);
    AlikeSessions(d, c, now, same, d.sessions[sid := row]);
    ElevateIsSound(d, sid, row, now);
    AlikeIssue(SetSession(d, sid, row), SetSession(c, sid, row), now, same, g, g);
  }

  lemma AlikeMfa(d: Db, c: Db, now: int, same: bool, sid: nat, client: nat, codeOk: bool)
    requires Sound(d, now) && Alike(d, c, now, same)
    ensures Alike(MfaVerified(d, sid, client, codeOk, now).0, MfaVerified(c, sid, client, codeOk, now).0, now, same)
  {
    if MfaVerified(d, sid, client, codeOk, now).1 { AlikeElevate(d, c, now, same, sid, d.sessions[sid].(level := Some(Aal2)), client); }
  }

  lemma AlikeRecovery(d: Db, c: Db, now: int, same: bool, sid: nat, client: nat, codeOk: bool)
    requires Sound(d, now) && Alike(d, c, now, same)
    ensures Alike(Recovered(d, sid, client, codeOk, now).0, Recovered(c, sid, client, codeOk, now).0, now, same)
  {
    if Recovered(d, sid, client, codeOk, now).1 {
      AlikeElevate(d, c, now, same, sid, d.sessions[sid].(valid := true, level := Some(Aal2)), client);
    }
  }

  lemma AlikeSignIn(d: Db, c: Db, now: int, same: bool, q: Request)
    requires Sound(d, now) && Alike(d, c, now, same) && (q.LoginAs? || q.LoginParked?)
    ensures AlikeWorlds(Serve(World(d, now), q), Serve(World(c, now), q), same)
  {
    if q.identity in d.identities {
      var row := if q.LoginAs? then SessionRow(q.identity, None, true, q.expiresAt, Some(q.level), None)
                 else SessionRow(q.identity, None, false, q.expiresAt, Some(Aal1), None);
      AlikeAdd(d, c, now, same, q.identity, q.evicted, row);
      AddIsSound(d, q.identity, q.evicted, row, now);
      if q.LoginAs? && q.client in d.clients {
        var g := Grant(q.identity, q.client, d.nextId, Some(q.level), None, DEFAULT_SCOPES);
        AlikeIssue(AddSession(Protocol.Evict(d, q.identity, q.evicted), row), AddSession(Protocol.Evict(c, q.identity, q.evicted), row), now, same, g, g);
      }
    }
  }

  lemma AlikeExchange(d: Db, c: Db, now: int, same: bool, q: Request)
    requires Sound(d, now) && Alike(d, c, now, same) && q.ExchangeCode?
    ensures AlikeWorlds(Serve(World(d, now), q), Serve(World(c, now), q), same)
  {
    assert ValidOf(d, q.identity) == ValidOf(c, q.identity);
    if MayExchange(d, q.identity, q.client) {
      var sid := SessionFound(d, q.identity).value;
      var g := Grant(q.identity, q.client, sid, Some(LevelOf(d.sessions[sid])), None, q.scopes);
      AlikeIssue(d, c, now, same, g, g);
    }
  }

  lemma AlikeStepUp(d: Db, c: Db, now: int, same: bool, jti: nat, sid: nat)
    requires Alike(d, c, now, same)
    ensures AlikeWorlds(Serve(World(d, now), StepUp(jti, sid)), Serve(World(c, now), StepUp(jti, sid)), same)
  {
    AlikeGuards(d, c, now, same, jti, User);
    if CanStepUp(World(d, now), jti, sid) {
      AlikeSessions(d, c, now, same, Elevated(d, sid, now).sessions);
    }
  }

  /** The requests whose effect is behind an access token. */
  lemma AlikeAuthenticated(d: World, c: World, same: bool, q: Request)
    requires Sound(d.db, d.now) && AlikeWorlds(d, c, same) && (q.RevokeById? || q.LogoutOf? || q.SwitchTo?)
    ensures AlikeWorlds(Serve(d, q), Serve(c, q), same)
  {
    AlikeGuards(d.db, c.db, d.now, same, q.jti, User);
    if GuardAccepts(d.db, q.jti, User, d.now) {
      var claims := d.db.jwts[q.jti];
      match q
      case RevokeById(_, key) => AlikeRevokeById(d.db, c.db, d.now, same, key, claims.sub);
      case LogoutOf(jti, sid) => AlikeLogout(d.db, c.db, d.now, same, Some(claims.sub), sid, jti);
      case SwitchTo(_, client) =>
        assert ValidOf(d.db, claims.sub) == ValidOf(c.db, claims.sub);
        if MaySwitchTo(d.db, claims.sub, client, d.now) {
          AlikeSwitch(d.db, c.db, d.now, same, SessionFound(d.db, claims.sub).value, claims.sub, client);
        }
    }
  }

  lemma AlikeServe(d: World, c: World, same: bool, q: Request)
    requires Sound(d.db, d.now) && AlikeWorlds(d, c, same)
    ensures AlikeWorlds(Serve(d, q), Serve(c, q), same)
  {
    match q
    case Wait(ms) =>
    case Guarded(_, _) =>
    case Introspect(_) =>
    case RefreshWith(token) => AlikeRefresh(d.db, c.db, d.now, same, token);
    case ExchangeCode(_, _, _) => AlikeExchange(d.db, c.db, d.now, same, q);
    case RevokeToken(token, owner) => AlikeRevokeToken(d.db, c.db, d.now, same, token, owner);
    case RevokeById(_, _) => AlikeAuthenticated(d, c, same, q);
    case LogoutOf(_, _) => AlikeAuthenticated(d, c, same, q);
    case StepUp(jti, sid) => AlikeStepUp(d.db, c.db, d.now, same, jti, sid);
    case LoginAs(_, _, _, _, _) => AlikeSignIn(d.db, c.db, d.now, same, q);
    case LoginParked(_, _, _) => AlikeSignIn(d.db, c.db, d.now, same, q);
    case VerifyMfa(sid, client, codeOk) => AlikeMfa(d.db, c.db, d.now, same, sid, client, codeOk);
    case RecoverWith(sid, client, codeOk) => AlikeRecovery(d.db, c.db, d.now, same, sid, client, codeOk);
    case SwitchTo(_, _) => AlikeAuthenticated(d, c, same, q);
    case Bulk(scope) => AlikeBulk(d.db, c.db, d.now, same, scope);
    case SetStatus(_, _) =>
    case Account(step) => if AccountExists(d.db, step) { AlikeAccounts(d.db, c.db, d.now, same, step); }
  }

  /** All answers but those on access-token rows and inherited scopes stay alike; those too if the access-token
      rows are the same. */
  lemma {:induction false} AlikeAnswerAlike(d: World, c: World, same: bool, events: seq<Event>)
    requires Sound(d.db, d.now) && AlikeWorlds(d, c, same)
    ensures SeenAnswers(d, events) == SeenAnswers(c, events)
    ensures same ==> Answers(d, events) == Answers(c, events)
    decreases |events|
  {
    if events != [] {
      if events[0].Swept? {
        AlikeClean(d.db, c.db, d.now, same);
      } else {
        AlikeAnswers(d.db, c.db, d.now, same, events[0].q);
        AlikeServe(d, c, same, events[0].q);
      }
      NextIsSound(d, events[0]);
      AlikeAnswerAlike(Next(d, events[0]), Next(c, events[0]), same, events[1..]);
    }
  }
}
