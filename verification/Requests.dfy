/** Requests one after another, with cleanups in between, and what they are answered: the guards
    (src/api/plugins/auth-guard.plugin.ts), refresh, code exchange, introspection, revocation one by one and in
    bulk, logout, step-up, MFA verification, recovery, context switch, login, and the coming and going of accounts. */
module Requests {
  import opened Options
  import opened Tokens
  import opened BulkRevocation
  import opened CleanupJob
  import opened Evolution
  import opened Flows
  import Protocol

  const STEP_UP_WINDOW_MS := 15 * 60 * 1000

  datatype Need = User | Scoped(scope: nat) | StrongSession | RecentStepUp

  /** requireAal2 and requireElevated on the session row. */
  predicate SessionSatisfies(row: SessionRow, need: Need, now: int) {
    && row.valid && !(row.expiresAt < now) && LevelOf(row).Aal2?
    && (need.RecentStepUp? ==> row.elevatedAt.Some? && now - row.elevatedAt.value < STEP_UP_WINDOW_MS)
  }

  predicate OfSession(need: Need) { need.StrongSession? || need.RecentStepUp? }

  /** What the guards answer for an access token, going by the tables alone. */
  predicate GuardAccepts(db: Db, jti: nat, need: Need, now: int) {
    && jti in db.jwts && now < db.jwts[jti].exp && jti !in db.revokedJti
    && (need.Scoped? ==> jti in db.scopes && need.scope in db.scopes[jti])
    && (OfSession(need) ==> db.jwts[jti].sid in db.sessions && SessionSatisfies(db.sessions[db.jwts[jti].sid], need, now))
  }

  datatype World = World(db: Db, now: int)

  datatype Request =
    | Wait(ms: nat)
    | Guarded(jti: nat, need: Need)
    | RefreshWith(token: nat)
    | Introspect(token: nat)
    | ExchangeCode(identity: nat, client: nat, scopes: set<nat>)
    | RevokeToken(token: nat, owner: Option<nat>)
    | RevokeById(jti: nat, key: nat)           // authenticated by jti
    | LogoutOf(jti: nat, sid: nat)             // authenticated by jti; the session id comes from the body
    | StepUp(jti: nat, sid: nat)               // the same
    | LoginAs(identity: nat, client: nat, level: Level, expiresAt: int, evicted: set<nat>)
    | LoginParked(identity: nat, expiresAt: int, evicted: set<nat>)
    | VerifyMfa(sid: nat, client: nat, codeOk: bool)
    | RecoverWith(sid: nat, client: nat, codeOk: bool)
    | SwitchTo(jti: nat, client: nat)          // authenticated by jti; switches the session it finds
    | Bulk(scope: Scope)
    | SetStatus(identity: nat, status: UserStatus)
    | Account(step: Protocol.Step)             // an identity or client added or deleted

  /** What the caller is told. Tokens come with the claims and scopes that depend on the tables. */
  datatype Response = Refused | Allowed | Issued(sid: nat, level: Option<Level>, scopes: set<nat>) | Granted(scopes: set<nat>)

  function Allow(ok: bool): Response { if ok then Allowed else Refused }

  predicate CanStepUp(w: World, jti: nat, sid: nat) {
    GuardAccepts(w.db, jti, User, w.now) && Usable(w.db, sid, w.db.jwts[jti].sub, w.now)
  }

  /** POST /oauth/introspect: an access-token row that is not revoked decides, else a refresh token. */
  function Introspection(db: Db, token: nat, now: int): Response {
    if token in db.access && !db.access[token].revoked then
      if db.access[token].expiresAt <= now || token in db.revokedJti then Refused
      else Granted(if token in db.scopes then db.scopes[token] else {})
    else Allow(IsLive(db, token) && db.refresh[token].expiresAt > now)
  }

  /** Conditions under which a refresh goes through. */
  predicate MayRotate(db: Db, token: nat, now: int) {
    && IsLive(db, token) && db.refresh[token].expiresAt > now
    && CanIssue(db, db.refresh[token].identityId, db.refresh[token].clientId)
    && var status := db.identities[db.refresh[token].identityId]; !status.Deleted? && !status.Suspended? && !status.Banned?
  }

  lemma RotatesIff(db: Db, token: nat, now: int)
    ensures Refresh(db, token, now).1.Accepted? <==> MayRotate(db, token, now)
  {
  }

  predicate MaySwitch(db: Db, sid: nat, identity: nat, client: nat, now: int) {
    && Usable(db, sid, identity, now) && CanIssue(db, identity, client)
    && (db.sessions[sid].refreshTokenId.Some? ==> IsLive(db, db.sessions[sid].refreshTokenId.value))
  }

  lemma SwitchesIff(db: Db, sid: nat, identity: nat, client: nat, now: int)
    ensures Switched(db, sid, identity, client, now).1 <==> MaySwitch(db, sid, identity, client, now)
    ensures !MaySwitch(db, sid, identity, client, now) ==> Switched(db, sid, identity, client, now).0 == db
  {
  }

  /** The route hands the flow the identity's valid session created last, expired or not. */
  predicate MaySwitchTo(db: Db, identity: nat, client: nat, now: int) {
    SessionFound(db, identity).Some? && MaySwitch(db, SessionFound(db, identity).value, identity, client, now)
  }

  predicate MayExchange(db: Db, identity: nat, client: nat) {
    SessionFound(db, identity).Some? && CanIssue(db, identity, client)
  }

  predicate AccountExists(db: Db, step: Protocol.Step) {
    && Protocol.IsAccountStep(step)
    && (step.RemoveIdentity? ==> step.identity in db.identities)
    && (step.RemoveClient? ==> step.client in db.clients)
  }

  function RotationAnswer(db: Db, token: nat, now: int): Response {
    if !MayRotate(db, token, now) then Refused
    else
      var g := RotationGrant(db, token, db.refresh[token]);
      Issued(g.sessionId, g.level, g.scopes)
  }

  function ExchangeAnswer(db: Db, identity: nat, client: nat, scopes: set<nat>): Response {
    if !MayExchange(db, identity, client) then Refused
    else
      var sid := SessionFound(db, identity).value;
      Issued(sid, Some(LevelOf(db.sessions[sid])), scopes)
  }

  function Answer(w: World, q: Request): Response {
    match q
    case Guarded(jti, need) => Allow(GuardAccepts(w.db, jti, need, w.now))
    case RefreshWith(token) => RotationAnswer(w.db, token, w.now)
    case Introspect(token) => Introspection(w.db, token, w.now)
    case ExchangeCode(identity, client, scopes) => ExchangeAnswer(w.db, identity, client, scopes)
    case RevokeById(jti, key) => Allow(GuardAccepts(w.db, jti, User, w.now) && RevokedById(w.db, key, w.db.jwts[jti].sub).1)
    case LogoutOf(jti, _) => Allow(GuardAccepts(w.db, jti, User, w.now))
    case StepUp(jti, sid) => Allow(CanStepUp(w, jti, sid))
    case LoginAs(identity, client, _, _, _) => Allow(CanIssue(w.db, identity, client))
    case LoginParked(identity, _, _) => Allow(identity in w.db.identities)
    case VerifyMfa(sid, client, codeOk) => Allow(MfaVerified(w.db, sid, client, codeOk, w.now).1)
    case RecoverWith(sid, client, codeOk) => Allow(Recovered(w.db, sid, client, codeOk, w.now).1)
    case SwitchTo(jti, client) =>
      Allow(GuardAccepts(w.db, jti, User, w.now) && MaySwitchTo(w.db, w.db.jwts[jti].sub, client, w.now))
    case Bulk(scope) => Allow(BulkRevoked(w.db, scope, w.now).1)
    case SetStatus(identity, _) => Allow(identity in w.db.identities)
    case Account(step) => Allow(AccountExists(w.db, step))
    case _ => Allowed
  }

  /** A login without a second factor. Its session is there before issue() finds out that the client is not. */
  function LoggedIn(db: Db, identity: nat, client: nat, level: Level, expiresAt: int, evicted: set<nat>, now: int): Db {
    if identity !in db.identities then db
    else if client !in db.clients
    then AddSession(Protocol.Evict(db, identity, evicted), SessionRow(identity, None, true, expiresAt, Some(level), None))
    else Login(Protocol.Evict(db, identity, evicted), identity, client, level, expiresAt, now)
  }

  function Parked(db: Db, identity: nat, expiresAt: int, evicted: set<nat>): Db {
    if identity !in db.identities then db
    else AddSession(Protocol.Evict(db, identity, evicted), SessionRow(identity, None, false, expiresAt, Some(Aal1), None))
  }

  function Serve(w: World, q: Request): World {
    match q
    case Wait(ms) => w.(now := w.now + ms)
    case Guarded(_, _) => w
    case Introspect(_) => w
    case RefreshWith(token) => w.(db := Refresh(w.db, token, w.now).0)
    case ExchangeCode(identity, client, scopes) =>
      if !MayExchange(w.db, identity, client) then w
      else w.(db := Exchanged(w.db, SessionFound(w.db, identity).value, client, scopes, w.now).0)
    case RevokeToken(token, owner) => w.(db := Revoke(w.db, token, owner))
    case RevokeById(jti, key) =>
      if !GuardAccepts(w.db, jti, User, w.now) then w else w.(db := RevokedById(w.db, key, w.db.jwts[jti].sub).0)
    case LogoutOf(jti, sid) =>
      if !GuardAccepts(w.db, jti, User, w.now) then w
      else w.(db := Logout(w.db, Some(w.db.jwts[jti].sub), sid, Some(jti), Some(w.db.jwts[jti].exp), w.now))
    case StepUp(jti, sid) => if !CanStepUp(w, jti, sid) then w else w.(db := Elevated(w.db, sid, w.now))
    case LoginAs(identity, client, level, expiresAt, evicted) =>
      w.(db := LoggedIn(w.db, identity, client, level, expiresAt, evicted, w.now))
    case LoginParked(identity, expiresAt, evicted) => w.(db := Parked(w.db, identity, expiresAt, evicted))
    case VerifyMfa(sid, client, codeOk) => w.(db := MfaVerified(w.db, sid, client, codeOk, w.now).0)
    case RecoverWith(sid, client, codeOk) => w.(db := Recovered(w.db, sid, client, codeOk, w.now).0)
    case SwitchTo(jti, client) =>
      if !(GuardAccepts(w.db, jti, User, w.now) && MaySwitchTo(w.db, w.db.jwts[jti].sub, client, w.now)) then w
      else w.(db := Switched(w.db, SessionFound(w.db, w.db.jwts[jti].sub).value, w.db.jwts[jti].sub, client, w.now).0)
    case Bulk(scope) => w.(db := BulkRevoked(w.db, scope, w.now).0)
    case SetStatus(identity, status) =>
      if identity !in w.db.identities then w else w.(db := w.db.(identities := w.db.identities[identity := status]))
    case Account(step) => if !AccountExists(w.db, step) then w else w.(db := Protocol.ApplyAccounts(w.db, step))
  }

  /** The guards, column by column: the token verifies and is not recorded; for a scope, it was granted it; for a
      strong session its session's row is valid, unexpired and at aal2, for a recent step-up also elevated within
      the last 15 minutes. */
  lemma GuardNeeds(db: Db, jti: nat, need: Need, now: int)
    ensures GuardAccepts(db, jti, User, now) <==> jti in db.jwts && now < db.jwts[jti].exp && jti !in db.revokedJti
    ensures need.Scoped? ==>
      (GuardAccepts(db, jti, need, now) <==> GuardAccepts(db, jti, User, now) && jti in db.scopes && need.scope in db.scopes[jti])
    ensures OfSession(need) ==>
      (GuardAccepts(db, jti, need, now) <==>
        && GuardAccepts(db, jti, User, now) && db.jwts[jti].sid in db.sessions
        && var row := db.sessions[db.jwts[jti].sid];
           && row.valid && now <= row.expiresAt && row.level == Some(Aal2)
           && (need.RecentStepUp? ==> row.elevatedAt.Some? && now < row.elevatedAt.value + 15 * 60_000))
  {
  }

  /** The questions that go by a flow's own conditions are answered as the flow goes. */
  lemma AnswersAreFlows(w: World, identity: nat, client: nat, scopes: set<nat>, token: nat)
    ensures Answer(w, ExchangeCode(identity, client, scopes)) != Refused <==>
      SessionFound(w.db, identity).Some? && Exchanged(w.db, SessionFound(w.db, identity).value, client, scopes, w.now).1
    ensures var reply := Refresh(w.db, token, w.now).1;
      Answer(w, RefreshWith(token)) ==
        if reply.Accepted? then Issued(w.db.refresh[token].sessionId.GetOr(token), reply.level, reply.scopes) else Refused
  {
    FoundIsNewest(w.db, identity);
  }

  /** Introspection reports an access token as active exactly while its row is neither revoked nor expired nor
      recorded, with the scopes it was granted, and a refresh token while it is live and unexpired. */
  lemma IntrospectionRows(db: Db, token: nat, now: int)
    ensures token in db.access && !db.access[token].revoked ==>
      (Introspection(db, token, now).Granted? <==> now < db.access[token].expiresAt && token !in db.revokedJti)
    ensures Introspection(db, token, now).Granted? && token in db.scopes ==> Introspection(db, token, now).scopes == db.scopes[token]
    ensures !(token in db.access && !db.access[token].revoked) ==>
      (Introspection(db, token, now) == Allowed <==>
         token in db.refresh && !db.refresh[token].revoked && now < db.refresh[token].expiresAt)
    ensures Introspection(db, token, now) != Refused ==> token in db.access || token in db.refresh
  {
  }

  function Clean(w: World): World { w.(db := Cleaned(w.db, w.now)) }

  datatype Event = Asked(q: Request) | Swept

  function Next(w: World, e: Event): World { if e.Swept? then Clean(w) else Serve(w, e.q) }

  function Told(w: World, e: Event): Response { if e.Asked? then Answer(w, e.q) else Allowed }

  function Answers(w: World, events: seq<Event>): seq<Response>
    decreases |events|
  {
    if events == [] then [] else [Told(w, events[0])] + Answers(Next(w, events[0]), events[1..])
  }

  /** Whether an answer speaks of access-token rows, or of scopes taken over from one. */
  predicate SeesAccessRows(q: Request) { q.RevokeById? || (q.Guarded? && q.need.Scoped?) }

  /** What is left of an answer when access-token rows and scopes are not looked at. */
  function Seen(q: Request, a: Response): Response {
    if SeesAccessRows(q) then Refused else if a.Issued? || a.Granted? then a.(scopes := {}) else a
  }

  function SeenOf(e: Event, a: Response): Response { if e.Asked? then Seen(e.q, a) else a }

  /** The answers to the same requests, so looked at. */
  function SeenAnswers(w: World, events: seq<Event>): seq<Response>
    decreases |events|
  {
    if events == [] then []
    else [SeenOf(events[0], Told(w, events[0]))] + SeenAnswers(Next(w, events[0]), events[1..])
  }

  function Play(w: World, events: seq<Event>): World {
    if events == [] then w else Next(Play(w, events[..|events| - 1]), events[|events| - 1])
  }

  /** Empty token tables; identities, clients and configuration are whatever they are. */
  predicate Empty(w: World) {
    && w.db.refresh == map[] && w.db.access == map[] && w.db.sessions == map[] && w.db.revokedJti == map[]
    && w.db.jwts == map[] && w.db.scopes == map[] && 0 <= w.now
    && (forall c | c in w.db.clients :: c < w.db.nextId) && (forall i | i in w.db.identities :: i < w.db.nextId)
  }

  // ---------------------------------------------------------------------------------------------
  // What holds in every state that requests and cleanups lead to
  // ---------------------------------------------------------------------------------------------

  ghost predicate Sound(db: Db, now: int) { Fresh(db) && Settled(db, now) }

  ghost predicate Settled(db: Db, now: int) {
    && 0 <= now && db.scopes.Keys == db.jwts.Keys
    && (forall j | j in db.access :: j !in db.refresh && j in db.jwts && db.jwts[j].exp == db.access[j].expiresAt)
    && (forall j | j in db.access :: db.access[j].expiresAt == db.access[j].issuedAt + db.config.accessTtl)
    && (forall j | j in db.revokedJti :: j < db.nextId && (j in db.jwts ==> db.jwts[j].exp == db.revokedJti[j]))
    && (forall j | j in db.access && db.access[j].revoked && now < db.jwts[j].exp :: j in db.revokedJti)
  }

  /** Refresh tokens and sessions may change as they like, as long as they stay fresh. */
  lemma UpdateIsSettled(db: Db, now: int, refresh: map<nat, RefreshRow>, sessions: map<nat, SessionRow>, nextId: nat)
    requires Settled(db, now) && db.nextId <= nextId && forall k | k in refresh :: k !in db.access
    ensures Settled(db.(refresh := refresh, sessions := sessions, nextId := nextId), now)
  {
  }

  lemma BlocklistIsSound(db: Db, live: set<nat>, now: int)
    requires Sound(db, now) && live <= db.access.Keys
    ensures Sound(RecordRevoked(MarkAccess(db, live), live), now)
  {
    RecordEvolves(db, live, Expiries(MarkAccess(db, live), live));
    BlocklistIsSettled(db, live, now);
  }

  lemma BlocklistIsSettled(db: Db, live: set<nat>, now: int)
    requires Sound(db, now) && live <= db.access.Keys
    ensures Settled(RecordRevoked(MarkAccess(db, live), live), now)
  {
  }

  lemma RevokeIsSound(db: Db, keys: set<nat>, at: Option<int>, now: int)
    requires Sound(db, now)
    ensures Sound(RevokeRefresh(db, keys, at), now)
  {
    var after := RevokeRefresh(db, keys, at);
    RevokeRefreshEvolves(db, keys, at);
    UpdateIsSettled(db, now, after.refresh, db.sessions, db.nextId);
    assert after == db.(refresh := after.refresh, sessions := db.sessions, nextId := db.nextId);
  }

  lemma SessionsAreSound(db: Db, sessions: map<nat, SessionRow>, now: int)
    requires Sound(db, now) && sessions.Keys == db.sessions.Keys
    requires forall q | q in sessions :: sessions[q].identityId == db.sessions[q].identityId
    ensures Sound(db.(sessions := sessions), now)
  {
    UpdateIsSettled(db, now, db.refresh, sessions, db.nextId);
    assert db.(sessions := sessions) == db.(refresh := db.refresh, sessions := sessions, nextId := db.nextId);
  }

  lemma IssueAccessIsSound(db: Db, g: Grant, now: int)
    requires Sound(db, now) && CanIssue(db, g.identityId, g.clientId)
    ensures Sound(IssueAccess(db, g, now), now)
  {
    IssueAccessEvolves(db, g, now);
    IssueAccessIsSettled(db, g, now);
  }

  lemma IssueAccessIsSettled(db: Db, g: Grant, now: int)
    requires Sound(db, now)
    ensures Settled(IssueAccess(db, g, now), now)
  {
  }

  lemma IssueIsSound(db: Db, g: Grant, now: int)
    requires Sound(db, now) && CanIssue(db, g.identityId, g.clientId)
    ensures Sound(Issue(db, g, now), now)
  {
    IssueAccessIsSound(db, g, now);
    var db1 := IssueAccess(db, g, now);
    var db2 := IssueRefresh(db1, g, now);
    var db3 := BindSession(db2, g.sessionId, db1.nextId);
    IssueRefreshEvolves(db1, g, now);
    BindEvolves(db2, g.sessionId, db1.nextId);
    UpdateIsSettled(db1, now, db3.refresh, db3.sessions, db3.nextId);
    assert db3 == db1.(refresh := db3.refresh, sessions := db3.sessions, nextId := db3.nextId);
  }

  lemma AddIsSound(db: Db, identity: nat, evicted: set<nat>, row: SessionRow, now: int)
    requires Sound(db, now) && row.identityId in db.identities
    ensures Sound(AddSession(Protocol.Evict(db, identity, evicted), row), now)
  {
    var after := AddSession(Protocol.Evict(db, identity, evicted), row);
    AddSessionEvolves(db, identity, evicted, row);
    UpdateIsSettled(db, now, db.refresh, after.sessions, after.nextId);
    assert after == db.(refresh := db.refresh, sessions := after.sessions, nextId := after.nextId);
  }

  lemma EndIsSound(db: Db, keys: set<nat>, at: Option<int>, sid: Option<nat>, now: int)
    requires Sound(db, now)
    ensures var after := InvalidateSession(RevokeRefresh(db, keys, at), sid);
      Sound(after, now) && after.jwts == db.jwts && after.access == db.access && after.revokedJti == db.revokedJti
  {
    var db1 := RevokeRefresh(db, keys, at);
    RevokeIsSound(db, keys, at, now);
    var db2 := InvalidateSession(db1, sid);
    SessionsAreSound(db1, db2.sessions, now);
    assert db2 == db1.(sessions := db2.sessions);
  }

  lemma KillIsSound(db: Db, r: RefreshRow, now: int)
    requires Sound(db, now)
    ensures Sound(KillChain(db, r, now), now)
  {
    EndIsSound(db, FamilyKeys(db, r.familyId), None, r.sessionId, now);
    BlocklistIsSound(EndFamily(db, r), LiveAccess(EndFamily(db, r), r.identityId, r.clientId, now), now);
  }

  lemma RefreshIsSound(db: Db, token: nat, now: int)
    requires Sound(db, now)
    ensures Sound(Refresh(db, token, now).0, now)
  {
    if token in db.refresh && db.refresh[token].revoked {
      KillIsSound(db, db.refresh[token], now);
    } else if MayRotate(db, token, now) {
      RevokeIsSound(db, {token}, Some(now), now);
      IssueIsSound(SwapRefresh(db, token, now), RotationGrant(db, token, db.refresh[token]), now);
    } else {
      RefusalChangesNothing(db, token, now);
    }
  }

  /** A refresh that neither is accepted nor sets off a kill-chain leaves the tables alone. */
  lemma RefusalChangesNothing(db: Db, token: nat, now: int)
    requires !(token in db.refresh && db.refresh[token].revoked) && !MayRotate(db, token, now)
    ensures Refresh(db, token, now).0 == db
  {
  }

  lemma RecordIsSound(db: Db, jti: nat, now: int)
    requires Sound(db, now) && jti in db.jwts
    ensures Sound(Record(db, map[jti := db.jwts[jti].exp]), now)
  {
  }

  lemma LogoutIsSound(db: Db, owner: Option<nat>, sid: nat, jti: nat, now: int)
    requires Sound(db, now) && jti in db.jwts
    ensures Sound(Logout(db, owner, sid, Some(jti), Some(db.jwts[jti].exp), now), now)
  {
    if sid in db.sessions && Owned(owner, db.sessions[sid].identityId) {
      EndIsSound(db, LogoutKeys(db, sid), Some(now), Some(sid), now);
      RecordIsSound(InvalidateSession(RevokeRefresh(db, LogoutKeys(db, sid), Some(now)), Some(sid)), jti, now);
    }
  }

  lemma SwitchIsSound(db: Db, sid: nat, identity: nat, client: nat, now: int)
    requires Sound(db, now) && Switched(db, sid, identity, client, now).1
    ensures Sound(Switched(db, sid, identity, client, now).0, now)
  {
    var row, live := db.sessions[sid], Protocol.SessionAccess(db, sid, identity);
    var db1 := if row.refreshTokenId.Some? then SwapRefresh(db, row.refreshTokenId.value, now) else db;
    if row.refreshTokenId.Some? { RevokeIsSound(db, {row.refreshTokenId.value}, Some(now), now); }
    BlocklistIsSound(db1, live, now);
    IssueIsSound(if live == {} then db1 else RecordRevoked(MarkAccess(db1, live), live),
                 Grant(identity, client, sid, Some(row.level.GetOr(Aal1)), None, DEFAULT_SCOPES), now);
  }

  lemma BulkIsSound(db: Db, scope: Scope, now: int)
    requires Sound(db, now)
    ensures Sound(BulkRevoked(db, scope, now).0, now)
  {
    var sids := SidsRead(db, scope);
    BulkWriteIs(db, scope, now);
    RevokeAndBlockIsSound(db, RefreshOf(db, scope, sids), Stamp(scope, now), AccessOf(db, scope, sids), now);
    InvalidatedIsSound(RecordRevoked(MarkAccess(RevokeRefresh(db, RefreshOf(db, scope, sids), Stamp(scope, now)), AccessOf(db, scope, sids)),
                                     AccessOf(db, scope, sids)), scope, sids, now);
  }

  lemma InvalidatedIsSound(db: Db, scope: Scope, sids: set<nat>, now: int)
    requires Sound(db, now)
    ensures Sound(db.(sessions := Invalidated(db.sessions, scope, sids)), now)
  {
    SessionsAreSound(db, Invalidated(db.sessions, scope, sids), now);
  }

  lemma RevokeAndBlockIsSound(db: Db, keys: set<nat>, at: Option<int>, live: set<nat>, now: int)
    requires Sound(db, now) && live <= db.access.Keys
    ensures var after := RecordRevoked(MarkAccess(RevokeRefresh(db, keys, at), live), live);
      Sound(after, now) && after.sessions == db.sessions
  {
    RevokeIsSound(db, keys, at, now);
    BlocklistIsSound(RevokeRefresh(db, keys, at), live, now);
  }

  /** The bulk transaction as a blocklisting and an update of the other tables. */
  lemma BulkWriteIs(db: Db, scope: Scope, now: int)
    ensures var sids := SidsRead(db, scope);
      var live := AccessOf(db, scope, sids);
      var db1 := RevokeRefresh(db, RefreshOf(db, scope, sids), Stamp(scope, now));
      BulkWrite(db, scope, sids, Expiries(db, live), now)
        == RecordRevoked(MarkAccess(db1, live), live).(sessions := Invalidated(db.sessions, scope, sids))
  {
    var sids := SidsRead(db, scope);
    var live := AccessOf(db, scope, sids);
    var db1 := RevokeRefresh(db, RefreshOf(db, scope, sids), Stamp(scope, now));
    assert AccessOf(db1, scope, sids) == live;
    assert Expiries(MarkAccess(db1, live), live) == Expiries(db, live);
  }

  lemma ElevateIsSound(db: Db, sid: nat, row: SessionRow, now: int)
    requires Sound(db, now) && sid in db.sessions && row.identityId == db.sessions[sid].identityId
    ensures Sound(SetSession(db, sid, row), now)
  {
    SessionsAreSound(db, db.sessions[sid := row], now);
  }

  ghost predicate StaysSound(w: World, q: Request) { Sound(Serve(w, q).db, Serve(w, q).now) }

  lemma SignInIsSound(w: World, q: Request)
    requires Sound(w.db, w.now) && (q.LoginAs? || q.LoginParked?)
    ensures StaysSound(w, q)
  {
    if q.identity in w.db.identities {
      var row := if q.LoginAs? then SessionRow(q.identity, None, true, q.expiresAt, Some(q.level), None)
                 else SessionRow(q.identity, None, false, q.expiresAt, Some(Aal1), None);
      AddIsSound(w.db, q.identity, q.evicted, row, w.now);
      if q.LoginAs? && q.client in w.db.clients {
        IssueIsSound(AddSession(Protocol.Evict(w.db, q.identity, q.evicted), row),
                     Grant(q.identity, q.client, w.db.nextId, Some(q.level), None, DEFAULT_SCOPES), w.now);
      }
    }
  }

  lemma SecondFactorIsSound(w: World, q: Request)
    requires Sound(w.db, w.now) && (q.VerifyMfa? || q.RecoverWith?)
    ensures StaysSound(w, q)
  {
    if Answer(w, q).Allowed? {
      var before := w.db.sessions[q.sid];
      var row := if q.VerifyMfa? then before.(level := Some(Aal2)) else before.(valid := true, level := Some(Aal2));
      ElevateIsSound(w.db, q.sid, row, w.now);
      IssueIsSound(SetSession(w.db, q.sid, row), Grant(row.identityId, q.client, q.sid, Some(Aal2), None, DEFAULT_SCOPES), w.now);
    }
  }

  lemma AccountIsSound(db: Db, step: Protocol.Step, now: int)
    requires Sound(db, now) && Protocol.IsAccountStep(step)
    ensures Sound(Protocol.ApplyAccounts(db, step), now)
  {
    AccountsEvolve(db, step);
  }

  lemma RevocationIsSound(db: Db, token: nat, owner: Option<nat>, now: int)
    requires Sound(db, now)
    ensures Sound(Revoke(db, token, owner), now)
  {
    if token in db.access { BlocklistIsSound(db, {token}, now); }
    RevokeIsSound(db, {token}, None, now);
  }

  lemma ExchangeIsSound(db: Db, sid: nat, client: nat, scopes: set<nat>, now: int)
    requires Sound(db, now) && Exchanged(db, sid, client, scopes, now).1
    ensures Sound(Exchanged(db, sid, client, scopes, now).0, now)
  {
    var row := db.sessions[sid];
    IssueIsSound(db, Grant(row.identityId, client, sid, Some(row.level.GetOr(Aal1)), None, scopes), now);
  }

  lemma TokenRequestIsSound(w: World, q: Request)
    requires Sound(w.db, w.now) && (q.RefreshWith? || q.ExchangeCode? || q.RevokeToken?)
    ensures StaysSound(w, q)
  {
    match q
    case RefreshWith(token) => RefreshIsSound(w.db, token, w.now);
    case ExchangeCode(identity, client, scopes) =>
      if MayExchange(w.db, identity, client) { ExchangeIsSound(w.db, SessionFound(w.db, identity).value, client, scopes, w.now); }
    case RevokeToken(token, owner) => RevocationIsSound(w.db, token, owner, w.now);
  }

  predicate IsAuthenticated(q: Request) { q.RevokeById? || q.LogoutOf? || q.StepUp? || q.SwitchTo? }

  lemma AuthenticatedIsSound(w: World, q: Request)
    requires Sound(w.db, w.now) && IsAuthenticated(q)
    ensures StaysSound(w, q)
  {
    var db, now := w.db, w.now;
    if Answer(w, q).Allowed? {
      match q
      case RevokeById(jti, key) => RevocationIsSound(db, key, Some(db.jwts[jti].sub), now);
      case LogoutOf(jti, sid) => LogoutIsSound(db, Some(db.jwts[jti].sub), sid, jti, now);
      case StepUp(_, sid) => ElevateIsSound(db, sid, Elevated(db, sid, now).sessions[sid], now);
      case SwitchTo(jti, client) =>
        SwitchesIff(db, SessionFound(db, db.jwts[jti].sub).value, db.jwts[jti].sub, client, now);
        SwitchIsSound(db, SessionFound(db, db.jwts[jti].sub).value, db.jwts[jti].sub, client, now);
    }
  }

  lemma OtherRequestIsSound(w: World, q: Request)
    requires Sound(w.db, w.now) && (q.Wait? || q.Guarded? || q.Introspect? || q.Bulk? || q.SetStatus? || q.Account?)
    ensures StaysSound(w, q)
  {
    match q
    case Bulk(scope) => BulkIsSound(w.db, scope, w.now);
    case Account(step) => if AccountExists(w.db, step) { AccountIsSound(w.db, step, w.now); }
    case _ =>
  }

  lemma ServeIsSound(w: World, q: Request)
    requires Sound(w.db, w.now)
    ensures StaysSound(w, q)
  {
    if q.LoginAs? || q.LoginParked? {
      SignInIsSound(w, q);
    } else if q.VerifyMfa? || q.RecoverWith? {
      SecondFactorIsSound(w, q);
    } else if q.RefreshWith? || q.ExchangeCode? || q.RevokeToken? {
      TokenRequestIsSound(w, q);
    } else if IsAuthenticated(q) {
      AuthenticatedIsSound(w, q);
    } else {
      OtherRequestIsSound(w, q);
    }
  }

  lemma CleanIsSound(w: World)
    requires Sound(w.db, w.now)
    ensures Sound(Clean(w).db, w.now)
  {
  }

  lemma NextIsSound(w: World, e: Event)
    requires Sound(w.db, w.now)
    ensures Sound(Next(w, e).db, Next(w, e).now)
  {
    if e.Swept? { CleanIsSound(w); } else { ServeIsSound(w, e.q); }
  }

  /** In every state that requests and cleanups lead to: marked access tokens are recorded while they are good,
      and RevokedJti rows carry their token's expiry. */
  lemma {:induction false} PlayIsSound(w: World, events: seq<Event>)
    requires Empty(w)
    ensures Sound(Play(w, events).db, Play(w, events).now)
  {
    if events != [] {
      PlayIsSound(w, events[..|events| - 1]);
      NextIsSound(Play(w, events[..|events| - 1]), events[|events| - 1]);
    }
  }
}
