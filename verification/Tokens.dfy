/** The token tables of ArcID and the flows that run over them one at a time:
    src/modules/oauth/services/token.service.ts, src/modules/oauth/flows/token-refresh.flow.ts,
    src/modules/oauth/flows/token-revoke.flow.ts and src/modules/auth/flows/logout.flow.ts.

    A row's key stands for all its unique columns (id, raw token value, jti), which are drawn together
    as fresh values and never change. Module Rotation interleaves the same operations. */
module Tokens {
  import opened Options

  datatype Level = Aal1 | Aal2

  datatype UserStatus = Active | Pending | Suspended | Banned | Deleted

  datatype RefreshRow = RefreshRow(
    familyId: nat, parentJti: Option<nat>, clientId: nat, identityId: nat, sessionId: Option<nat>,
    issuedAt: int, expiresAt: int, rotatedAt: Option<int>, revoked: bool)

  datatype AccessRow = AccessRow(
    clientId: nat, identityId: nat, sessionId: nat, issuedAt: int, expiresAt: int, revoked: bool)

  datatype SessionRow = SessionRow(
    identityId: nat, refreshTokenId: Option<nat>, valid: bool, expiresAt: int, level: Option<Level>, elevatedAt: Option<int>)

  /** The claims of a signed access token, its scopes apart: what its holder can present while it is unexpired. */
  datatype Jwt = Jwt(sub: nat, sid: nat, aal: Option<Level>, exp: int)

  datatype Config = Config(accessTtl: nat, refreshTtl: nat)

  /** `scopes` is what each access token was granted, as its row and its claims both say; `clients` holds the
      scopes each client is registered for. */
  datatype Db = Db(
    refresh: map<nat, RefreshRow>, access: map<nat, AccessRow>, sessions: map<nat, SessionRow>,
    revokedJti: map<nat, int>, jwts: map<nat, Jwt>, scopes: map<nat, set<nat>>,
    identities: map<nat, UserStatus>, clients: map<nat, set<nat>>, config: Config, nextId: nat)

  /** openid, profile, email, offline_access. */
  const DEFAULT_SCOPES: set<nat> := {0, 1, 2, 3}

  // ---------------------------------------------------------------------------------------------
  // Atomic statements
  // ---------------------------------------------------------------------------------------------

  function RevokeRow(r: RefreshRow, rotatedAt: Option<int>): RefreshRow {
    r.(revoked := true, rotatedAt := if rotatedAt.Some? then rotatedAt else r.rotatedAt)
  }

  /** refreshToken.updateMany ... data revoked: true. */
  function RevokeRefresh(db: Db, keys: set<nat>, rotatedAt: Option<int>): Db {
    db.(refresh := RevokeRows(db.refresh, keys, rotatedAt))
  }

  function RevokeRows(rows: map<nat, RefreshRow>, keys: set<nat>, rotatedAt: Option<int>): map<nat, RefreshRow> {
    map k | k in rows :: if k in keys then RevokeRow(rows[k], rotatedAt) else rows[k]
  }

  function FamilyKeys(db: Db, family: nat): set<nat> {
    set k | k in db.refresh && db.refresh[k].familyId == family
  }

  function SessionKeys(db: Db, sid: nat): set<nat> {
    LiveOfSession(db.refresh, sid)
  }

  function LiveOfSession(rows: map<nat, RefreshRow>, sid: nat): set<nat> {
    set k | k in rows && rows[k].sessionId == Some(sid) && !rows[k].revoked
  }

  predicate IsLive(db: Db, key: nat) { key in db.refresh && !db.refresh[key].revoked }

  /** The compare-and-swap of step 5: where id and revoked = false. */
  function SwapRefresh(db: Db, key: nat, now: int): Db {
    if IsLive(db, key) then RevokeRefresh(db, {key}, Some(now)) else db
  }

  function SetSession(db: Db, sid: nat, row: SessionRow): Db {
    db.(sessions := db.sessions[sid := row])
  }

  function AddSession(db: Db, row: SessionRow): Db {
    db.(sessions := db.sessions[db.nextId := row], nextId := db.nextId + 1)
  }

  function InvalidateSession(db: Db, sid: Option<nat>): Db {
    if sid.Some? && sid.value in db.sessions
    then SetSession(db, sid.value, db.sessions[sid.value].(valid := false)) else db
  }

  function LiveAccess(db: Db, identity: nat, client: nat, now: int): set<nat> {
    set j | j in db.access && db.access[j].identityId == identity && db.access[j].clientId == client
            && !db.access[j].revoked && db.access[j].expiresAt > now
  }

  function MarkAccess(db: Db, jtis: set<nat>): (r: Db)
    ensures r.access.Keys == db.access.Keys
  {
    db.(access := map j | j in db.access :: if j in jtis then db.access[j].(revoked := true) else db.access[j])
  }

  /** The jtis of these rows, with their expiries: what a caller reads before it records them. */
  function Expiries(db: Db, jtis: set<nat>): map<nat, int> {
    map j | j in jtis && j in db.access :: db.access[j].expiresAt
  }

  /** revokedJti.create for each jti; a row that exists already makes its create fail, which is swallowed. */
  function Record(db: Db, live: map<nat, int>): Db {
    db.(revokedJti := map j | j in db.revokedJti.Keys + live.Keys :: if j in db.revokedJti then db.revokedJti[j] else live[j])
  }

  function RecordRevoked(db: Db, jtis: set<nat>): Db { Record(db, Expiries(db, jtis)) }

  // ---------------------------------------------------------------------------------------------
  // TokenService.issue
  // ---------------------------------------------------------------------------------------------

  /** What a caller of issue() passes. `parent` is the consumed token's (familyId, jti) on a rotation. */
  datatype Grant = Grant(
    identityId: nat, clientId: nat, sessionId: nat, level: Option<Level>, parent: Option<(nat, nat)>, scopes: set<nat>)

  /** issue() throws without the client, and its inserts fail without the identity they refer to. */
  predicate CanIssue(db: Db, identity: nat, client: nat) { identity in db.identities && client in db.clients }

  function IssueAccess(db: Db, g: Grant, now: int): Db {
    var exp := now + db.config.accessTtl;
    db.(access := db.access[db.nextId := AccessRow(g.clientId, g.identityId, g.sessionId, now, exp, false)],
        jwts := db.jwts[db.nextId := Jwt(g.identityId, g.sessionId, g.level, exp)],
        scopes := db.scopes[db.nextId := g.scopes],
        nextId := db.nextId + 1)
  }

  function NewRefreshRow(db: Db, g: Grant, now: int): RefreshRow {
    RefreshRow(if g.parent.Some? then g.parent.value.0 else db.nextId + 1,
               if g.parent.Some? then Some(g.parent.value.1) else None,
               g.clientId, g.identityId, Some(g.sessionId), now, now + db.config.refreshTtl, None, false)
  }

  function IssueRefresh(db: Db, g: Grant, now: int): Db {
    db.(refresh := db.refresh[db.nextId := NewRefreshRow(db, g, now)], nextId := db.nextId + 2)
  }

  function BindSession(db: Db, sid: nat, key: nat): Db {
    if sid in db.sessions then SetSession(db, sid, db.sessions[sid].(refreshTokenId := Some(key))) else db
  }

  /** The whole of issue() when nothing interleaves with it. */
  function Issue(db: Db, g: Grant, now: int): Db {
    var db1 := IssueAccess(db, g, now);
    BindSession(IssueRefresh(db1, g, now), g.sessionId, db1.nextId)
  }

  // ---------------------------------------------------------------------------------------------
  // Flows run to completion
  // ---------------------------------------------------------------------------------------------

  datatype Reason = NotFound | Expired | Replayed | IdentityGone | Forbidden | ClientGone

  datatype Reply = Rejected(reason: Reason) | Accepted(access: nat, refresh: nat, level: Option<Level>, scopes: set<nat>)

  function SessionLevel(db: Db, sid: Option<nat>): Option<Level> {
    if sid.Some? && sid.value in db.sessions then db.sessions[sid.value].level else None
  }

  function UnrevokedOf(access: map<nat, AccessRow>, identity: nat, client: nat): set<nat> {
    set j | j in access && access[j].identityId == identity && access[j].clientId == client && !access[j].revoked
  }

  /** Order by issuedAt; rows of one moment in the order they were drawn. */
  predicate NotNewer(access: map<nat, AccessRow>, x: nat, j: nat)
    requires x in access && j in access
  {
    access[x].issuedAt < access[j].issuedAt || (access[x].issuedAt == access[j].issuedAt && x <= j)
  }

  predicate IsNewest(access: map<nat, AccessRow>, u: set<nat>, j: nat) {
    u <= access.Keys && j in u && forall x | x in u :: NotNewer(access, x, j)
  }

  lemma NewestExists(access: map<nat, AccessRow>, u: set<nat>)
    requires u != {} && u <= access.Keys
    ensures exists j :: IsNewest(access, u, j)
  {
    var y :| y in u;
    var rest := u - {y};
    if rest == {} {
      assert u == {y};
      assert IsNewest(access, u, y);
    } else {
      NewestExists(access, rest);
      var j :| IsNewest(access, rest, j);
      var best := if NotNewer(access, y, j) then j else y;
      assert forall x | x in u :: x == y || x in rest;
      assert IsNewest(access, u, best);
    }
  }

  lemma NewestSoFar(access: map<nat, AccessRow>, u: set<nat>, last: Option<nat>, j: nat)
    requires u <= access.Keys && j in access && j !in u
    requires if last.None? then u == {} else IsNewest(access, u, last.value)
    ensures IsNewest(access, u + {j}, if last.None? || NotNewer(access, last.value, j) then j else last.value)
  {
  }

  lemma NewestIs(access: map<nat, AccessRow>, identity: nat, client: nat, last: Option<nat>)
    requires var u := UnrevokedOf(access, identity, client); if last.None? then u == {} else IsNewest(access, u, last.value)
    ensures last == Newest(access, identity, client)
  {
  }

  /** accessToken.findFirst ... revoked: false, orderBy issuedAt desc. */
  function Newest(access: map<nat, AccessRow>, identity: nat, client: nat): (r: Option<nat>)
    ensures r.None? <==> UnrevokedOf(access, identity, client) == {}
    ensures r.Some? ==> IsNewest(access, UnrevokedOf(access, identity, client), r.value)
  {
    var u := UnrevokedOf(access, identity, client);
    if u == {} then None else
      NewestExists(access, u);
      var j :| j in u && IsNewest(access, u, j);
      Some(j)
  }

  /** The scopes a refresh passes on: those of the pair's newest unrevoked access token, else the client's. */
  function InheritedScopes(db: Db, identity: nat, client: nat): set<nat> {
    var newest := Newest(db.access, identity, client);
    if newest.Some? && newest.value in db.scopes then db.scopes[newest.value]
    else if client in db.clients then db.clients[client] else DEFAULT_SCOPES
  }

  function RotationGrant(db: Db, key: nat, r: RefreshRow): Grant {
    Grant(r.identityId, r.clientId, r.sessionId.GetOr(key), SessionLevel(db, r.sessionId), Some((r.familyId, key)),
          InheritedScopes(db, r.identityId, r.clientId))
  }

  /** The kill-chain's first two writes. */
  function EndFamily(db: Db, r: RefreshRow): Db {
    InvalidateSession(RevokeRefresh(db, FamilyKeys(db, r.familyId), None), r.sessionId)
  }

  /** triggerKillChain; familyId is never null, so its first branch is the one taken. */
  function KillChain(db: Db, r: RefreshRow, now: int): Db {
    var db1 := EndFamily(db, r);
    var live := LiveAccess(db1, r.identityId, r.clientId, now);
    RecordRevoked(MarkAccess(db1, live), live)
  }

  /** tokenRefreshFlow: the database it leaves and what the caller is told. */
  function Refresh(db: Db, token: nat, now: int): (Db, Reply) {
    if token !in db.refresh then (db, Rejected(NotFound)) else
      var r := db.refresh[token];
      if r.expiresAt <= now && !r.revoked then (db, Rejected(Expired))
      else if r.revoked then (KillChain(db, r, now), Rejected(Replayed))
      else if r.identityId !in db.identities || db.identities[r.identityId].Deleted? then (db, Rejected(IdentityGone))
      else if db.identities[r.identityId].Suspended? || db.identities[r.identityId].Banned? then (db, Rejected(Forbidden))
      else if r.clientId !in db.clients then (db, Rejected(ClientGone))
      else
        var g := RotationGrant(db, token, r);
        (Issue(SwapRefresh(db, token, now), g, now), Accepted(db.nextId, db.nextId + 1, g.level, g.scopes))
  }

  /** An authenticated caller's own rows only; without an identity, anybody's. */
  predicate Owned(owner: Option<nat>, identity: nat) { owner.None? || owner == Some(identity) }

  /** tokenRevokeFlow: the access-token path, then the refresh-token path. */
  function Revoke(db: Db, token: nat, owner: Option<nat>): Db {
    if token in db.access && Owned(owner, db.access[token].identityId) then RecordRevoked(MarkAccess(db, {token}), {token})
    else if token in db.refresh && Owned(owner, db.refresh[token].identityId) then RevokeRefresh(db, {token}, None)
    else db
  }

  function LogoutKeys(db: Db, sid: nat): set<nat>
    requires sid in db.sessions
  {
    set k | k in db.refresh && !db.refresh[k].revoked
            && (db.refresh[k].sessionId == Some(sid) || db.sessions[sid].refreshTokenId == Some(k))
  }

  /** logoutFlow. The jti and its expiry come from the JWT that authenticated the request, if it was one;
      an expiry of zero counts as none. */
  function Logout(db: Db, owner: Option<nat>, sid: nat, jti: Option<nat>, exp: Option<int>, now: int): Db {
    if sid !in db.sessions || !Owned(owner, db.sessions[sid].identityId) then db else
      var db1 := InvalidateSession(RevokeRefresh(db, LogoutKeys(db, sid), Some(now)), Some(sid));
      if jti.Some? && exp.Some? && exp.value != 0 then Record(db1, map[jti.value := exp.value]) else db1
  }

  /** A first-party login that needs no second factor: a new session and its root tokens. */
  function Login(db: Db, identity: nat, client: nat, level: Level, expiresAt: int, now: int): Db {
    var db1 := AddSession(db, SessionRow(identity, None, true, expiresAt, Some(level), None));
    Issue(db1, Grant(identity, client, db.nextId, Some(level), None, DEFAULT_SCOPES), now)
  }

  /** identity.delete: the database deletes its tokens and sessions with it. */
  function DeleteIdentity(db: Db, identity: nat): Db {
    db.(identities := db.identities - {identity},
        refresh := map k | k in db.refresh && db.refresh[k].identityId != identity :: db.refresh[k],
        access := map j | j in db.access && db.access[j].identityId != identity :: db.access[j],
        sessions := map q | q in db.sessions && db.sessions[q].identityId != identity :: db.sessions[q])
  }

  /** client.delete: the database deletes its tokens with it. */
  function DeleteClient(db: Db, client: nat): Db {
    db.(clients := db.clients - {client},
        refresh := map k | k in db.refresh && db.refresh[k].clientId != client :: db.refresh[k],
        access := map j | j in db.access && db.access[j].clientId != client :: db.access[j])
  }

  // ---------------------------------------------------------------------------------------------
  // What the kill-chain achieves when nothing runs beside it
  // ---------------------------------------------------------------------------------------------

  lemma BlocklistParts(db: Db, live: set<nat>)
    requires live <= db.access.Keys
    ensures var after := RecordRevoked(MarkAccess(db, live), live);
      && after.refresh == db.refresh && after.sessions == db.sessions && after.access == MarkAccess(db, live).access
      && forall j | j in live :: j in after.revokedJti
  {
  }

  lemma EndFamilyParts(db: Db, r: RefreshRow)
    ensures EndFamily(db, r).access == db.access && EndFamily(db, r).revokedJti == db.revokedJti
    ensures EndFamily(db, r).refresh == RevokeRows(db.refresh, FamilyKeys(db, r.familyId), None)
    ensures EndFamily(db, r).sessions == InvalidateSession(db, r.sessionId).sessions
  {
    InvalidationParts(RevokeRefresh(db, FamilyKeys(db, r.familyId), None), r.sessionId);
    InvalidationParts(db, r.sessionId);
  }

  lemma InvalidationParts(db: Db, sid: Option<nat>)
    ensures InvalidateSession(db, sid) == db.(sessions := InvalidateSession(db, sid).sessions)
    ensures InvalidateSession(db, sid).sessions
         == if sid.Some? && sid.value in db.sessions then db.sessions[sid.value := db.sessions[sid.value].(valid := false)] else db.sessions
  {
  }

  /** The kill-chain, table by table. */
  lemma KillChainParts(db: Db, r: RefreshRow, now: int)
    ensures var after, live := KillChain(db, r, now), LiveAccess(db, r.identityId, r.clientId, now);
      && after.refresh == RevokeRows(db.refresh, FamilyKeys(db, r.familyId), None)
      && after.sessions == InvalidateSession(db, r.sessionId).sessions
      && after.access == MarkAccess(db, live).access
      && (forall j | j in live :: j in after.revokedJti)
  {
    EndFamilyParts(db, r);
    var live := LiveAccess(db, r.identityId, r.clientId, now);
    assert LiveAccess(EndFamily(db, r), r.identityId, r.clientId, now) == live;
    BlocklistParts(EndFamily(db, r), live);
  }

  /** A replayed token leaves its family with no live token, its session invalid and, for that identity
      and client, no unexpired access token that is unrevoked or missing from RevokedJti; rows of other
      families, sessions and pairs are untouched. */
  lemma KillChainKills(db: Db, token: nat, now: int)
    requires token in db.refresh && db.refresh[token].revoked
    ensures var r, after := db.refresh[token], Refresh(db, token, now).0;
      && Refresh(db, token, now).1 == Rejected(Replayed)
      && (forall k | k in after.refresh && after.refresh[k].familyId == r.familyId :: after.refresh[k].revoked)
      && (r.sessionId.Some? && r.sessionId.value in after.sessions ==> !after.sessions[r.sessionId.value].valid)
      && LiveAccess(after, r.identityId, r.clientId, now) == {}
      && (forall j | j in LiveAccess(db, r.identityId, r.clientId, now) :: j in after.revokedJti)
      && after.refresh.Keys == db.refresh.Keys && after.access.Keys == db.access.Keys
      && (forall k | k in db.refresh && db.refresh[k].familyId != r.familyId :: after.refresh[k] == db.refresh[k])
      && (forall j | j in db.access && j !in LiveAccess(db, r.identityId, r.clientId, now) :: after.access[j] == db.access[j])
      && (forall q | q in db.sessions && Some(q) != r.sessionId :: q in after.sessions && after.sessions[q] == db.sessions[q])
  {
    KillChainParts(db, db.refresh[token], now);
    MarkingLeavesNoneLive(db, db.refresh[token].identityId, db.refresh[token].clientId, now);
  }

  lemma MarkingLeavesNoneLive(db: Db, identity: nat, client: nat, now: int)
    ensures LiveAccess(MarkAccess(db, LiveAccess(db, identity, client, now)), identity, client, now) == {}
  {
  }

  /** A rotation revokes exactly the presented token and adds exactly one child of it to its family. */
  lemma RotationAddsOneChild(db: Db, token: nat, now: int)
    requires Refresh(db, token, now).1.Accepted?
    requires forall k | k in db.refresh :: k < db.nextId
    ensures var after, reply := Refresh(db, token, now).0, Refresh(db, token, now).1;
      && !db.refresh[token].revoked && after.refresh[token].revoked
      && after.refresh.Keys == db.refresh.Keys + {reply.refresh} && reply.refresh !in db.refresh
      && !after.refresh[reply.refresh].revoked
      && after.refresh[reply.refresh].parentJti == Some(token)
      && after.refresh[reply.refresh].familyId == db.refresh[token].familyId
      && after.refresh[reply.refresh].identityId == db.refresh[token].identityId
      && after.refresh[reply.refresh].clientId == db.refresh[token].clientId
      && (forall k | k in db.refresh && k != token :: after.refresh[k] == db.refresh[k])
      && reply.access in after.jwts && after.jwts[reply.access].aal == SessionLevel(db, db.refresh[token].sessionId)
      && reply.access in after.scopes
      && after.scopes[reply.access] == InheritedScopes(db, db.refresh[token].identityId, db.refresh[token].clientId)
  {
    RotationRows(db, token, now);
  }

  /** The rotation, table by table. */
  lemma RotationRows(db: Db, token: nat, now: int)
    requires Refresh(db, token, now).1.Accepted?
    ensures var after, reply, g := Refresh(db, token, now).0, Refresh(db, token, now).1, RotationGrant(db, token, db.refresh[token]);
      && reply.access == db.nextId && reply.refresh == db.nextId + 1
      && after.refresh == RevokeRows(db.refresh, {token}, Some(now))[reply.refresh := NewRefreshRow(IssueAccess(db, g, now), g, now)]
      && after.jwts == db.jwts[reply.access := Jwt(g.identityId, g.sessionId, g.level, now + db.config.accessTtl)]
      && after.scopes == db.scopes[reply.access := g.scopes]
  {
  }

  // ---------------------------------------------------------------------------------------------
  // Row by row
  // ---------------------------------------------------------------------------------------------

  /** What issue() leaves. A fresh family has an id of its own. */
  lemma IssuedRows(db: Db, g: Grant, now: int)
    ensures var after, k := Issue(db, g, now), db.nextId;
      && after.access == db.access[k := AccessRow(g.clientId, g.identityId, g.sessionId, now, now + db.config.accessTtl, false)]
      && after.jwts == db.jwts[k := Jwt(g.identityId, g.sessionId, g.level, now + db.config.accessTtl)]
      && after.scopes == db.scopes[k := g.scopes]
      && after.refresh == db.refresh[k + 1 :=
           RefreshRow(if g.parent.Some? then g.parent.value.0 else k + 2, if g.parent.Some? then Some(g.parent.value.1) else None,
                      g.clientId, g.identityId, Some(g.sessionId), now, now + db.config.refreshTtl, None, false)]
      && after.sessions == (if g.sessionId in db.sessions
                            then db.sessions[g.sessionId := db.sessions[g.sessionId].(refreshTokenId := Some(k + 1))] else db.sessions)
      && after == db.(access := after.access, jwts := after.jwts, scopes := after.scopes, refresh := after.refresh,
                      sessions := after.sessions, nextId := k + 3)
  {
  }

  /** Each answer of a refresh, by what its rows say. */
  lemma RefreshAnswers(db: Db, token: nat, now: int)
    ensures var reply := Refresh(db, token, now).1;
      && (reply == Rejected(NotFound) <==> token !in db.refresh)
      && (token in db.refresh ==>
            var r := db.refresh[token];
            var open := !r.revoked && now < r.expiresAt;
            var known := r.identityId in db.identities && db.identities[r.identityId] != Deleted;
            var barred := known && db.identities[r.identityId] in {Suspended, Banned};
            && (reply == Rejected(Replayed) <==> r.revoked)
            && (reply == Rejected(Expired) <==> !r.revoked && r.expiresAt <= now)
            && (reply == Rejected(IdentityGone) <==> open && !known)
            && (reply == Rejected(Forbidden) <==> open && barred)
            && (reply == Rejected(ClientGone) <==> open && known && !barred && r.clientId !in db.clients)
            && (reply.Accepted? <==> open && known && !barred && r.clientId in db.clients))
  {
  }

  /** The level that a refresh signs and reports is the one the session's row holds at that moment, aal2 included;
      without the row there is none. */
  lemma RefreshCarriesLevel(db: Db, token: nat, now: int)
    requires Refresh(db, token, now).1.Accepted?
    ensures var sid, reply, after := db.refresh[token].sessionId, Refresh(db, token, now).1, Refresh(db, token, now).0;
      && reply.access in after.jwts && after.jwts[reply.access].aal == reply.level
      && (sid.Some? && sid.value in db.sessions ==> reply.level == db.sessions[sid.value].level)
      && (sid.None? || sid.value !in db.sessions ==> reply.level == None)
      && (sid.Some? ==> after.jwts[reply.access].sid == sid.value)
  {
    RotationRows(db, token, now);
  }

  /** The consumed token, its child and the new access token, column by column; the rest is as it was. */
  lemma RefreshedRows(db: Db, token: nat, now: int)
    requires Refresh(db, token, now).1.Accepted? && token < db.nextId
    ensures var r, k, after := db.refresh[token], db.nextId, Refresh(db, token, now).0;
      var sid := if r.sessionId.Some? then r.sessionId.value else token;
      && after.refresh.Keys == db.refresh.Keys + {k + 1}
      && after.refresh[token] == r.(revoked := true, rotatedAt := Some(now))
      && after.refresh[k + 1] == RefreshRow(r.familyId, Some(token), r.clientId, r.identityId, Some(sid), now, now + db.config.refreshTtl, None, false)
      && (forall x | x in db.refresh && x != token && x != k + 1 :: after.refresh[x] == db.refresh[x])
      && after.access == db.access[k := AccessRow(r.clientId, r.identityId, sid, now, now + db.config.accessTtl, false)]
      && after.revokedJti == db.revokedJti && after.identities == db.identities && after.clients == db.clients
  {
    IssuedRows(SwapRefresh(db, token, now), RotationGrant(db, token, db.refresh[token]), now);
  }

  /** The session of a refresh is bound to the new token and keeps everything else; other sessions are as they were. */
  lemma RefreshedSession(db: Db, token: nat, now: int)
    requires Refresh(db, token, now).1.Accepted? && db.refresh[token].sessionId.Some?
    ensures var sid, after := db.refresh[token].sessionId.value, Refresh(db, token, now).0;
      after.sessions == if sid in db.sessions then db.sessions[sid := db.sessions[sid].(refreshTokenId := Some(db.nextId + 1))] else db.sessions
  {
    IssuedRows(SwapRefresh(db, token, now), RotationGrant(db, token, db.refresh[token]), now);
  }

  /** Inherited scopes: those of an unrevoked access token of the pair that is newer than all others of it, the
      client's if the pair has none. */
  lemma InheritedFromNewest(db: Db, identity: nat, client: nat)
    ensures forall j | j in db.access && j in db.scopes && db.access[j].identityId == identity && db.access[j].clientId == client
      && !db.access[j].revoked && IsStrictlyNewest(db.access, j) :: InheritedScopes(db, identity, client) == db.scopes[j]
    ensures client in db.clients && (forall j | j in db.access && db.access[j].identityId == identity && db.access[j].clientId == client :: db.access[j].revoked)
      ==> InheritedScopes(db, identity, client) == db.clients[client]
  {
    var newest := Newest(db.access, identity, client);
    forall j | j in db.access && j in db.scopes && db.access[j].identityId == identity && db.access[j].clientId == client
      && !db.access[j].revoked && IsStrictlyNewest(db.access, j)
      ensures InheritedScopes(db, identity, client) == db.scopes[j]
    {
      assert j in UnrevokedOf(db.access, identity, client);
      assert NotNewer(db.access, j, newest.value);
    }
    if forall j | j in db.access && db.access[j].identityId == identity && db.access[j].clientId == client :: db.access[j].revoked {
      assert UnrevokedOf(db.access, identity, client) == {};
    }
  }

  /** Every other unrevoked access token of its pair was issued before it. */
  ghost predicate IsStrictlyNewest(access: map<nat, AccessRow>, j: nat)
    requires j in access
  {
    forall x | x in access && x != j && access[x].identityId == access[j].identityId && access[x].clientId == access[j].clientId
      && !access[x].revoked :: access[x].issuedAt < access[j].issuedAt
  }

  /** The compare-and-swap changes one live row. */
  lemma SwappedRow(db: Db, key: nat, now: int)
    requires key in db.refresh && !db.refresh[key].revoked
    ensures SwapRefresh(db, key, now) == db.(refresh := db.refresh[key := db.refresh[key].(revoked := true, rotatedAt := Some(now))])
  {
    assert SwapRefresh(db, key, now).refresh == db.refresh[key := db.refresh[key].(revoked := true, rotatedAt := Some(now))];
  }

  /** Revoking a token of one's own, or anybody's for a caller without an identity: an access token is marked and
      recorded under its expiry unless recorded already, a refresh token is marked; nothing else happens. */
  lemma RevokedRows(db: Db, token: nat, owner: Option<nat>)
    ensures var after := Revoke(db, token, owner);
      && after == db.(access := after.access, refresh := after.refresh, revokedJti := after.revokedJti)
      && (if token in db.access && (owner.None? || owner.value == db.access[token].identityId) then
            && after.access == db.access[token := db.access[token].(revoked := true)] && after.refresh == db.refresh
            && after.revokedJti == (if token in db.revokedJti then db.revokedJti else db.revokedJti[token := db.access[token].expiresAt])
          else if token in db.refresh && (owner.None? || owner.value == db.refresh[token].identityId) then
            && after.refresh == db.refresh[token := db.refresh[token].(revoked := true)] && after.access == db.access
            && after.revokedJti == db.revokedJti
          else after == db)
  {
    if token in db.access { BlockedOne(db, token); }
    if token in db.refresh { RevokedOne(db, token); }
  }

  lemma BlockedOne(db: Db, token: nat)
    requires token in db.access
    ensures RecordRevoked(MarkAccess(db, {token}), {token})
         == db.(access := db.access[token := db.access[token].(revoked := true)],
                revokedJti := if token in db.revokedJti then db.revokedJti else db.revokedJti[token := db.access[token].expiresAt])
  {
    assert MarkAccess(db, {token}).access == db.access[token := db.access[token].(revoked := true)];
    var after := RecordRevoked(MarkAccess(db, {token}), {token}).revokedJti;
    assert after == if token in db.revokedJti then db.revokedJti else db.revokedJti[token := db.access[token].expiresAt];
  }

  lemma RevokedOne(db: Db, token: nat)
    requires token in db.refresh
    ensures RevokeRefresh(db, {token}, None) == db.(refresh := db.refresh[token := db.refresh[token].(revoked := true)])
  {
    assert RevokeRefresh(db, {token}, None).refresh == db.refresh[token := db.refresh[token].(revoked := true)];
  }

  /** Logout of a session that is there and the caller's: the session ends, no refresh token that names it or that
      it is bound to stays live, and no other session or refresh token changes. */
  lemma LoggedOutRows(db: Db, owner: Option<nat>, sid: nat, jti: Option<nat>, exp: Option<int>, now: int)
    requires sid in db.sessions && (owner.None? || owner.value == db.sessions[sid].identityId)
    ensures var after := Logout(db, owner, sid, jti, exp, now);
      && after.sessions == db.sessions[sid := db.sessions[sid].(valid := false)]
      && after.refresh.Keys == db.refresh.Keys
      && (forall k | k in db.refresh ::
            var r := db.refresh[k];
            after.refresh[k] == if !r.revoked && (r.sessionId == Some(sid) || db.sessions[sid].refreshTokenId == Some(k))
                                then r.(revoked := true, rotatedAt := Some(now)) else r)
  {
    LoggedOutTables(db, owner, sid, jti, exp, now);
    forall k | k in db.refresh
      ensures k in LogoutKeys(db, sid) <==>
        !db.refresh[k].revoked && (db.refresh[k].sessionId == Some(sid) || db.sessions[sid].refreshTokenId == Some(k))
    {
    }
  }

  lemma LoggedOutTables(db: Db, owner: Option<nat>, sid: nat, jti: Option<nat>, exp: Option<int>, now: int)
    requires sid in db.sessions && (owner.None? || owner.value == db.sessions[sid].identityId)
    ensures var after := Logout(db, owner, sid, jti, exp, now);
      && after.sessions == db.sessions[sid := db.sessions[sid].(valid := false)]
      && after.refresh == RevokeRows(db.refresh, LogoutKeys(db, sid), Some(now))
  {
    var db1 := RevokeRefresh(db, LogoutKeys(db, sid), Some(now));
    InvalidationParts(db1, Some(sid));
    RecordParts(InvalidateSession(db1, Some(sid)), map[jti.GetOr(0) := exp.GetOr(0)]);
  }

  lemma RecordParts(db: Db, live: map<nat, int>)
    ensures Record(db, live).sessions == db.sessions && Record(db, live).refresh == db.refresh
  {
  }

  /** Logout's record of its caller's access token, and what it leaves alone. */
  lemma LoggedOutRecord(db: Db, owner: Option<nat>, sid: nat, jti: Option<nat>, exp: Option<int>, now: int)
    ensures var after := Logout(db, owner, sid, jti, exp, now);
      && after == db.(sessions := after.sessions, refresh := after.refresh, revokedJti := after.revokedJti)
      && (if sid in db.sessions && (owner.None? || owner.value == db.sessions[sid].identityId) then
            after.revokedJti == if jti.Some? && exp.Some? && exp.value != 0 && jti.value !in db.revokedJti
                                then db.revokedJti[jti.value := exp.value] else db.revokedJti
          else after == db)
  {
  }

  /** A login's session and root tokens. */
  lemma LoginRows(db: Db, identity: nat, client: nat, level: Level, expiresAt: int, now: int)
    requires forall q | q in db.sessions :: q < db.nextId
    ensures var after, sid := Login(db, identity, client, level, expiresAt, now), db.nextId;
      && after.sessions == db.sessions[sid := SessionRow(identity, Some(sid + 2), true, expiresAt, Some(level), None)]
      && after.jwts == db.jwts[sid + 1 := Jwt(identity, sid, Some(level), now + db.config.accessTtl)]
      && after.scopes == db.scopes[sid + 1 := DEFAULT_SCOPES]
      && after.access == db.access[sid + 1 := AccessRow(client, identity, sid, now, now + db.config.accessTtl, false)]
      && after.refresh == db.refresh[sid + 2 := RefreshRow(sid + 3, None, client, identity, Some(sid), now, now + db.config.refreshTtl, None, false)]
      && after.revokedJti == db.revokedJti
  {
  }

  /** Deletion of an account or a client keeps exactly the rows of the others. */
  lemma DeletionRows(db: Db, id: nat)
    ensures var a := DeleteIdentity(db, id);
      && a.identities.Keys == db.identities.Keys - {id} && a.clients == db.clients
      && (forall k :: k in a.refresh <==> k in db.refresh && db.refresh[k].identityId != id)
      && (forall k :: k in a.access <==> k in db.access && db.access[k].identityId != id)
      && (forall k :: k in a.sessions <==> k in db.sessions && db.sessions[k].identityId != id)
    ensures var a := DeleteClient(db, id);
      && a.clients.Keys == db.clients.Keys - {id} && a.identities == db.identities && a.sessions == db.sessions
      && (forall k :: k in a.refresh <==> k in db.refresh && db.refresh[k].clientId != id)
      && (forall k :: k in a.access <==> k in db.access && db.access[k].clientId != id)
  {
  }

  // ---------------------------------------------------------------------------------------------
  // The flows over their tables
  // ---------------------------------------------------------------------------------------------

  /** Logout's two updateMany calls, one by bound token and one by session, amount to one. */
  lemma TwoRevocations(rows: map<nat, RefreshRow>, bound: Option<nat>, sid: nat, now: int)
    ensures var hit := set k | k in rows && !rows[k].revoked && bound == Some(k);
      var first := RevokeRows(rows, hit, Some(now));
      var both := set k | k in rows && !rows[k].revoked && (rows[k].sessionId == Some(sid) || bound == Some(k));
      RevokeRows(first, LiveOfSession(first, sid), Some(now)) == RevokeRows(rows, both, Some(now))
  {
  }

  lemma RecordOneMore(db: Db, jtis: set<nat>, j: nat)
    requires j in db.access
    ensures var m := RecordRevoked(db, jtis).revokedJti;
      RecordRevoked(db, jtis + {j}).revokedJti == if j in m then m else m[j := db.access[j].expiresAt]
  {
  }

  class TokenStore {
    const config: Config
    var refresh: map<nat, RefreshRow>
    var access: map<nat, AccessRow>
    var sessions: map<nat, SessionRow>
    var revokedJti: map<nat, int>
    var jwts: map<nat, Jwt>
    var scopes: map<nat, set<nat>>
    var identities: map<nat, UserStatus>
    var clients: map<nat, set<nat>>
    var nextId: nat

    constructor (config: Config)
      ensures View() == Db(map[], map[], map[], map[], map[], map[], map[], map[], config, 0)
    {
      this.config := config;
      refresh, access, sessions := map[], map[], map[];
      revokedJti, jwts, scopes, identities, clients, nextId := map[], map[], map[], map[], map[], 0;
    }

    function View(): Db
      reads this
    {
      Db(refresh, access, sessions, revokedJti, jwts, scopes, identities, clients, config, nextId)
    }

    /** refreshToken.updateMany where id and revoked = false. */
    method RevokeIfLive(key: nat, now: int) returns (count: nat)
      modifies this`refresh
      ensures count == if IsLive(old(View()), key) then 1 else 0
      ensures View() == SwapRefresh(old(View()), key, now)
    {
      count := 0;
      if key in refresh && !refresh[key].revoked {
        refresh := refresh[key := refresh[key].(revoked := true, rotatedAt := Some(now))];
        count := 1;
      }
    }

    /** blocklistLiveAccessTokens. */
    method BlocklistLiveAccessTokens(identity: nat, client: nat, now: int)
      modifies this`access, this`revokedJti
      ensures var live := LiveAccess(old(View()), identity, client, now);
        View() == RecordRevoked(MarkAccess(old(View()), live), live)
    {
      var live := set j | j in access && access[j].identityId == identity && access[j].clientId == client
                          && !access[j].revoked && access[j].expiresAt > now;
      ghost var before := View();
      access := map j | j in access :: if j in live then access[j].(revoked := true) else access[j];
      var todo := live;
      while todo != {}
        invariant todo <= live
        invariant access == MarkAccess(before, live).access
        invariant revokedJti == RecordRevoked(MarkAccess(before, live), live - todo).revokedJti
        decreases |todo|
      {
        var j :| j in todo;
        RecordOneMore(MarkAccess(before, live), live - todo, j);
        if j !in revokedJti {
          revokedJti := revokedJti[j := access[j].expiresAt];
        }
        assert live - (todo - {j}) == (live - todo) + {j};
        todo := todo - {j};
      }
      assert live - todo == live;
    }

    method TriggerKillChain(r: RefreshRow, now: int)
      modifies this`refresh, this`sessions, this`access, this`revokedJti
      ensures View() == KillChain(old(View()), r, now)
    {
      refresh := map k | k in refresh :: if refresh[k].familyId == r.familyId then refresh[k].(revoked := true) else refresh[k];
      if r.sessionId.Some? {
        var sid := r.sessionId.value;
        if sid in sessions {
          sessions := sessions[sid := sessions[sid].(valid := false)];
        }
      }
      assert View() == InvalidateSession(RevokeRefresh(old(View()), FamilyKeys(old(View()), r.familyId), None), r.sessionId);
      BlocklistLiveAccessTokens(r.identityId, r.clientId, now);
    }

    /** TokenService.issue; None when it throws, having written nothing. */
    method IssueTokens(g: Grant, now: int) returns (r: Option<(nat, nat)>)
      modifies this`access, this`jwts, this`scopes, this`refresh, this`sessions, this`nextId
      ensures r == if CanIssue(old(View()), g.identityId, g.clientId) then Some((old(nextId), old(nextId) + 1)) else None
      ensures View() == if r.Some? then Issue(old(View()), g, now) else old(View())
    {
      if g.clientId !in clients || g.identityId !in identities { return None; }
      WriteTokens(g, now);
      return Some((nextId - 3, nextId - 2));
    }

    method WriteTokens(g: Grant, now: int)
      modifies this`access, this`jwts, this`scopes, this`refresh, this`sessions, this`nextId
      ensures View() == Issue(old(View()), g, now)
    {
      var accessJti := nextId;
      access := access[accessJti := AccessRow(g.clientId, g.identityId, g.sessionId, now, now + config.accessTtl, false)];
      jwts := jwts[accessJti := Jwt(g.identityId, g.sessionId, g.level, now + config.accessTtl)];
      scopes := scopes[accessJti := g.scopes];
      var refreshKey := nextId + 1;
      var freshFamily := nextId + 2;
      var familyId, parentJti := freshFamily, None;
      if g.parent.Some? {
        familyId, parentJti := g.parent.value.0, Some(g.parent.value.1);
      }
      refresh := refresh[refreshKey := RefreshRow(familyId, parentJti, g.clientId, g.identityId, Some(g.sessionId),
                                                  now, now + config.refreshTtl, None, false)];
      nextId := nextId + 3;
      if g.sessionId in sessions {
        sessions := sessions[g.sessionId := sessions[g.sessionId].(refreshTokenId := Some(refreshKey))];
      }
    }

    method FindNewest(identity: nat, client: nat) returns (last: Option<nat>)
      ensures last == Newest(access, identity, client)
    {
      last := None;
      var seen: set<nat>, todo := {}, UnrevokedOf(access, identity, client);
      ghost var all, rows := todo, access;
      while todo != {}
        invariant seen !! todo && seen + todo == all && access == rows
        invariant if last.None? then seen == {} else IsNewest(rows, seen, last.value)
        decreases |todo|
      {
        var j :| j in todo;
        NewestSoFar(rows, seen, last, j);
        if last.None? || NotNewer(access, last.value, j) {
          last := Some(j);
        }
        seen, todo := seen + {j}, todo - {j};
      }
      assert seen == all;
      NewestIs(rows, identity, client, last);
    }

    /** The lookup of the scopes to pass on. */
    method FindScopes(identity: nat, client: nat) returns (r: set<nat>)
      requires client in clients
      ensures r == InheritedScopes(View(), identity, client)
    {
      var last := FindNewest(identity, client);
      r := if last.Some? && last.value in scopes then scopes[last.value] else clients[client];
    }

    /** tokenRefreshFlow. Uncontended, its compare-and-swap always wins. */
    method TokenRefresh(token: nat, now: int) returns (reply: Reply)
      modifies this`access, this`jwts, this`scopes, this`refresh, this`sessions, this`revokedJti, this`nextId
      ensures (View(), reply) == Refresh(old(View()), token, now)
    {
      if token !in refresh { return Rejected(NotFound); }
      var existing := refresh[token];
      if existing.expiresAt <= now && !existing.revoked { return Rejected(Expired); }
      if existing.revoked {
        TriggerKillChain(existing, now);
        return Rejected(Replayed);
      }
      if existing.identityId !in identities || identities[existing.identityId].Deleted? { return Rejected(IdentityGone); }
      if identities[existing.identityId].Suspended? { return Rejected(Forbidden); }
      if identities[existing.identityId].Banned? { return Rejected(Forbidden); }
      if existing.clientId !in clients { return Rejected(ClientGone); }
      var inherited := FindScopes(existing.identityId, existing.clientId);
      var count := RevokeIfLive(token, now);
      assert count == 1;
      var level := None;
      if existing.sessionId.Some? && existing.sessionId.value in sessions {
        level := sessions[existing.sessionId.value].level;
      }
      var g := Grant(existing.identityId, existing.clientId, existing.sessionId.GetOr(token), level,
                     Some((existing.familyId, token)), inherited);
      assert g == RotationGrant(old(View()), token, existing);
      var issued := IssueTokens(g, now);
      reply := Accepted(issued.value.0, issued.value.1, level, inherited);
    }

    method TokenRevoke(token: nat, owner: Option<nat>)
      modifies this`access, this`refresh, this`revokedJti
      ensures View() == Revoke(old(View()), token, owner)
    {
      if token in access && Owned(owner, access[token].identityId) {
        ghost var before := View();
        access := access[token := access[token].(revoked := true)];
        assert View() == MarkAccess(before, {token});
        assert Expiries(View(), {token}) == map[token := access[token].expiresAt];
        UpsertRevoked(token, access[token].expiresAt);
      } else if token in refresh && Owned(owner, refresh[token].identityId) {
        refresh := refresh[token := refresh[token].(revoked := true)];
      }
    }

    /** refreshToken.updateMany where sessionId and revoked = false. */
    method RevokeLiveOfSession(sid: nat, now: int)
      modifies this`refresh
      ensures View() == RevokeRefresh(old(View()), SessionKeys(old(View()), sid), Some(now))
    {
      refresh := map k | k in refresh ::
        if refresh[k].sessionId == Some(sid) && !refresh[k].revoked
        then refresh[k].(revoked := true, rotatedAt := Some(now)) else refresh[k];
    }

    /** The two updateMany calls of logout. */
    method RevokeTokensOf(sid: nat, now: int)
      requires sid in sessions
      modifies this`refresh
      ensures View() == RevokeRefresh(old(View()), LogoutKeys(old(View()), sid), Some(now))
    {
      ghost var bound := sessions[sid].refreshTokenId;
      ghost var hit := set k | k in refresh && !refresh[k].revoked && bound == Some(k);
      if sessions[sid].refreshTokenId.Some? {
        var count := RevokeIfLive(sessions[sid].refreshTokenId.value, now);
        assert count == 1 ==> hit == {bound.value};
      }
      assert refresh == RevokeRows(old(refresh), hit, Some(now));
      RevokeLiveOfSession(sid, now);
      TwoRevocations(old(refresh), bound, sid, now);
    }

    /** revokedJti.upsert with an empty update. */
    method UpsertRevoked(jti: nat, exp: int)
      modifies this`revokedJti
      ensures View() == Record(old(View()), map[jti := exp])
    {
      if jti !in revokedJti {
        revokedJti := revokedJti[jti := exp];
      }
    }

    method LogoutSession(owner: Option<nat>, sid: nat, accessJti: Option<nat>, accessTokenExp: Option<int>, now: int)
      modifies this`refresh, this`sessions, this`revokedJti
      ensures View() == Logout(old(View()), owner, sid, accessJti, accessTokenExp, now)
    {
      if sid !in sessions || !Owned(owner, sessions[sid].identityId) { return; }
      RevokeTokensOf(sid, now);
      sessions := sessions[sid := sessions[sid].(valid := false)];
      if accessJti.Some? && accessTokenExp.Some? && accessTokenExp.value != 0 {
        UpsertRevoked(accessJti.value, accessTokenExp.value);
      }
    }
  }
}
