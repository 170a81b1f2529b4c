/** The flows that elevate, re-issue and revoke one token, each run to completion over the tables, and what ties
    them to module Protocol: left alone, a flow is one run of the protocol's steps, so every invariant of the
    protocol's runs speaks of it too. */
module Flows {
  import opened Options
  import opened Tokens
  import opened BulkRevocation
  import opened Protocol

  // ---------------------------------------------------------------------------------------------
  // Specifications
  // ---------------------------------------------------------------------------------------------

  predicate Usable(db: Db, sid: nat, identity: nat, now: int) {
    sid in db.sessions && db.sessions[sid].identityId == identity && db.sessions[sid].valid && db.sessions[sid].expiresAt > now
  }

  /** What a context switch leaves, and whether it went through. */
  function Switched(db: Db, sid: nat, identity: nat, client: nat, now: int): (Db, bool) {
    if !Usable(db, sid, identity, now) then (db, false)
    else
      var row, live := db.sessions[sid], SessionAccess(db, sid, identity);
      if (row.refreshTokenId.Some? && !IsLive(db, row.refreshTokenId.value)) || !CanIssue(db, identity, client) then (db, false)
      else
        var db1 := if row.refreshTokenId.Some? then SwapRefresh(db, row.refreshTokenId.value, now) else db;
        var db2 := if live == {} then db1 else RecordRevoked(MarkAccess(db1, live), live);
        (Issue(db2, Grant(identity, client, sid, Some(row.level.GetOr(Aal1)), None, DEFAULT_SCOPES), now), true)
  }

  function MfaVerified(db: Db, sid: nat, client: nat, codeOk: bool, now: int): (Db, bool) {
    if sid !in db.sessions || !db.sessions[sid].valid || !codeOk || !CanIssue(db, db.sessions[sid].identityId, client) then (db, false)
    else (Issue(Raise(db, sid), Grant(db.sessions[sid].identityId, client, sid, Some(Aal2), None, DEFAULT_SCOPES), now), true)
  }

  function Recovered(db: Db, sid: nat, client: nat, codeOk: bool, now: int): (Db, bool) {
    if sid !in db.sessions || db.sessions[sid].expiresAt <= now || !codeOk || !CanIssue(db, db.sessions[sid].identityId, client)
    then (db, false)
    else
      var row := db.sessions[sid];
      (Issue(SetSession(db, sid, row.(valid := true, level := Some(Aal2))),
             Grant(row.identityId, client, sid, Some(Aal2), None, DEFAULT_SCOPES), now), true)
  }

  /** The code exchange from its session lookup on; `sid` is the session it finds. */
  function Exchanged(db: Db, sid: nat, client: nat, scopes: set<nat>, now: int): (Db, bool) {
    if sid !in db.sessions || !db.sessions[sid].valid || !CanIssue(db, db.sessions[sid].identityId, client) then (db, false)
    else
      var row := db.sessions[sid];
      (Issue(db, Grant(row.identityId, client, sid, Some(row.level.GetOr(Aal1)), None, scopes), now), true)
  }

  function ValidOf(db: Db, identity: nat): set<nat> {
    set q | q in db.sessions && db.sessions[q].identityId == identity && db.sessions[q].valid
  }

  lemma MaxExists(s: set<nat>)
    requires s != {}
    ensures exists m :: m in s && forall x | x in s :: x <= m
  {
    var y :| y in s;
    if s - {y} == {} {
      assert s == {y};
    } else {
      MaxExists(s - {y});
      var m :| m in s - {y} && forall x | x in s - {y} :: x <= m;
      var top := if m < y then y else m;
      assert forall x | x in s :: x == y || x in s - {y};
      assert top in s && forall x | x in s :: x <= top;
    }
  }

  /** The last drawn of these keys. */
  function Youngest(s: set<nat>): (r: Option<nat>)
    ensures r.None? <==> s == {}
    ensures r.Some? ==> r.value in s && forall x | x in s :: x <= r.value
  {
    if s == {} then None else
      MaxExists(s);
      var m :| m in s && forall x | x in s :: x <= m;
      Some(m)
  }

  /** The session a code exchange finds: the identity's valid session created last, expired or not. */
  function SessionFound(db: Db, identity: nat): Option<nat> { Youngest(ValidOf(db, identity)) }

  /** revokeTokenByIdFlow: what it leaves, and whether it found the caller's own token. */
  function RevokedById(db: Db, key: nat, identity: nat): (Db, bool) {
    if key !in db.access || db.access[key].identityId != identity then (db, false)
    else if db.access[key].revoked then (db, true)
    else (Revoke(db, key, Some(identity)), true)
  }

  function Elevated(db: Db, sid: nat, now: int): Db
    requires sid in db.sessions
  {
    SetSession(db, sid, db.sessions[sid].(level := Some(Aal2), elevatedAt := Some(now)))
  }

  // ---------------------------------------------------------------------------------------------
  // The flows
  // ---------------------------------------------------------------------------------------------

  /** switchContextFlow from the session lookup on. It runs in a transaction: a failure at its end, where issue()
      throws without the client, undoes the rest. */
  method SwitchContext(store: TokenStore, sid: nat, identity: nat, client: nat, now: int) returns (ok: bool)
    modifies store
    ensures (store.View(), ok) == Switched(old(store.View()), sid, identity, client, now)
  {
    if sid !in store.sessions || store.sessions[sid].identityId != identity || !store.sessions[sid].valid
       || store.sessions[sid].expiresAt <= now {
      return false;
    }
    var session := store.sessions[sid];
    if identity !in store.identities || client !in store.clients { return false; }
    var live := set j | j in store.access && store.access[j].sessionId == sid && store.access[j].identityId == identity
                        && !store.access[j].revoked;
    if session.refreshTokenId.Some? {
      var count := store.RevokeIfLive(session.refreshTokenId.value, now);
      if count == 0 { return false; }
    }
    if live != {} { BlockAll(store, live); }
    var issued := store.IssueTokens(Grant(identity, client, sid, Some(session.level.GetOr(Aal1)), None, DEFAULT_SCOPES), now);
    assert issued.Some?;
    return true;
  }

  /** Marks the access tokens read before and records each of them. */
  method BlockAll(store: TokenStore, live: set<nat>)
    requires live <= store.access.Keys
    modifies store`access, store`revokedJti
    ensures store.View() == RecordRevoked(MarkAccess(old(store.View()), live), live)
  {
    ghost var before := store.View();
    store.access := map j | j in store.access :: if j in live then store.access[j].(revoked := true) else store.access[j];
    assert store.View() == MarkAccess(before, live);
    RecordAll(store, live);
  }

  /** mfaVerifyFlow; `codeOk`: an enabled TOTP factor exists and the code matches it. */
  method MfaVerify(store: TokenStore, sid: nat, client: nat, codeOk: bool, now: int) returns (ok: bool)
    modifies store
    ensures (store.View(), ok) == MfaVerified(old(store.View()), sid, client, codeOk, now)
  {
    if sid !in store.sessions { return false; }
    var session := store.sessions[sid];
    if !session.valid || !codeOk { return false; }
    if session.identityId !in store.identities || client !in store.clients { return false; }
    store.sessions := store.sessions[sid := session.(level := Some(Aal2))];
    var issued := store.IssueTokens(Grant(session.identityId, client, sid, Some(Aal2), None, DEFAULT_SCOPES), now);
    assert issued.Some?;
    return true;
  }

  /** POST /mfa/recovery; `codeOk`: the recovery code was there to be consumed. */
  method RecoverSession(store: TokenStore, sid: nat, client: nat, codeOk: bool, now: int) returns (ok: bool)
    modifies store
    ensures (store.View(), ok) == Recovered(old(store.View()), sid, client, codeOk, now)
  {
    if sid !in store.sessions || store.sessions[sid].expiresAt <= now { return false; }
    var session := store.sessions[sid];
    if !codeOk { return false; }
    if session.identityId !in store.identities || client !in store.clients { return false; }
    store.sessions := store.sessions[sid := session.(valid := true, level := Some(Aal2))];
    var issued := store.IssueTokens(Grant(session.identityId, client, sid, Some(Aal2), None, DEFAULT_SCOPES), now);
    assert issued.Some?;
    return true;
  }

  /** The guarded elevation write of StepUpService.verify, once the credential has been checked. */
  method Elevate(store: TokenStore, sid: nat, identity: nat, now: int) returns (count: nat)
    modifies store`sessions
    ensures count == if Usable(old(store.View()), sid, identity, now) then 1 else 0
    ensures count == 0 ==> store.View() == old(store.View())
    ensures count == 1 ==> store.View() == Elevated(old(store.View()), sid, now)
  {
    count := 0;
    if sid in store.sessions && store.sessions[sid].identityId == identity && store.sessions[sid].valid
       && store.sessions[sid].expiresAt > now {
      store.sessions := store.sessions[sid := store.sessions[sid].(level := Some(Aal2), elevatedAt := Some(now))];
      count := 1;
    }
  }

  /** revokeTokenByIdFlow. Revoking twice is revoking once. */
  method RevokeTokenById(store: TokenStore, key: nat, identity: nat) returns (found: bool)
    modifies store
    ensures (store.View(), found) == RevokedById(old(store.View()), key, identity)
  {
    if key !in store.access || store.access[key].identityId != identity { return false; }
    if store.access[key].revoked { return true; }
    ghost var before := store.View();
    store.access := store.access[key := store.access[key].(revoked := true)];
    assert store.View() == MarkAccess(before, {key});
    assert Expiries(store.View(), {key}) == map[key := store.access[key].expiresAt];
    store.UpsertRevoked(key, store.access[key].expiresAt);
    return true;
  }

  // ---------------------------------------------------------------------------------------------
  // Row by row
  // ---------------------------------------------------------------------------------------------

  /** Every flow that issues checks that identity and client exist. */
  predicate BothExist(db: Db, identity: nat, client: nat) { identity in db.identities && client in db.clients }

  /** An MFA verification goes through exactly with the code, on a valid session: its row is promoted and bound,
      one access and one refresh token are added at aal2, and nothing else changes. */
  lemma MfaRows(db: Db, sid: nat, client: nat, codeOk: bool, now: int)
    ensures var (after, ok) := MfaVerified(db, sid, client, codeOk, now);
      && (ok <==> codeOk && sid in db.sessions && db.sessions[sid].valid && BothExist(db, db.sessions[sid].identityId, client))
      && (!ok ==> after == db)
      && (ok ==>
            var row, k := db.sessions[sid], db.nextId;
            && after.sessions == db.sessions[sid := row.(level := Some(Aal2), refreshTokenId := Some(k + 1))]
            && after.jwts == db.jwts[k := Jwt(row.identityId, sid, Some(Aal2), now + db.config.accessTtl)]
            && after.access == db.access[k := AccessRow(client, row.identityId, sid, now, now + db.config.accessTtl, false)]
            && after.refresh == db.refresh[k + 1 := RefreshRow(k + 2, None, client, row.identityId, Some(sid), now, now + db.config.refreshTtl, None, false)]
            && after.revokedJti == db.revokedJti && after.scopes == db.scopes[k := DEFAULT_SCOPES])
  {
    if MfaVerified(db, sid, client, codeOk, now).1 {
      IssuedRows(Raise(db, sid), Grant(db.sessions[sid].identityId, client, sid, Some(Aal2), None, DEFAULT_SCOPES), now);
    }
  }

  /** A recovery goes through exactly with the code, on a session that has not expired, valid or not: its row is
      made valid, promoted and bound, and tokens are added at aal2. */
  lemma RecoveryRows(db: Db, sid: nat, client: nat, codeOk: bool, now: int)
    ensures var (after, ok) := Recovered(db, sid, client, codeOk, now);
      && (ok <==> codeOk && sid in db.sessions && now < db.sessions[sid].expiresAt && BothExist(db, db.sessions[sid].identityId, client))
      && (!ok ==> after == db)
      && (ok ==>
            var row, k := db.sessions[sid], db.nextId;
            && after.sessions == db.sessions[sid := row.(valid := true, level := Some(Aal2), refreshTokenId := Some(k + 1))]
            && after.jwts == db.jwts[k := Jwt(row.identityId, sid, Some(Aal2), now + db.config.accessTtl)]
            && after.access == db.access[k := AccessRow(client, row.identityId, sid, now, now + db.config.accessTtl, false)]
            && after.refresh == db.refresh[k + 1 := RefreshRow(k + 2, None, client, row.identityId, Some(sid), now, now + db.config.refreshTtl, None, false)]
            && after.revokedJti == db.revokedJti && after.scopes == db.scopes[k := DEFAULT_SCOPES])
  {
    if Recovered(db, sid, client, codeOk, now).1 {
      var row := db.sessions[sid];
      IssuedRows(SetSession(db, sid, row.(valid := true, level := Some(Aal2))),
                 Grant(row.identityId, client, sid, Some(Aal2), None, DEFAULT_SCOPES), now);
    }
  }

  /** The session an exchange and a context switch find is valid and the identity's, and none such was created
      after it; they find one if there is one. */
  lemma FoundIsNewest(db: Db, identity: nat)
    ensures var found := SessionFound(db, identity);
      && (found.Some? <==> exists q :: q in db.sessions && db.sessions[q].identityId == identity && db.sessions[q].valid)
      && (found.Some? ==>
            && found.value in db.sessions && db.sessions[found.value].identityId == identity && db.sessions[found.value].valid
            && forall q | q in db.sessions && db.sessions[q].identityId == identity && db.sessions[q].valid :: q <= found.value)
  {
    if q :| q in db.sessions && db.sessions[q].identityId == identity && db.sessions[q].valid {
      assert q in ValidOf(db, identity);
    }
    assert forall q | q in db.sessions && db.sessions[q].identityId == identity && db.sessions[q].valid :: q in ValidOf(db, identity);
  }

  /** A code exchange goes through exactly on a valid session, at that session's level (aal1 where it has none) and
      with the scopes of the code. */
  lemma ExchangeRows(db: Db, sid: nat, client: nat, scopes: set<nat>, now: int)
    ensures var (after, ok) := Exchanged(db, sid, client, scopes, now);
      && (ok <==> sid in db.sessions && db.sessions[sid].valid && BothExist(db, db.sessions[sid].identityId, client))
      && (!ok ==> after == db)
      && (ok ==>
            var row, k := db.sessions[sid], db.nextId;
            var level := if row.level == Some(Aal2) then Aal2 else Aal1;
            && after.sessions == db.sessions[sid := row.(refreshTokenId := Some(k + 1))]
            && after.jwts == db.jwts[k := Jwt(row.identityId, sid, Some(level), now + db.config.accessTtl)]
            && after.access == db.access[k := AccessRow(client, row.identityId, sid, now, now + db.config.accessTtl, false)]
            && after.refresh == db.refresh[k + 1 := RefreshRow(k + 2, None, client, row.identityId, Some(sid), now, now + db.config.refreshTtl, None, false)]
            && after.revokedJti == db.revokedJti && after.scopes == db.scopes[k := scopes])
  {
    if Exchanged(db, sid, client, scopes, now).1 {
      LevelOrLower(db.sessions[sid].level);
      IssuedRows(db, Grant(db.sessions[sid].identityId, client, sid, Some(db.sessions[sid].level.GetOr(Aal1)), None, scopes), now);
    }
  }

  lemma LevelOrLower(level: Option<Level>)
    ensures level.GetOr(Aal1) == if level == Some(Aal2) then Aal2 else Aal1
  {
    if level.Some? && level.value != Aal2 { assert level.value.Aal1?; }
  }

  /** The access tokens that a context switch ends. */
  predicate SwitchEnds(r: AccessRow, sid: nat, identity: nat) { r.sessionId == sid && r.identityId == identity && !r.revoked }

  /** What the swap of the bound token leaves. */
  function Unbound(db: Db, bound: Option<nat>, now: int): Db {
    if bound.Some? && IsLive(db, bound.value) then RevokeRefresh(db, {bound.value}, Some(now)) else db
  }

  /** What a context switch leaves before it issues. */
  function SwitchedOff(db: Db, sid: nat, identity: nat, bound: Option<nat>, now: int): Db {
    BlockedFor(Unbound(db, bound, now), sid, identity)
  }

  function BlockedFor(db: Db, sid: nat, identity: nat): Db {
    var live := SessionAccess(db, sid, identity);
    if live == {} then db else RecordRevoked(MarkAccess(db, live), live)
  }

  lemma BlockedForRows(db: Db, sid: nat, identity: nat)
    ensures var after := BlockedFor(db, sid, identity);
      && after == db.(access := after.access, revokedJti := after.revokedJti) && after.access.Keys == db.access.Keys
      && (forall j | j in db.access :: after.access[j] ==
            if SwitchEnds(db.access[j], sid, identity) then db.access[j].(revoked := true) else db.access[j])
      && (forall j :: j in after.revokedJti <==> j in db.revokedJti || (j in db.access && SwitchEnds(db.access[j], sid, identity)))
      && (forall j | j in after.revokedJti :: after.revokedJti[j] == if j in db.revokedJti then db.revokedJti[j] else db.access[j].expiresAt)
  {
    var live := SessionAccess(db, sid, identity);
    forall j ensures j in live <==> j in db.access && SwitchEnds(db.access[j], sid, identity) {}
    BlocklistedRows(db, live);
  }

  lemma BlocklistedRows(db: Db, live: set<nat>)
    requires live <= db.access.Keys
    ensures var after := RecordRevoked(MarkAccess(db, live), live);
      && after == db.(access := after.access, revokedJti := after.revokedJti) && after.access.Keys == db.access.Keys
      && (forall j | j in db.access :: after.access[j] == if j in live then db.access[j].(revoked := true) else db.access[j])
      && (forall j :: j in after.revokedJti <==> j in db.revokedJti || j in live)
      && (forall j | j in after.revokedJti :: after.revokedJti[j] == if j in db.revokedJti then db.revokedJti[j] else db.access[j].expiresAt)
  {
  }

  /** A context switch goes through exactly on a usable session of the caller's whose bound token, if any, is live. */
  lemma SwitchAnswers(db: Db, sid: nat, identity: nat, client: nat, now: int)
    ensures var (after, ok) := Switched(db, sid, identity, client, now);
      && (ok <==>
            && sid in db.sessions && db.sessions[sid].identityId == identity && db.sessions[sid].valid && now < db.sessions[sid].expiresAt
            && BothExist(db, identity, client)
            && (db.sessions[sid].refreshTokenId.Some? ==>
                  db.sessions[sid].refreshTokenId.value in db.refresh && !db.refresh[db.sessions[sid].refreshTokenId.value].revoked))
      && (!ok ==> after == db)
  {
  }

  /** A switch that goes through issues on what it has written before. */
  lemma SwitchedIssues(db: Db, sid: nat, identity: nat, client: nat, now: int)
    requires Switched(db, sid, identity, client, now).1
    ensures var row := db.sessions[sid];
      Switched(db, sid, identity, client, now).0
        == Issue(SwitchedOff(db, sid, identity, row.refreshTokenId, now), Grant(identity, client, sid, Some(row.level.GetOr(Aal1)), None, DEFAULT_SCOPES), now)
  {
    var db1 := Unbound(db, db.sessions[sid].refreshTokenId, now);
    assert db1.access == db.access;
    assert SessionAccess(db, sid, identity) == SessionAccess(db1, sid, identity);
  }

  lemma SwitchedOffRows(db: Db, sid: nat, identity: nat, bound: Option<nat>, now: int)
    requires bound.Some? ==> IsLive(db, bound.value)
    ensures var after := SwitchedOff(db, sid, identity, bound, now);
      && after == db.(refresh := after.refresh, access := after.access, revokedJti := after.revokedJti)
      && after.refresh.Keys == db.refresh.Keys && after.access.Keys == db.access.Keys
      && (forall x | x in db.refresh :: after.refresh[x] ==
            if bound == Some(x) then db.refresh[x].(revoked := true, rotatedAt := Some(now)) else db.refresh[x])
      && (forall j | j in db.access :: after.access[j] ==
            if SwitchEnds(db.access[j], sid, identity) then db.access[j].(revoked := true) else db.access[j])
      && (forall j :: j in after.revokedJti <==> j in db.revokedJti || (j in db.access && SwitchEnds(db.access[j], sid, identity)))
      && (forall j | j in after.revokedJti :: after.revokedJti[j] == if j in db.revokedJti then db.revokedJti[j] else db.access[j].expiresAt)
  {
    if bound.Some? { SwappedRow(db, bound.value, now); }
    BlockedForRows(Unbound(db, bound, now), sid, identity);
  }

  /** Then the bound token is revoked and one pair of tokens is added at the session's level. */
  lemma SwitchRows(db: Db, sid: nat, identity: nat, client: nat, now: int)
    requires Switched(db, sid, identity, client, now).1 && forall x | x in db.refresh :: x < db.nextId
    ensures var after, row, k := Switched(db, sid, identity, client, now).0, db.sessions[sid], db.nextId;
      && after.refresh.Keys == db.refresh.Keys + {k + 1}
      && after.refresh[k + 1] == RefreshRow(k + 2, None, client, identity, Some(sid), now, now + db.config.refreshTtl, None, false)
      && (forall x | x in db.refresh :: after.refresh[x] ==
            if row.refreshTokenId == Some(x) then db.refresh[x].(revoked := true, rotatedAt := Some(now)) else db.refresh[x])
      && after.sessions == db.sessions[sid := row.(refreshTokenId := Some(k + 1))]
      && after.jwts == db.jwts[k := Jwt(identity, sid, Some(if row.level == Some(Aal2) then Aal2 else Aal1), now + db.config.accessTtl)]
  {
    var row := db.sessions[sid];
    SwitchedIssues(db, sid, identity, client, now);
    SwitchedOffRows(db, sid, identity, row.refreshTokenId, now);
    LevelOrLower(row.level);
    IssuedRows(SwitchedOff(db, sid, identity, row.refreshTokenId, now),
               Grant(identity, client, sid, Some(row.level.GetOr(Aal1)), None, DEFAULT_SCOPES), now);
  }

  /** ... and every unrevoked access token of the session is marked and recorded under its expiry. */
  lemma SwitchEndsAccess(db: Db, sid: nat, identity: nat, client: nat, now: int)
    requires Switched(db, sid, identity, client, now).1 && forall x | x in db.access :: x < db.nextId
    ensures var after, k := Switched(db, sid, identity, client, now).0, db.nextId;
      && after.access.Keys == db.access.Keys + {k}
      && after.access[k] == AccessRow(client, identity, sid, now, now + db.config.accessTtl, false)
      && (forall j | j in db.access :: after.access[j] ==
            if SwitchEnds(db.access[j], sid, identity) then db.access[j].(revoked := true) else db.access[j])
      && (forall j :: j in after.revokedJti <==> j in db.revokedJti || (j in db.access && SwitchEnds(db.access[j], sid, identity)))
      && (forall j | j in after.revokedJti :: after.revokedJti[j] == if j in db.revokedJti then db.revokedJti[j] else db.access[j].expiresAt)
  {
    var row := db.sessions[sid];
    SwitchedIssues(db, sid, identity, client, now);
    SwitchedOffRows(db, sid, identity, row.refreshTokenId, now);
    LevelOrLower(row.level);
    IssuedRows(SwitchedOff(db, sid, identity, row.refreshTokenId, now),
               Grant(identity, client, sid, Some(row.level.GetOr(Aal1)), None, DEFAULT_SCOPES), now);
  }

  /** Revocation by id finds exactly the caller's own access tokens and leaves the one found marked, and recorded
      if it was not marked before; nothing else changes. */
  lemma RevokedByIdRows(db: Db, key: nat, identity: nat)
    ensures var (after, found) := RevokedById(db, key, identity);
      && (found <==> key in db.access && db.access[key].identityId == identity)
      && (found ==> after.access == db.access[key := db.access[key].(revoked := true)])
      && (found && !db.access[key].revoked ==>
            after.revokedJti == if key in db.revokedJti then db.revokedJti else db.revokedJti[key := db.access[key].expiresAt])
      && (!found || db.access[key].revoked ==> after == db)
      && after == db.(access := after.access, revokedJti := after.revokedJti)
  {
    RevokedRows(db, key, Some(identity));
  }

  /** Eviction marks the sessions named that are the identity's. */
  lemma EvictedRows(db: Db, identity: nat, evicted: set<nat>)
    ensures var after := Evict(db, identity, evicted);
      && after == db.(sessions := after.sessions) && after.sessions.Keys == db.sessions.Keys
      && (forall q | q in db.sessions :: after.sessions[q] ==
            if q in evicted && db.sessions[q].identityId == identity then db.sessions[q].(valid := false) else db.sessions[q])
  {
  }

  /** Elevation raises the session's level and dates it; nothing else changes. */
  lemma ElevatedRows(db: Db, sid: nat, now: int)
    requires sid in db.sessions
    ensures Elevated(db, sid, now) == db.(sessions := db.sessions[sid := db.sessions[sid].(level := Some(Aal2), elevatedAt := Some(now))])
  {
  }

  // ---------------------------------------------------------------------------------------------
  // Flows as runs
  // ---------------------------------------------------------------------------------------------

  ghost predicate Leads(a: Sys, steps: seq<Step>, b: Sys) { Run(a, steps) == Some(b) }

  function Alone(db: Db, now: int): Sys { Sys(db, map[], now) }

  function With(db: Db, phase: Phase, now: int): Sys { Sys(db, map[0 := phase], now) }

  lemma Start(s: Sys)
    ensures Leads(s, [], s)
  {
  }

  lemma Then(a: Sys, steps: seq<Step>, b: Sys, step: Step, c: Sys)
    requires Leads(a, steps, b) && Enabled(b, step) && Apply(b, step) == c
    ensures Leads(a, steps + [step], c)
  {
  }

  lemma WriteAccessStep(db: Db, g: Grant, now: int)
    requires MayWrite(db, g)
    ensures Enabled(With(db, Issuing(g, now, true, true), now), WriteAccess(0))
    ensures Apply(With(db, Issuing(g, now, true, true), now), WriteAccess(0)) == With(IssueAccess(db, g, now), Issuing(g, now, false, true), now)
  {
  }

  lemma WriteRefreshStep(db: Db, g: Grant, now: int)
    requires MayWrite(db, g)
    ensures Enabled(With(db, Issuing(g, now, false, true), now), WriteRefresh(0))
    ensures Apply(With(db, Issuing(g, now, false, true), now), WriteRefresh(0)) == With(IssueRefresh(db, g, now), Binding(g, now, false, db.nextId), now)
  {
  }

  lemma BindStep(db: Db, g: Grant, key: nat, now: int)
    ensures Enabled(With(db, Binding(g, now, false, key), now), Bind(0))
    ensures Apply(With(db, Binding(g, now, false, key), now), Bind(0)) == Alone(BindSession(db, g.sessionId, key), now)
  {
  }

  /** The three writes of issue(). */
  lemma IssueIsARun(a: Sys, steps: seq<Step>, db: Db, g: Grant, now: int)
    requires Leads(a, steps, With(db, Issuing(g, now, true, true), now)) && MayWrite(db, g)
    ensures Leads(a, steps + [WriteAccess(0)] + [WriteRefresh(0)] + [Bind(0)], Alone(Issue(db, g, now), now))
  {
    var db1 := IssueAccess(db, g, now);
    var db2 := IssueRefresh(db1, g, now);
    WriteAccessStep(db, g, now);
    WriteRefreshStep(db1, g, now);
    BindStep(db2, g, db1.nextId, now);
    Then(a, steps, With(db, Issuing(g, now, true, true), now), WriteAccess(0), With(db1, Issuing(g, now, false, true), now));
    Then(a, steps + [WriteAccess(0)], With(db1, Issuing(g, now, false, true), now), WriteRefresh(0), With(db2, Binding(g, now, false, db1.nextId), now));
    Then(a, steps + [WriteAccess(0)] + [WriteRefresh(0)], With(db2, Binding(g, now, false, db1.nextId), now), Bind(0), Alone(Issue(db, g, now), now));
  }

  lemma SwapStep(db: Db, t: Snapshot, now: int)
    requires IsLive(db, t.key)
    ensures Enabled(With(db, Swapping(t), now), Swap(0))
    ensures Apply(With(db, Swapping(t), now), Swap(0)) == With(SwapRefresh(db, t.key, now), ReadingLevel(t), now)
  {
  }

  lemma ReadLevelStep(db: Db, t: Snapshot, scopes: set<nat>, now: int)
    ensures Enabled(With(db, ReadingLevel(t), now), ReadLevel(0, scopes))
    ensures Apply(With(db, ReadingLevel(t), now), ReadLevel(0, scopes))
         == With(db, Issuing(RotationGrant(db, t.key, t.row).(scopes := scopes), now, true, true), now)
  {
  }

  /** A refresh that is accepted. */
  lemma RefreshIsARun(db: Db, token: nat, now: int) returns (steps: seq<Step>)
    requires Refresh(db, token, now).1.Accepted?
    ensures Leads(Alone(db, now), steps, Alone(Refresh(db, token, now).0, now))
  {
    var t, db1 := Snapshot(token, db.refresh[token]), SwapRefresh(db, token, now);
    var g := RotationGrant(db, token, t.row);
    Start(Alone(db, now));
    Then(Alone(db, now), [], Alone(db, now), StartRefresh(0, token), With(db, Swapping(t), now));
    steps := [] + [StartRefresh(0, token)];
    SwapStep(db, t, now);
    Then(Alone(db, now), steps, With(db, Swapping(t), now), Swap(0), With(db1, ReadingLevel(t), now));
    steps := steps + [Swap(0)];
    assert RotationGrant(db1, token, t.row) == g;
    ReadLevelStep(db1, t, g.scopes, now);
    Then(Alone(db, now), steps, With(db1, ReadingLevel(t), now), ReadLevel(0, g.scopes), With(db1, Issuing(g, now, true, true), now));
    steps := steps + [ReadLevel(0, g.scopes)];
    IssueIsARun(Alone(db, now), steps, db1, g, now);
    steps := steps + [WriteAccess(0)] + [WriteRefresh(0)] + [Bind(0)];
  }

  lemma StopStep(db: Db, phase: Phase, now: int)
    ensures Enabled(With(db, phase, now), Stop(0)) && Apply(With(db, phase, now), Stop(0)) == Alone(db, now)
  {
  }

  lemma MarkStep(db: Db, t: Snapshot, read: map<nat, int>, now: int)
    ensures Enabled(With(db, Marking(t, read, db.nextId), now), Mark(0))
    ensures Apply(With(db, Marking(t, read, db.nextId), now), Mark(0))
         == With(Record(MarkAccess(db, read.Keys), read), Thrown(t, db.nextId), now)
  {
  }

  lemma ReadLiveStep(db: Db, t: Snapshot, now: int)
    ensures Enabled(With(db, Sweeping(t), now), Sweep(0))
    ensures Apply(With(db, Sweeping(t), now), Sweep(0))
         == With(db, Marking(t, Expiries(db, LiveAccess(db, t.row.identityId, t.row.clientId, now)), db.nextId), now)
  {
  }

  lemma SweepIsARun(a: Sys, before: seq<Step>, db: Db, t: Snapshot, now: int) returns (steps: seq<Step>)
    requires Leads(a, before, With(db, Sweeping(t), now))
    ensures var live := LiveAccess(db, t.row.identityId, t.row.clientId, now);
      Leads(a, steps, Alone(RecordRevoked(MarkAccess(db, live), live), now))
  {
    var live := LiveAccess(db, t.row.identityId, t.row.clientId, now);
    var db1, read := RecordRevoked(MarkAccess(db, live), live), Expiries(db, live);
    ReadLiveStep(db, t, now);
    Then(a, before, With(db, Sweeping(t), now), Sweep(0), With(db, Marking(t, read, db.nextId), now));
    steps := before + [Sweep(0)];
    MarkStep(db, t, read, now);
    ReadBeforeMarking(db, live);
    Then(a, steps, With(db, Marking(t, read, db.nextId), now), Mark(0), With(db1, Thrown(t, db.nextId), now));
    steps := steps + [Mark(0)];
    StopStep(db1, Thrown(t, db.nextId), now);
    Then(a, steps, With(db1, Thrown(t, db.nextId), now), Stop(0), Alone(db1, now));
    steps := steps + [Stop(0)];
  }

  /** A replay and its kill-chain. */
  lemma ReplayIsARun(db: Db, token: nat, now: int) returns (steps: seq<Step>)
    requires token in db.refresh && db.refresh[token].revoked
    ensures Leads(Alone(db, now), steps, Alone(Refresh(db, token, now).0, now))
  {
    var t := Snapshot(token, db.refresh[token]);
    var db1 := RevokeRefresh(db, FamilyKeys(db, t.row.familyId), None);
    var db2 := InvalidateSession(db1, t.row.sessionId);
    Start(Alone(db, now));
    Then(Alone(db, now), [], Alone(db, now), StartRefresh(0, token), With(db, Killing(t, true, true), now));
    steps := [] + [StartRefresh(0, token)];
    Then(Alone(db, now), steps, With(db, Killing(t, true, true), now), KillFamily(0), With(db1, Killing(t, false, true), now));
    steps := steps + [KillFamily(0)];
    Then(Alone(db, now), steps, With(db1, Killing(t, false, true), now), KillSession(0), With(db2, Sweeping(t), now));
    steps := steps + [KillSession(0)];
    steps := SweepIsARun(Alone(db, now), steps, db2, t, now);
  }

  lemma SwitchReads(db: Db, sid: nat, identity: nat, client: nat, now: int) returns (steps: seq<Step>)
    requires Usable(db, sid, identity, now) && client < db.nextId
    ensures var row := db.sessions[sid];
      var w := Switch(sid, identity, client, row.refreshTokenId, row.level.GetOr(Aal1));
      Leads(Alone(db, now), steps, With(db, SwitchCollected(w, Expiries(db, SessionAccess(db, sid, identity))), now))
  {
    var row, live := db.sessions[sid], Expiries(db, SessionAccess(db, sid, identity));
    var w := Switch(sid, identity, client, row.refreshTokenId, row.level.GetOr(Aal1));
    Start(Alone(db, now));
    Then(Alone(db, now), [], Alone(db, now), StartSwitch(0, sid, identity, client), With(db, SwitchRead(w), now));
    steps := [] + [StartSwitch(0, sid, identity, client)];
    Then(Alone(db, now), steps, With(db, SwitchRead(w), now), SwitchCollect(0), With(db, SwitchCollected(w, live), now));
    steps := steps + [SwitchCollect(0)];
  }

  lemma SwitchSwapStep(db: Db, w: Switch, live: map<nat, int>, now: int)
    requires w.bound.Some? ==> IsLive(db, w.bound.value)
    ensures Enabled(With(db, SwitchCollected(w, live), now), SwitchSwap(0))
    ensures Apply(With(db, SwitchCollected(w, live), now), SwitchSwap(0))
         == With(if w.bound.Some? then SwapRefresh(db, w.bound.value, now) else db, SwitchSwapped(w, live), now)
  {
  }

  /** Expiries read before the marking are those read after it. */
  lemma ReadBeforeMarking(db: Db, live: set<nat>)
    requires live <= db.access.Keys
    ensures Expiries(db, live).Keys == live && (Expiries(db, live) == map[] <==> live == {})
    ensures Record(MarkAccess(db, live), Expiries(db, live)) == RecordRevoked(MarkAccess(db, live), live)
  {
    assert Expiries(MarkAccess(db, live), live) == Expiries(db, live);
  }

  lemma SwitchBlockStep(db: Db, w: Switch, live: map<nat, int>, now: int)
    ensures Enabled(With(db, SwitchSwapped(w, live), now), SwitchBlock(0))
    ensures Apply(With(db, SwitchSwapped(w, live), now), SwitchBlock(0))
         == With(SwitchBlocked(db, w, live), Issuing(SwitchGrant(w), now, true, true), now)
  {
  }

  lemma SwitchBlockIs(db: Db, w: Switch)
    ensures var live := SessionAccess(db, w.sid, w.identity);
      SwitchBlocked(db, w, Expiries(db, live)) == if live == {} then db else RecordRevoked(MarkAccess(db, live), live)
  {
    ReadBeforeMarking(db, SessionAccess(db, w.sid, w.identity));
  }

  /** The second half of a context switch. */
  lemma SwitchEndIsARun(a: Sys, before: seq<Step>, db: Db, w: Switch, now: int) returns (steps: seq<Step>)
    requires Leads(a, before, With(db, SwitchSwapped(w, Expiries(db, SessionAccess(db, w.sid, w.identity))), now))
    requires CanIssue(db, w.identity, w.client)
    ensures var live := SessionAccess(db, w.sid, w.identity);
      var blocked := if live == {} then db else RecordRevoked(MarkAccess(db, live), live);
      Leads(a, steps, Alone(Issue(blocked, SwitchGrant(w), now), now))
  {
    var live := SessionAccess(db, w.sid, w.identity);
    var blocked := if live == {} then db else RecordRevoked(MarkAccess(db, live), live);
    SwitchBlockStep(db, w, Expiries(db, live), now);
    SwitchBlockIs(db, w);
    Then(a, before, With(db, SwitchSwapped(w, Expiries(db, live)), now), SwitchBlock(0), With(blocked, Issuing(SwitchGrant(w), now, true, true), now));
    steps := before + [SwitchBlock(0)];
    IssueIsARun(a, steps, blocked, SwitchGrant(w), now);
    steps := steps + [WriteAccess(0)] + [WriteRefresh(0)] + [Bind(0)];
  }

  /** A context switch that goes through. */
  lemma SwitchIsARun(db: Db, sid: nat, identity: nat, client: nat, now: int) returns (steps: seq<Step>)
    requires Switched(db, sid, identity, client, now).1 && client < db.nextId
    ensures Leads(Alone(db, now), steps, Alone(Switched(db, sid, identity, client, now).0, now))
  {
    var row, live := db.sessions[sid], SessionAccess(db, sid, identity);
    var w := Switch(sid, identity, client, row.refreshTokenId, row.level.GetOr(Aal1));
    var db1 := if row.refreshTokenId.Some? then SwapRefresh(db, row.refreshTokenId.value, now) else db;
    var db2 := if live == {} then db1 else RecordRevoked(MarkAccess(db1, live), live);
    steps := SwitchReads(db, sid, identity, client, now);
    var read := Expiries(db, live);
    SwitchSwapStep(db, w, read, now);
    Then(Alone(db, now), steps, With(db, SwitchCollected(w, read), now), SwitchSwap(0), With(db1, SwitchSwapped(w, read), now));
    steps := steps + [SwitchSwap(0)];
    assert db1.access == db.access;
    assert SessionAccess(db1, sid, identity) == live && Expiries(db1, live) == read;
    steps := SwitchEndIsARun(Alone(db, now), steps, db1, w, now);
  }

  /** An MFA verification that goes through. */
  lemma MfaIsARun(db: Db, sid: nat, client: nat, now: int) returns (steps: seq<Step>)
    requires MfaVerified(db, sid, client, true, now).1 && client < db.nextId
    ensures Leads(Alone(db, now), steps, Alone(MfaVerified(db, sid, client, true, now).0, now))
  {
    var row := db.sessions[sid];
    var g, checked := Grant(row.identityId, client, sid, Some(Aal2), None, DEFAULT_SCOPES), With(db, MfaChecked(sid, row.identityId, client), now);
    Start(Alone(db, now));
    Then(Alone(db, now), [], Alone(db, now), StartMfa(0, sid, client), checked);
    steps := [] + [StartMfa(0, sid, client)];
    Then(Alone(db, now), steps, checked, Promote(0), With(Raise(db, sid), Issuing(g, now, true, true), now));
    steps := steps + [Promote(0)];
    IssueIsARun(Alone(db, now), steps, Raise(db, sid), g, now);
    steps := steps + [WriteAccess(0)] + [WriteRefresh(0)] + [Bind(0)];
  }

  /** A recovery that goes through. */
  lemma RecoveryIsARun(db: Db, sid: nat, client: nat, now: int) returns (steps: seq<Step>)
    requires Recovered(db, sid, client, true, now).1 && client < db.nextId
    ensures Leads(Alone(db, now), steps, Alone(Recovered(db, sid, client, true, now).0, now))
  {
    var row := db.sessions[sid];
    var g, checked := Grant(row.identityId, client, sid, Some(Aal2), None, DEFAULT_SCOPES), With(db, RecoverChecked(sid, row.identityId, client), now);
    var db1 := SetSession(db, sid, row.(valid := true, level := Some(Aal2)));
    Start(Alone(db, now));
    Then(Alone(db, now), [], Alone(db, now), StartRecover(0, sid, client), checked);
    steps := [] + [StartRecover(0, sid, client)];
    Then(Alone(db, now), steps, checked, Revalidate(0, sid), With(db1, Issuing(g, now, true, true), now));
    steps := steps + [Revalidate(0, sid)];
    IssueIsARun(Alone(db, now), steps, db1, g, now);
    steps := steps + [WriteAccess(0)] + [WriteRefresh(0)] + [Bind(0)];
  }

  /** A code exchange that goes through. */
  lemma ExchangeIsARun(db: Db, sid: nat, client: nat, scopes: set<nat>, now: int) returns (steps: seq<Step>)
    requires Exchanged(db, sid, client, scopes, now).1 && client < db.nextId
    ensures Leads(Alone(db, now), steps, Alone(Exchanged(db, sid, client, scopes, now).0, now))
  {
    var row := db.sessions[sid];
    var g := Grant(row.identityId, client, sid, Some(row.level.GetOr(Aal1)), None, scopes);
    Start(Alone(db, now));
    Then(Alone(db, now), [], Alone(db, now), Exchange(0, sid, client, scopes), With(db, Issuing(g, now, true, true), now));
    steps := [] + [Exchange(0, sid, client, scopes)];
    IssueIsARun(Alone(db, now), steps, db, g, now);
    steps := steps + [WriteAccess(0)] + [WriteRefresh(0)] + [Bind(0)];
  }

  /** A login without a second factor. */
  lemma LoginIsARun(db: Db, identity: nat, client: nat, level: Level, expiresAt: int, evicted: set<nat>, now: int) returns (steps: seq<Step>)
    requires BothExist(db, identity, client) && client < db.nextId
    ensures Leads(Alone(db, now), steps, Alone(Login(Evict(db, identity, evicted), identity, client, level, expiresAt, now), now))
  {
    var db1 := AddSession(Evict(db, identity, evicted), SessionRow(identity, None, true, expiresAt, Some(level), None));
    var g := Grant(identity, client, db.nextId, Some(level), None, DEFAULT_SCOPES);
    Start(Alone(db, now));
    Then(Alone(db, now), [], Alone(db, now), SignIn(0, identity, client, level, expiresAt, evicted), With(db1, Issuing(g, now, true, true), now));
    steps := [] + [SignIn(0, identity, client, level, expiresAt, evicted)];
    IssueIsARun(Alone(db, now), steps, db1, g, now);
    steps := steps + [WriteAccess(0)] + [WriteRefresh(0)] + [Bind(0)];
  }

  /** An elevation that finds its session. */
  lemma ElevationIsARun(db: Db, sid: nat, identity: nat, now: int) returns (steps: seq<Step>)
    requires Usable(db, sid, identity, now)
    ensures Leads(Alone(db, now), steps, Alone(Elevated(db, sid, now), now))
  {
    Start(Alone(db, now));
    Then(Alone(db, now), [], Alone(db, now), StepUp(sid, identity), Alone(Elevated(db, sid, now), now));
    steps := [] + [StepUp(sid, identity)];
  }

  /** A rotation among other callers reads the level from the session's row as well: what it is about to sign is
      that level at the moment of the reading, none without the row, and the reading changes nothing. */
  lemma ReadLevelCarries(s: Sys, p: nat, scopes: set<nat>)
    requires Enabled(s, ReadLevel(p, scopes))
    ensures var t, r := s.procs[p].t, Apply(s, ReadLevel(p, scopes));
      && r.db == s.db && p in r.procs && r.procs[p].Issuing? && r.procs[p].at == s.now
      && (t.row.sessionId.Some? && t.row.sessionId.value in s.db.sessions ==> r.procs[p].g.level == s.db.sessions[t.row.sessionId.value].level)
      && (t.row.sessionId.None? || t.row.sessionId.value !in s.db.sessions ==> r.procs[p].g.level == None)
      && r.procs[p].g.parent == Some((t.row.familyId, t.key))
      && r.procs[p].g.identityId == t.row.identityId && r.procs[p].g.clientId == t.row.clientId
      && (t.row.sessionId.Some? ==> r.procs[p].g.sessionId == t.row.sessionId.value)
  {
  }

  lemma BulkCommitStep(db: Db, scope: Scope, now: int)
    requires !ReturnsEarly(scope, SidsRead(db, scope))
    ensures var s := With(db, BulkCollected(scope, SidsRead(db, scope), Expiries(db, AccessOf(db, scope, SidsRead(db, scope)))), now);
      Enabled(s, BulkCommit(0)) && Apply(s, BulkCommit(0)) == Alone(BulkRevoked(db, scope, now).0, now)
  {
  }

  /** A bulk revocation that reaches its transaction. */
  lemma BulkIsARun(db: Db, scope: Scope, now: int) returns (steps: seq<Step>)
    requires !ReturnsEarly(scope, SidsRead(db, scope))
    ensures Leads(Alone(db, now), steps, Alone(BulkRevoked(db, scope, now).0, now))
  {
    var sids := SidsRead(db, scope);
    var live := Expiries(db, AccessOf(db, scope, sids));
    Start(Alone(db, now));
    Then(Alone(db, now), [], Alone(db, now), StartBulk(0, scope), With(db, BulkRead(scope, sids), now));
    steps := [] + [StartBulk(0, scope)];
    Then(Alone(db, now), steps, With(db, BulkRead(scope, sids), now), BulkCollect(0), With(db, BulkCollected(scope, sids, live), now));
    steps := steps + [BulkCollect(0)];
    BulkCommitStep(db, scope, now);
    Then(Alone(db, now), steps, With(db, BulkCollected(scope, sids, live), now), BulkCommit(0), Alone(BulkRevoked(db, scope, now).0, now));
    steps := steps + [BulkCommit(0)];
  }
}
