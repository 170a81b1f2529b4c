/** Revoking many tokens in one transaction: SessionRepository.revokeAllForIdentity
    (src/modules/auth/repositories/session.repository.ts) and the same transaction written out in the routes
    that end one session, the other sessions, or everything an identity has. */
module BulkRevocation {
  import opened Options
  import opened Tokens

  datatype Scope =
    | ValidSessions(identity: nat)                              // password reset
    | OtherSessions(identity: nat, current: Option<nat>)        // password change
    | OneSession(identity: nat, sid: nat)                       // one session ended
    | Everything(identity: nat, stamped: bool)                  // suspension (stamped), sign-out everywhere, deletion

  // ---------------------------------------------------------------------------------------------
  // What a scope covers
  // ---------------------------------------------------------------------------------------------

  /** The sessions that the flow looks up before its transaction. */
  function SidsRead(db: Db, scope: Scope): set<nat> {
    match scope
    case ValidSessions(identity) => set q | q in db.sessions && db.sessions[q].identityId == identity && db.sessions[q].valid
    case OtherSessions(identity, current) =>
      set q | q in db.sessions && db.sessions[q].identityId == identity && db.sessions[q].valid && current != Some(q)
    case _ => {}
  }

  predicate ReturnsEarly(scope: Scope, sids: set<nat>) {
    (scope.ValidSessions? || scope.OtherSessions?) && sids == {}
  }

  predicate CoversAccess(scope: Scope, sids: set<nat>, r: AccessRow) {
    r.identityId == scope.identity
    && match scope
       case OtherSessions(_, _) => r.sessionId in sids
       case OneSession(_, sid) => r.sessionId == sid
       case _ => true
  }

  predicate CoversRefresh(scope: Scope, sids: set<nat>, r: RefreshRow) {
    match scope
    case OneSession(identity, sid) => r.identityId == identity && r.sessionId == Some(sid)
    case Everything(identity, _) => r.identityId == identity
    case _ => r.sessionId.Some? && r.sessionId.value in sids
  }

  predicate CoversSession(scope: Scope, sids: set<nat>, q: nat, r: SessionRow) {
    match scope
    case OneSession(identity, sid) => q == sid && r.identityId == identity
    case Everything(identity, _) => r.identityId == identity && r.valid
    case _ => q in sids
  }

  function AccessOf(db: Db, scope: Scope, sids: set<nat>): set<nat> {
    set j | j in db.access && CoversAccess(scope, sids, db.access[j]) && !db.access[j].revoked
  }

  function RefreshOf(db: Db, scope: Scope, sids: set<nat>): set<nat> {
    set k | k in db.refresh && CoversRefresh(scope, sids, db.refresh[k]) && !db.refresh[k].revoked
  }

  function Invalidated(rows: map<nat, SessionRow>, scope: Scope, sids: set<nat>): map<nat, SessionRow> {
    map q | q in rows :: if CoversSession(scope, sids, q, rows[q]) then rows[q].(valid := false) else rows[q]
  }

  function Stamp(scope: Scope, now: int): Option<int> {
    if scope.Everything? && !scope.stamped then None else Some(now)
  }

  // ---------------------------------------------------------------------------------------------
  // The transaction
  // ---------------------------------------------------------------------------------------------

  /** The transaction creates a RevokedJti row for each token read before it, and aborts if one exists. */
  predicate Commits(db: Db, live: map<nat, int>) { live.Keys !! db.revokedJti.Keys }

  function BulkWrite(db: Db, scope: Scope, sids: set<nat>, live: map<nat, int>, now: int): Db {
    var db1 := RevokeRefresh(db, RefreshOf(db, scope, sids), Stamp(scope, now));
    var db2 := MarkAccess(db1, AccessOf(db, scope, sids));
    Record(db2.(sessions := Invalidated(db2.sessions, scope, sids)), live)
  }

  /** The whole flow when nothing interleaves with it: what it leaves and whether it commits. */
  function BulkRevoked(db: Db, scope: Scope, now: int): (Db, bool) {
    var sids := SidsRead(db, scope);
    var live := Expiries(db, AccessOf(db, scope, sids));
    if ReturnsEarly(scope, sids) then (db, true)
    else if Commits(db, live) then (BulkWrite(db, scope, sids, live, now), true)
    else (db, false)
  }

  method RecordAll(store: TokenStore, jtis: set<nat>)
    requires jtis <= store.access.Keys
    modifies store`revokedJti
    ensures store.View() == RecordRevoked(old(store.View()), jtis)
  {
    var todo := jtis;
    while todo != {}
      invariant todo <= jtis
      invariant store.revokedJti == RecordRevoked(old(store.View()), jtis - todo).revokedJti
      decreases |todo|
    {
      var j :| j in todo;
      RecordOneMore(old(store.View()), jtis - todo, j);
      if j !in store.revokedJti {
        store.revokedJti := store.revokedJti[j := store.access[j].expiresAt];
      }
      assert jtis - (todo - {j}) == (jtis - todo) + {j};
      todo := todo - {j};
    }
    assert jtis - todo == jtis;
  }

  /** The statements of the transaction on access tokens, refresh tokens and sessions. */
  method WriteScope(store: TokenStore, scope: Scope, sids: set<nat>, now: int)
    modifies store`access, store`refresh, store`sessions
    ensures store.access == MarkAccess(old(store.View()), AccessOf(old(store.View()), scope, sids)).access
    ensures store.refresh == RevokeRows(old(store.refresh), RefreshOf(old(store.View()), scope, sids), Stamp(scope, now))
    ensures store.sessions == Invalidated(old(store.sessions), scope, sids)
  {
    store.access := map j | j in store.access ::
      if CoversAccess(scope, sids, store.access[j]) && !store.access[j].revoked
      then store.access[j].(revoked := true) else store.access[j];
    var stamp := Stamp(scope, now);
    store.refresh := map k | k in store.refresh ::
      if CoversRefresh(scope, sids, store.refresh[k]) && !store.refresh[k].revoked
      then RevokeRow(store.refresh[k], stamp) else store.refresh[k];
    store.sessions := map q | q in store.sessions ::
      if CoversSession(scope, sids, q, store.sessions[q]) then store.sessions[q].(valid := false) else store.sessions[q];
  }

  method RevokeInBulk(store: TokenStore, scope: Scope, now: int) returns (committed: bool)
    modifies store
    ensures (store.View(), committed) == BulkRevoked(old(store.View()), scope, now)
  {
    var sids := SidsRead(store.View(), scope);
    if ReturnsEarly(scope, sids) { return true; }
    var live := set j | j in store.access && CoversAccess(scope, sids, store.access[j]) && !store.access[j].revoked;
    assert live == AccessOf(store.View(), scope, sids) == Expiries(store.View(), live).Keys;
    if exists j | j in live :: j in store.revokedJti { return false; }
    ghost var before := store.View();
    WriteScope(store, scope, sids, now);
    assert Expiries(store.View(), live) == Expiries(before, live);
    RecordAll(store, live);
    return true;
  }

  // ---------------------------------------------------------------------------------------------
  // What it achieves
  // ---------------------------------------------------------------------------------------------

  /** A committed bulk revocation that did not return early leaves nothing in its scope: no unrevoked access or
      refresh token, no valid session among those covered, and every access token it revoked in RevokedJti.
      Nothing of another identity's changes but refresh tokens bound to the sessions it read. */
  lemma BulkRevokeSweeps(db: Db, scope: Scope, now: int)
    requires BulkRevoked(db, scope, now).1 && !ReturnsEarly(scope, SidsRead(db, scope))
    ensures var after, sids := BulkRevoked(db, scope, now).0, SidsRead(db, scope);
      && AccessOf(after, scope, sids) == {} && RefreshOf(after, scope, sids) == {}
      && (forall q | q in db.sessions && CoversSession(scope, sids, q, db.sessions[q]) :: q in after.sessions && !after.sessions[q].valid)
      && AccessOf(db, scope, sids) <= after.revokedJti.Keys
      && (forall j | j in db.access && db.access[j].identityId != scope.identity :: after.access[j] == db.access[j])
      && (forall q | q in db.sessions && db.sessions[q].identityId != scope.identity :: after.sessions[q] == db.sessions[q])
      && (forall k | k in db.refresh && !CoversRefresh(scope, sids, db.refresh[k]) :: after.refresh[k] == db.refresh[k])
  {
  }

  // ---------------------------------------------------------------------------------------------
  // Scope by scope, on the rows
  // ---------------------------------------------------------------------------------------------

  /** `after` has these access tokens marked, and recorded under their expiry if they were not marked, and no others. */
  ghost predicate EndsAccess(db: Db, after: Db, ended: set<nat>) {
    && after.access.Keys == db.access.Keys
    && (forall j | j in db.access :: after.access[j] == if j in ended then db.access[j].(revoked := true) else db.access[j])
    && (forall j :: j in after.revokedJti <==> j in db.revokedJti || (j in db.access && j in ended && !db.access[j].revoked))
    && (forall j | j in db.revokedJti :: after.revokedJti[j] == db.revokedJti[j])
    && (forall j | j in after.revokedJti && j !in db.revokedJti :: after.revokedJti[j] == db.access[j].expiresAt)
  }

  /** `after` has the live ones of these refresh tokens revoked, at `at` if that is given, and no others. */
  ghost predicate EndsRefresh(db: Db, after: Db, ended: set<nat>, at: Option<int>) {
    && after.refresh.Keys == db.refresh.Keys
    && (forall k | k in db.refresh ::
          var r := db.refresh[k];
          after.refresh[k] == if k !in ended || r.revoked then r
                              else r.(revoked := true, rotatedAt := if at.Some? then at else r.rotatedAt))
  }

  /** `after` has these sessions invalid, and no others. */
  ghost predicate EndsSessions(db: Db, after: Db, ended: set<nat>) {
    && after.sessions.Keys == db.sessions.Keys
    && (forall q | q in db.sessions :: after.sessions[q] == if q in ended then db.sessions[q].(valid := false) else db.sessions[q])
  }

  lemma BulkAccess(db: Db, scope: Scope, now: int, ended: set<nat>)
    requires BulkRevoked(db, scope, now).1 && !ReturnsEarly(scope, SidsRead(db, scope))
    requires forall j :: j in ended <==> j in db.access && CoversAccess(scope, SidsRead(db, scope), db.access[j])
    ensures EndsAccess(db, BulkRevoked(db, scope, now).0, ended)
  {
  }

  lemma BulkRefresh(db: Db, scope: Scope, now: int, ended: set<nat>)
    requires BulkRevoked(db, scope, now).1 && !ReturnsEarly(scope, SidsRead(db, scope))
    requires forall k :: k in ended <==> k in db.refresh && CoversRefresh(scope, SidsRead(db, scope), db.refresh[k])
    ensures EndsRefresh(db, BulkRevoked(db, scope, now).0, ended, Stamp(scope, now))
  {
  }

  lemma BulkSessions(db: Db, scope: Scope, now: int, ended: set<nat>)
    requires BulkRevoked(db, scope, now).1 && !ReturnsEarly(scope, SidsRead(db, scope))
    requires forall q :: q in ended <==> q in db.sessions && CoversSession(scope, SidsRead(db, scope), q, db.sessions[q])
    ensures EndsSessions(db, BulkRevoked(db, scope, now).0, ended)
  {
  }

  /** The transaction goes through exactly if no access token read for it is recorded already. */
  lemma CommitsIff(db: Db, scope: Scope, now: int, ended: set<nat>)
    requires !ReturnsEarly(scope, SidsRead(db, scope))
    requires forall j :: j in ended <==> j in db.access && CoversAccess(scope, SidsRead(db, scope), db.access[j])
    ensures BulkRevoked(db, scope, now).1 <==> NoneRecorded(db, ended)
    ensures !BulkRevoked(db, scope, now).1 ==> BulkRevoked(db, scope, now).0 == db
  {
    var live := AccessOf(db, scope, SidsRead(db, scope));
    assert Expiries(db, live).Keys == live;
    assert forall j :: j in live <==> j in ended && !db.access[j].revoked;
  }

  ghost predicate NoneRecorded(db: Db, ended: set<nat>)
    requires ended <= db.access.Keys
  {
    forall j | j in ended && !db.access[j].revoked :: j !in db.revokedJti
  }

  /** The valid sessions of the identity other than the current one. */
  function Others(db: Db, identity: nat, current: Option<nat>): set<nat> {
    set q | q in db.sessions && db.sessions[q].identityId == identity && db.sessions[q].valid && !(current.Some? && current.value == q)
  }

  function AccessWithin(db: Db, identity: nat, sids: set<nat>): set<nat> {
    set j | j in db.access && db.access[j].identityId == identity && db.access[j].sessionId in sids
  }

  function RefreshWithin(db: Db, sids: set<nat>): set<nat> {
    set k | k in db.refresh && db.refresh[k].sessionId.Some? && db.refresh[k].sessionId.value in sids
  }

  function AccessOfIdentity(db: Db, identity: nat): set<nat> { set j | j in db.access && db.access[j].identityId == identity }

  function RefreshOfIdentity(db: Db, identity: nat): set<nat> { set k | k in db.refresh && db.refresh[k].identityId == identity }

  function SessionsOfIdentity(db: Db, identity: nat): set<nat> { set q | q in db.sessions && db.sessions[q].identityId == identity }

  /** Password change. With another valid session to end, it goes through unless a token to end is recorded already,
      and then ends those sessions and their tokens. */
  lemma OtherSessionsEnd(db: Db, identity: nat, current: Option<nat>, now: int)
    requires Others(db, identity, current) != {}
    ensures var (after, ok), others := BulkRevoked(db, OtherSessions(identity, current), now), Others(db, identity, current);
      && (ok <==> NoneRecorded(db, AccessWithin(db, identity, others)))
      && (!ok ==> after == db)
      && (ok ==> EndsAccess(db, after, AccessWithin(db, identity, others)) && EndsRefresh(db, after, RefreshWithin(db, others), Some(now))
                 && EndsSessions(db, after, others))
  {
    var scope, others := OtherSessions(identity, current), Others(db, identity, current);
    assert SidsRead(db, scope) == others;
    CommitsIff(db, scope, now, AccessWithin(db, identity, others));
    if BulkRevoked(db, scope, now).1 {
      BulkAccess(db, scope, now, AccessWithin(db, identity, others));
      BulkRefresh(db, scope, now, RefreshWithin(db, others));
      BulkSessions(db, scope, now, others);
    }
  }

  /** So afterwards every session of the identity but the current one is invalid, and the current one and all
      tokens that name it are as they were. */
  lemma CurrentSessionStays(db: Db, identity: nat, current: nat, now: int)
    requires Others(db, identity, Some(current)) != {} && BulkRevoked(db, OtherSessions(identity, Some(current)), now).1
    ensures var after := BulkRevoked(db, OtherSessions(identity, Some(current)), now).0;
      && (forall q | q in db.sessions && db.sessions[q].identityId == identity && q != current :: q in after.sessions && !after.sessions[q].valid)
      && (current in db.sessions ==> current in after.sessions && after.sessions[current] == db.sessions[current])
      && (forall j | j in db.access && db.access[j].sessionId == current :: j in after.access && after.access[j] == db.access[j])
      && (forall k | k in db.refresh && db.refresh[k].sessionId == Some(current) :: k in after.refresh && after.refresh[k] == db.refresh[k])
  {
    OtherSessionsEnd(db, identity, Some(current), now);
  }

  /** Without another valid session a password change, and without any a password reset, leaves everything alone. */
  lemma NothingToEnd(db: Db, identity: nat, current: Option<nat>, now: int)
    ensures Others(db, identity, current) == {} ==> BulkRevoked(db, OtherSessions(identity, current), now) == (db, true)
    ensures Others(db, identity, None) == {} ==> BulkRevoked(db, ValidSessions(identity), now) == (db, true)
  {
    assert SidsRead(db, OtherSessions(identity, current)) == Others(db, identity, current);
    assert SidsRead(db, ValidSessions(identity)) == Others(db, identity, None);
  }

  /** One session ended: exactly that session's row and the identity's tokens that name it. */
  lemma OneSessionEnds(db: Db, identity: nat, sid: nat, now: int)
    ensures var (after, ok) := BulkRevoked(db, OneSession(identity, sid), now);
      && (ok <==> NoneRecorded(db, AccessWithin(db, identity, {sid})))
      && (!ok ==> after == db)
      && (ok ==>
            && EndsAccess(db, after, AccessWithin(db, identity, {sid}))
            && EndsRefresh(db, after, RefreshOfIdentity(db, identity) * RefreshWithin(db, {sid}), Some(now))
            && EndsSessions(db, after, SessionsOfIdentity(db, identity) * {sid}))
  {
    var scope := OneSession(identity, sid);
    CommitsIff(db, scope, now, AccessWithin(db, identity, {sid}));
    if BulkRevoked(db, scope, now).1 {
      BulkAccess(db, scope, now, AccessWithin(db, identity, {sid}));
      BulkRefresh(db, scope, now, RefreshOfIdentity(db, identity) * RefreshWithin(db, {sid}));
      BulkSessions(db, scope, now, SessionsOfIdentity(db, identity) * {sid});
    }
  }

  /** So a session that is the identity's is invalid, its tokens are revoked, and nothing of another session or of
      another identity changes. */
  lemma OneSessionIsOver(db: Db, identity: nat, sid: nat, now: int)
    requires sid in db.sessions && db.sessions[sid].identityId == identity && BulkRevoked(db, OneSession(identity, sid), now).1
    ensures var after := BulkRevoked(db, OneSession(identity, sid), now).0;
      && sid in after.sessions && !after.sessions[sid].valid
      && (forall q | q in db.sessions && q != sid :: q in after.sessions && after.sessions[q] == db.sessions[q])
      && (forall j | j in db.access ::
            && j in after.access
            && if db.access[j].identityId == identity && db.access[j].sessionId == sid then after.access[j].revoked
               else after.access[j] == db.access[j])
      && (forall k | k in db.refresh ::
            && k in after.refresh
            && if db.refresh[k].identityId == identity && db.refresh[k].sessionId == Some(sid) then after.refresh[k].revoked
               else after.refresh[k] == db.refresh[k])
  {
    OneSessionEnds(db, identity, sid, now);
  }

  /** Password reset, with a valid session to end: the identity's valid sessions, all its access tokens, and the
      refresh tokens that name one of those sessions. */
  lemma ValidSessionsEnd(db: Db, identity: nat, now: int)
    requires Others(db, identity, None) != {}
    ensures var (after, ok), sids := BulkRevoked(db, ValidSessions(identity), now), Others(db, identity, None);
      && (ok <==> NoneRecorded(db, AccessOfIdentity(db, identity)))
      && (!ok ==> after == db)
      && (ok ==> EndsAccess(db, after, AccessOfIdentity(db, identity)) && EndsRefresh(db, after, RefreshWithin(db, sids), Some(now))
                 && EndsSessions(db, after, sids))
  {
    var scope, sids := ValidSessions(identity), Others(db, identity, None);
    assert SidsRead(db, scope) == sids;
    CommitsIff(db, scope, now, AccessOfIdentity(db, identity));
    if BulkRevoked(db, scope, now).1 {
      BulkAccess(db, scope, now, AccessOfIdentity(db, identity));
      BulkRefresh(db, scope, now, RefreshWithin(db, sids));
      BulkSessions(db, scope, now, sids);
    }
  }

  /** Suspension, sign-out everywhere and account deletion: everything the identity has, with or without a date on
      the refresh tokens. */
  lemma EverythingEnds(db: Db, identity: nat, stamped: bool, now: int)
    ensures var (after, ok) := BulkRevoked(db, Everything(identity, stamped), now);
      && (ok <==> NoneRecorded(db, AccessOfIdentity(db, identity)))
      && (!ok ==> after == db)
      && (ok ==>
            && EndsAccess(db, after, AccessOfIdentity(db, identity))
            && EndsRefresh(db, after, RefreshOfIdentity(db, identity), if stamped then Some(now) else None)
            && EndsSessions(db, after, Others(db, identity, None)))
  {
    var scope := Everything(identity, stamped);
    CommitsIff(db, scope, now, AccessOfIdentity(db, identity));
    if BulkRevoked(db, scope, now).1 {
      BulkAccess(db, scope, now, AccessOfIdentity(db, identity));
      BulkRefresh(db, scope, now, RefreshOfIdentity(db, identity));
      BulkSessions(db, scope, now, Others(db, identity, None));
    }
  }

  /** So nothing of the identity's is left, and nothing of another identity changes. */
  lemma NothingIsLeft(db: Db, identity: nat, stamped: bool, now: int)
    requires BulkRevoked(db, Everything(identity, stamped), now).1
    ensures var after := BulkRevoked(db, Everything(identity, stamped), now).0;
      && (forall q | q in db.sessions ::
            && q in after.sessions
            && if db.sessions[q].identityId == identity then !after.sessions[q].valid else after.sessions[q] == db.sessions[q])
      && (forall j | j in db.access ::
            && j in after.access
            && if db.access[j].identityId == identity then after.access[j].revoked && (!db.access[j].revoked ==> j in after.revokedJti)
               else after.access[j] == db.access[j])
      && (forall k | k in db.refresh ::
            && k in after.refresh
            && if db.refresh[k].identityId == identity then after.refresh[k].revoked else after.refresh[k] == db.refresh[k])
  {
    EverythingEnds(db, identity, stamped, now);
  }

  /** After a logout that blocklisted its caller's access token, whose row stays unmarked, a bulk revocation that
      covers that token changes nothing: it returns early or its transaction aborts. */
  lemma BulkRevokeIsInertAfterLogout(db: Db, owner: Option<nat>, sid: nat, jti: nat, exp: int, now: int, scope: Scope, later: int)
    requires sid in db.sessions && Owned(owner, db.sessions[sid].identityId) && exp != 0
    requires var after := Logout(db, owner, sid, Some(jti), Some(exp), now); jti in AccessOf(after, scope, SidsRead(after, scope))
    ensures var after := Logout(db, owner, sid, Some(jti), Some(exp), now);
      && BulkRevoked(after, scope, later).0 == after
      && (BulkRevoked(after, scope, later).1 <==> ReturnsEarly(scope, SidsRead(after, scope)))
  {
    var after := Logout(db, owner, sid, Some(jti), Some(exp), now);
    assert jti in after.revokedJti;
    assert jti in Expiries(after, AccessOf(after, scope, SidsRead(after, scope))).Keys;
  }
}
