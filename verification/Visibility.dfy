/** When a cleanup can be told from its answers: courses of requests that tell each kind of deleted row, and the
    exact conditions under which none does. */
module Visibility {
  import opened Options
  import opened Tokens
  import opened BulkRevocation
  import opened CleanupJob
  import opened Evolution
  import opened Flows
  import opened Requests
  import opened Cleanup
  import Protocol

  ghost predicate SameAnswers(d: World, c: World) {
    forall events :: Answers(d, events) == Answers(c, events)
  }

  /** The same answers, access-token rows and inherited scopes apart. */
  ghost predicate SameSeen(d: World, c: World) {
    forall events :: SeenAnswers(d, events) == SeenAnswers(c, events)
  }

  // ---------------------------------------------------------------------------------------------
  // Courses of requests that are answered differently
  // ---------------------------------------------------------------------------------------------

  ghost predicate Differ(d: World, c: World, events: seq<Event>) { Answers(d, events) != Answers(c, events) }

  ghost predicate DifferSeen(d: World, c: World, events: seq<Event>) { SeenAnswers(d, events) != SeenAnswers(c, events) }

  lemma {:induction false} SeenFollows(d: World, c: World, events: seq<Event>)
    requires DifferSeen(d, c, events)
    ensures Differ(d, c, events)
    decreases |events|
  {
    if Answers(d, events) == Answers(c, events) {
      assert Answers(d, events)[0] == Answers(c, events)[0] && Answers(d, events)[1..] == Answers(c, events)[1..];
      SeenFollows(Next(d, events[0]), Next(c, events[0]), events[1..]);
    }
  }

  lemma DifferLater(d: World, c: World, q: Request, rest: seq<Event>)
    requires DifferSeen(Serve(d, q), Serve(c, q), rest)
    ensures DifferSeen(d, c, [Asked(q)] + rest)
  {
    var all := [Asked(q)] + rest;
    assert all[1..] == rest;
    assert SeenAnswers(d, all)[1..] == SeenAnswers(Serve(d, q), rest);
    assert SeenAnswers(c, all)[1..] == SeenAnswers(Serve(c, q), rest);
  }

  lemma DifferNow(d: World, c: World, q: Request)
    requires Seen(q, Answer(d, q)) != Seen(q, Answer(c, q))
    ensures DifferSeen(d, c, [Asked(q)])
  {
    assert SeenAnswers(d, [Asked(q)])[0] == Seen(q, Answer(d, q));
    assert SeenAnswers(c, [Asked(q)])[0] == Seen(q, Answer(c, q));
  }

  lemma DifferThen(d: World, c: World, first: Request, q: Request)
    requires Answer(Serve(d, first), q) != Answer(Serve(c, first), q)
    ensures Differ(d, c, [Asked(first), Asked(q)])
  {
    var all := [Asked(first), Asked(q)];
    assert all[1..] == [Asked(q)];
    assert Answers(d, all)[1..] == Answers(Serve(d, first), [Asked(q)]);
    assert Answers(c, all)[1..] == Answers(Serve(c, first), [Asked(q)]);
    assert Answers(Serve(d, first), [Asked(q)])[0] == Answer(Serve(d, first), q);
    assert Answers(Serve(c, first), [Asked(q)])[0] == Answer(Serve(c, first), q);
  }

  // ---------------------------------------------------------------------------------------------
  // A fresh login
  // ---------------------------------------------------------------------------------------------

  function FreshLogin(identity: nat, client: nat, now: int): Request { LoginAs(identity, client, Aal1, now, {}) }

  /** The tables after it. */
  function FreshlyIn(db: Db, identity: nat, client: nat, now: int): Db { Login(db, identity, client, Aal1, now, now) }

  lemma LoginServes(w: World, identity: nat, client: nat)
    requires CanIssue(w.db, identity, client)
    ensures Serve(w, FreshLogin(identity, client, w.now)) == World(FreshlyIn(w.db, identity, client, w.now), w.now)
  {
    assert Protocol.Evict(w.db, identity, {}).sessions == w.db.sessions;
    assert Protocol.Evict(w.db, identity, {}) == w.db;
  }

  /** The token got, and nothing else touched. */
  ghost predicate GotToken(db: Db, r: Db, identity: nat, client: nat, now: int) {
    var jti := db.nextId + 1;
    && GuardAccepts(r, jti, User, now) && r.jwts[jti].sub == identity && r.jwts[jti].exp != 0
    && jti in LiveAccess(r, identity, client, now) && r.access.Keys == db.access.Keys + {jti}
    && (forall j | j in db.access :: r.access[j] == db.access[j])
    && (forall k | k != jti + 1 :: (k in r.refresh <==> k in db.refresh) && (k in db.refresh ==> r.refresh[k] == db.refresh[k]))
    && (forall q | q != db.nextId :: (q in r.sessions <==> q in db.sessions) && (q in db.sessions ==> r.sessions[q] == db.sessions[q]))
  }

  /** What a login needs to find. */
  ghost predicate Ready(db: Db, now: int) {
    Drawn(db) && 0 <= now && db.config.accessTtl > 0 && forall j | j in db.revokedJti :: j < db.nextId
  }

  lemma CleanIsReady(w: World)
    requires Sound(w.db, w.now) && w.db.config.accessTtl > 0
    ensures Ready(w.db, w.now) && Ready(Clean(w).db, w.now)
  {
  }

  lemma LoginGivesToken(db: Db, identity: nat, client: nat, now: int)
    requires Ready(db, now)
    ensures GotToken(db, FreshlyIn(db, identity, client, now), identity, client, now)
  {
  }

  lemma DifferAfterLogin(d: Db, c: Db, identity: nat, client: nat, now: int, rest: seq<Event>)
    requires CanIssue(d, identity, client) && CanIssue(c, identity, client)
    requires DifferSeen(World(FreshlyIn(d, identity, client, now), now), World(FreshlyIn(c, identity, client, now), now), rest)
    ensures DifferSeen(World(d, now), World(c, now), [Asked(FreshLogin(identity, client, now))] + rest)
  {
    LoginServes(World(d, now), identity, client);
    LoginServes(World(c, now), identity, client);
    DifferLater(World(d, now), World(c, now), FreshLogin(identity, client, now), rest);
  }

  // ---------------------------------------------------------------------------------------------
  // A deleted refresh token
  // ---------------------------------------------------------------------------------------------

  lemma KilledByReplay(db: Db, k: nat, jti: nat, now: int)
    requires k in db.refresh && k !in db.access
    requires jti in LiveAccess(db, db.refresh[k].identityId, db.refresh[k].clientId, now)
    ensures jti in Refresh(Revoke(db, k, None), k, now).0.revokedJti
  {
    var r := Revoke(db, k, None);
    assert r.access == db.access && r.refresh[k] == RevokeRow(db.refresh[k], None);
    KillChainKills(r, k, now);
  }

  lemma NothingToRevoke(db: Db, k: nat, now: int)
    requires k !in db.refresh && k !in db.access
    ensures Refresh(Revoke(db, k, None), k, now).0 == db
  {
  }

  function ReplayRun(k: nat, jti: nat): seq<Event> {
    [Asked(RevokeToken(k, None))] + ([Asked(RefreshWith(k))] + [Asked(Guarded(jti, User))])
  }

  lemma ReplayTells(d: World, c: World, k: nat, jti: nat)
    requires k in d.db.refresh && k !in d.db.access && k !in c.db.refresh && k !in c.db.access && d.now == c.now
    requires jti in LiveAccess(d.db, d.db.refresh[k].identityId, d.db.refresh[k].clientId, d.now)
    requires GuardAccepts(c.db, jti, User, c.now)
    ensures DifferSeen(d, c, ReplayRun(k, jti))
  {
    KilledByReplay(d.db, k, jti, d.now);
    NothingToRevoke(c.db, k, c.now);
    var d1, c1 := World(Revoke(d.db, k, None), d.now), World(Revoke(c.db, k, None), c.now);
    var d2, c2 := World(Refresh(d1.db, k, d.now).0, d.now), World(Refresh(c1.db, k, c.now).0, c.now);
    DifferNow(d2, c2, Guarded(jti, User));
    DifferLater(d1, c1, RefreshWith(k), [Asked(Guarded(jti, User))]);
    DifferLater(d, c, RevokeToken(k, None), [Asked(RefreshWith(k))] + [Asked(Guarded(jti, User))]);
  }

  /** After the same login on both sides, on tables of which only `d` knows the token. */
  lemma MissingRefreshTells(d: Db, d1: Db, c: Db, c1: Db, k: nat, now: int)
    requires k in d.refresh && k < d.nextId && k !in d.access && k !in c.refresh && k !in c.access && d.nextId == c.nextId
    requires GotToken(d, d1, d.refresh[k].identityId, d.refresh[k].clientId, now)
    requires GotToken(c, c1, d.refresh[k].identityId, d.refresh[k].clientId, now)
    ensures DifferSeen(World(d1, now), World(c1, now), ReplayRun(k, d.nextId + 1))
  {
    ReplayTells(World(d1, now), World(c1, now), k, d.nextId + 1);
  }

  lemma LoginTellsRefresh(d: Db, c: Db, k: nat, now: int)
    requires Ready(d, now) && Ready(c, now) && d.nextId == c.nextId
    requires k in d.refresh && k !in d.access && k !in c.refresh && k !in c.access
    ensures var r := d.refresh[k];
      DifferSeen(World(FreshlyIn(d, r.identityId, r.clientId, now), now), World(FreshlyIn(c, r.identityId, r.clientId, now), now),
                 ReplayRun(k, d.nextId + 1))
  {
    var r := d.refresh[k];
    LoginGivesToken(d, r.identityId, r.clientId, now);
    LoginGivesToken(c, r.identityId, r.clientId, now);
    MissingRefreshTells(d, FreshlyIn(d, r.identityId, r.clientId, now), c, FreshlyIn(c, r.identityId, r.clientId, now), k, now);
  }

  lemma MissingRefreshShows(d: Db, c: Db, k: nat, now: int) returns (events: seq<Event>)
    requires Ready(d, now) && Ready(c, now) && d.nextId == c.nextId
    requires k in d.refresh && k !in d.access && k !in c.refresh && k !in c.access
    requires CanIssue(d, d.refresh[k].identityId, d.refresh[k].clientId) && CanIssue(c, d.refresh[k].identityId, d.refresh[k].clientId)
    ensures DifferSeen(World(d, now), World(c, now), events)
  {
    events := [Asked(FreshLogin(d.refresh[k].identityId, d.refresh[k].clientId, now))] + ReplayRun(k, d.nextId + 1);
    LoginTellsRefresh(d, c, k, now);
    DifferAfterLogin(d, c, d.refresh[k].identityId, d.refresh[k].clientId, now, ReplayRun(k, d.nextId + 1));
  }

  lemma OldRefreshGoes(w: World, k: nat)
    requires Sound(w.db, w.now) && k in w.db.refresh && RefreshIsOld(w.db.refresh[k], w.now)
    ensures k !in w.db.access && k !in Clean(w).db.refresh && k !in Clean(w).db.access && Clean(w).db.nextId == w.db.nextId
    ensures CanIssue(w.db, w.db.refresh[k].identityId, w.db.refresh[k].clientId)
    ensures CanIssue(Clean(w).db, w.db.refresh[k].identityId, w.db.refresh[k].clientId)
  {
  }

  /** A deleted refresh-token row shows: log in, revoke that token and present it. The untouched tables
      answer with a kill-chain that blocks the new access token; the cleaned ones know nothing of it. */
  lemma DeletedRefreshShows(w: World, k: nat) returns (events: seq<Event>)
    requires Sound(w.db, w.now) && w.db.config.accessTtl > 0
    requires k in w.db.refresh && RefreshIsOld(w.db.refresh[k], w.now)
    ensures DifferSeen(w, Clean(w), events)
  {
    CleanIsReady(w);
    OldRefreshGoes(w, k);
    events := MissingRefreshShows(w.db, Clean(w).db, k, w.now);
  }

  // ---------------------------------------------------------------------------------------------
  // A deleted session
  // ---------------------------------------------------------------------------------------------

  lemma LogoutRecords(w: World, jti: nat, sid: nat)
    requires GuardAccepts(w.db, jti, User, w.now) && w.db.jwts[jti].exp != 0
    ensures GuardAccepts(Serve(w, LogoutOf(jti, sid)).db, jti, User, w.now)
        <==> !(sid in w.db.sessions && w.db.sessions[sid].identityId == w.db.jwts[jti].sub)
    ensures Serve(w, LogoutOf(jti, sid)).now == w.now
  {
  }

  function LogoutRun(jti: nat, sid: nat): seq<Event> { [Asked(LogoutOf(jti, sid))] + [Asked(Guarded(jti, User))] }

  lemma LogoutTells(d: World, c: World, jti: nat, sid: nat)
    requires GuardAccepts(d.db, jti, User, d.now) && d.db.jwts[jti].exp != 0
    requires GuardAccepts(c.db, jti, User, c.now) && c.db.jwts[jti].exp != 0
    requires sid in d.db.sessions && d.db.sessions[sid].identityId == d.db.jwts[jti].sub && sid !in c.db.sessions
    ensures DifferSeen(d, c, LogoutRun(jti, sid))
  {
    LogoutRecords(d, jti, sid);
    LogoutRecords(c, jti, sid);
    DifferNow(Serve(d, LogoutOf(jti, sid)), Serve(c, LogoutOf(jti, sid)), Guarded(jti, User));
    DifferLater(d, c, LogoutOf(jti, sid), [Asked(Guarded(jti, User))]);
  }

  lemma MissingSessionTells(d: Db, d1: Db, c: Db, c1: Db, client: nat, sid: nat, now: int)
    requires sid in d.sessions && sid < d.nextId && sid !in c.sessions && d.nextId == c.nextId
    requires GotToken(d, d1, d.sessions[sid].identityId, client, now) && GotToken(c, c1, d.sessions[sid].identityId, client, now)
    ensures DifferSeen(World(d1, now), World(c1, now), LogoutRun(d.nextId + 1, sid))
  {
    LogoutTells(World(d1, now), World(c1, now), d.nextId + 1, sid);
  }

  lemma LoginTellsSession(d: Db, c: Db, client: nat, sid: nat, now: int)
    requires Ready(d, now) && Ready(c, now) && d.nextId == c.nextId && sid in d.sessions && sid !in c.sessions
    ensures var identity := d.sessions[sid].identityId;
      DifferSeen(World(FreshlyIn(d, identity, client, now), now), World(FreshlyIn(c, identity, client, now), now), LogoutRun(d.nextId + 1, sid))
  {
    var identity := d.sessions[sid].identityId;
    LoginGivesToken(d, identity, client, now);
    LoginGivesToken(c, identity, client, now);
    MissingSessionTells(d, FreshlyIn(d, identity, client, now), c, FreshlyIn(c, identity, client, now), client, sid, now);
  }

  lemma LoginThenLogoutTells(d: Db, c: Db, client: nat, sid: nat, now: int) returns (events: seq<Event>)
    requires Ready(d, now) && Ready(c, now) && d.nextId == c.nextId && sid in d.sessions && sid !in c.sessions
    requires CanIssue(d, d.sessions[sid].identityId, client) && CanIssue(c, d.sessions[sid].identityId, client)
    ensures DifferSeen(World(d, now), World(c, now), events)
  {
    events := [Asked(FreshLogin(d.sessions[sid].identityId, client, now))] + LogoutRun(d.nextId + 1, sid);
    LoginTellsSession(d, c, client, sid, now);
    DifferAfterLogin(d, c, d.sessions[sid].identityId, client, now, LogoutRun(d.nextId + 1, sid));
  }

  /** A client more. */
  function Registered(db: Db): Db { db.(clients := db.clients[db.nextId := {}], nextId := db.nextId + 1) }

  lemma RegistrationIsReady(db: Db, now: int)
    requires Ready(db, now)
    ensures Ready(Registered(db), now)
  {
  }

  lemma RegistrationServes(w: World)
    ensures Serve(w, Account(Protocol.AddClient({}))) == World(Registered(w.db), w.now)
  {
  }

  lemma DifferAfterRegistration(d: Db, c: Db, now: int, rest: seq<Event>)
    requires DifferSeen(World(Registered(d), now), World(Registered(c), now), rest)
    ensures DifferSeen(World(d, now), World(c, now), [Asked(Account(Protocol.AddClient({})))] + rest)
  {
    RegistrationServes(World(d, now));
    RegistrationServes(World(c, now));
    DifferLater(World(d, now), World(c, now), Account(Protocol.AddClient({})), rest);
  }

  lemma MissingSessionShows(d: Db, c: Db, sid: nat, now: int) returns (events: seq<Event>)
    requires Ready(d, now) && Ready(c, now) && d.nextId == c.nextId && sid in d.sessions && sid !in c.sessions
    requires d.sessions[sid].identityId in d.identities && d.sessions[sid].identityId in c.identities
    ensures DifferSeen(World(d, now), World(c, now), events)
  {
    RegistrationIsReady(d, now);
    RegistrationIsReady(c, now);
    var rest := LoginThenLogoutTells(Registered(d), Registered(c), d.nextId, sid, now);
    DifferAfterRegistration(d, c, now, rest);
    events := [Asked(Account(Protocol.AddClient({})))] + rest;
  }

  /** A deleted session row shows: register a client, log in through it as the session's owner, then log out naming
      that session. The untouched tables find it and block the caller's access token; the cleaned ones find nothing. */
  lemma DeletedSessionShows(w: World, sid: nat) returns (events: seq<Event>)
    requires Sound(w.db, w.now) && w.db.config.accessTtl > 0
    requires sid in w.db.sessions && SessionIsOld(w.db.sessions[sid], w.now)
    ensures DifferSeen(w, Clean(w), events)
  {
    CleanIsReady(w);
    assert Clean(w).db.identities == w.db.identities && Clean(w).db.nextId == w.db.nextId;
    events := MissingSessionShows(w.db, Clean(w).db, sid, w.now);
  }

  // ---------------------------------------------------------------------------------------------
  // A deleted access token
  // ---------------------------------------------------------------------------------------------

  lemma FoundById(w: World, jti: nat, key: nat)
    requires GuardAccepts(w.db, jti, User, w.now) && (key in w.db.access ==> w.db.access[key].identityId == w.db.jwts[jti].sub)
    ensures Answer(w, RevokeById(jti, key)) == Allow(key in w.db.access)
  {
  }

  lemma MissingAccessTells(d: Db, d1: Db, c: Db, c1: Db, key: nat, now: int)
    requires key in d.access && key < d.nextId && key !in c.access && d.nextId == c.nextId
    requires GotToken(d, d1, d.access[key].identityId, d.access[key].clientId, now)
    requires GotToken(c, c1, d.access[key].identityId, d.access[key].clientId, now)
    ensures Answer(World(d1, now), RevokeById(d.nextId + 1, key)) != Answer(World(c1, now), RevokeById(d.nextId + 1, key))
  {
    FoundById(World(d1, now), d.nextId + 1, key);
    FoundById(World(c1, now), d.nextId + 1, key);
  }

  lemma DifferThenLogin(d: Db, c: Db, identity: nat, client: nat, now: int, q: Request)
    requires CanIssue(d, identity, client) && CanIssue(c, identity, client)
    requires Answer(World(FreshlyIn(d, identity, client, now), now), q) != Answer(World(FreshlyIn(c, identity, client, now), now), q)
    ensures Differ(World(d, now), World(c, now), [Asked(FreshLogin(identity, client, now)), Asked(q)])
  {
    LoginServes(World(d, now), identity, client);
    LoginServes(World(c, now), identity, client);
    DifferThen(World(d, now), World(c, now), FreshLogin(identity, client, now), q);
  }

  lemma LoginTellsAccess(d: Db, c: Db, key: nat, now: int)
    requires Ready(d, now) && Ready(c, now) && d.nextId == c.nextId && key in d.access && key !in c.access
    ensures var r, q := d.access[key], RevokeById(d.nextId + 1, key);
      Answer(World(FreshlyIn(d, r.identityId, r.clientId, now), now), q) != Answer(World(FreshlyIn(c, r.identityId, r.clientId, now), now), q)
  {
    var r := d.access[key];
    LoginGivesToken(d, r.identityId, r.clientId, now);
    LoginGivesToken(c, r.identityId, r.clientId, now);
    MissingAccessTells(d, FreshlyIn(d, r.identityId, r.clientId, now), c, FreshlyIn(c, r.identityId, r.clientId, now), key, now);
  }

  lemma MissingAccessShows(d: Db, c: Db, key: nat, now: int) returns (events: seq<Event>)
    requires Ready(d, now) && Ready(c, now) && d.nextId == c.nextId && key in d.access && key !in c.access
    requires CanIssue(d, d.access[key].identityId, d.access[key].clientId) && CanIssue(c, d.access[key].identityId, d.access[key].clientId)
    ensures Differ(World(d, now), World(c, now), events)
  {
    events := [Asked(FreshLogin(d.access[key].identityId, d.access[key].clientId, now)), Asked(RevokeById(d.nextId + 1, key))];
    LoginTellsAccess(d, c, key, now);
    DifferThenLogin(d, c, d.access[key].identityId, d.access[key].clientId, now, RevokeById(d.nextId + 1, key));
  }

  lemma OldAccessGoes(w: World, key: nat)
    requires Sound(w.db, w.now) && key in w.db.access && AccessIsOld(w.db.access[key], w.now)
    ensures key !in Clean(w).db.access && Clean(w).db.nextId == w.db.nextId
    ensures CanIssue(w.db, w.db.access[key].identityId, w.db.access[key].clientId)
    ensures CanIssue(Clean(w).db, w.db.access[key].identityId, w.db.access[key].clientId)
  {
  }

  /** A deleted access-token row shows: log in as its owner and revoke it by id. The untouched tables find it;
      in the cleaned ones it is not found. */
  lemma DeletedAccessShows(w: World, key: nat) returns (events: seq<Event>)
    requires Sound(w.db, w.now) && w.db.config.accessTtl > 0
    requires key in w.db.access && AccessIsOld(w.db.access[key], w.now)
    ensures Differ(w, Clean(w), events)
  {
    CleanIsReady(w);
    OldAccessGoes(w, key);
    events := MissingAccessShows(w.db, Clean(w).db, key, w.now);
  }

  // ---------------------------------------------------------------------------------------------
  // A deleted RevokedJti row
  // ---------------------------------------------------------------------------------------------

  lemma RevokedBlocksNoMore(db: Db, identity: nat, x: nat)
    requires x in Blockers(db, Everything(identity, false))
    ensures Blockers(Revoke(db, x, None), Everything(identity, false)) == Blockers(db, Everything(identity, false)) - {x}
  {
  }

  lemma OtherBlockerStays(db: Db, identity: nat, x: nat, j: nat)
    requires j in Blockers(db, Everything(identity, false)) && x != j
    ensures j in Blockers(Revoke(db, x, None), Everything(identity, false))
  {
  }

  lemma AbortShows(d: World, c: World, scope: Scope)
    requires scope.Everything? && Blockers(d.db, scope) != {} && Blockers(c.db, scope) == {}
    ensures DifferSeen(d, c, [Asked(Bulk(scope))])
  {
    BlockersDecide(d.db, scope, d.now);
    BlockersDecide(c.db, scope, c.now);
    DifferNow(d, c, Bulk(scope));
  }

  lemma DifferAfterRevoke(d: World, c: World, x: nat, rest: seq<Event>)
    requires DifferSeen(World(Revoke(d.db, x, None), d.now), World(Revoke(c.db, x, None), c.now), rest)
    ensures DifferSeen(d, c, [Asked(RevokeToken(x, None))] + rest)
  {
    DifferLater(d, c, RevokeToken(x, None), rest);
  }

  /** If `d` has a blocker that `c` does not have, revoke the tokens of c's blockers one by one: bulk revocation
      then goes through on `c` and still aborts on `d`. */
  lemma BlockerShows(d: World, c: World, identity: nat, j: nat) returns (events: seq<Event>)
    requires j in Blockers(d.db, Everything(identity, false)) && j !in Blockers(c.db, Everything(identity, false))
    ensures DifferSeen(d, c, events)
    decreases |Blockers(c.db, Everything(identity, false))|
  {
    if x :| x in Blockers(c.db, Everything(identity, false)) {
      RevokedBlocksNoMore(c.db, identity, x);
      OtherBlockerStays(d.db, identity, x, j);
      var rest := BlockerShows(World(Revoke(d.db, x, None), d.now), World(Revoke(c.db, x, None), c.now), identity, j);
      DifferAfterRevoke(d, c, x, rest);
      events := [Asked(RevokeToken(x, None))] + rest;
    } else {
      AbortShows(d, c, Everything(identity, false));
      events := [Asked(Bulk(Everything(identity, false)))];
    }
  }

  /** A deleted RevokedJti row whose access token is unrevoked shows: without the cleanup a bulk revocation aborts
      on it, with the cleanup it goes through. */
  lemma DeletedBlockerShows(w: World, j: nat) returns (events: seq<Event>)
    requires j in w.db.revokedJti && w.db.revokedJti[j] < w.now && j in w.db.access && !w.db.access[j].revoked
    ensures DifferSeen(w, Clean(w), events)
  {
    events := BlockerShows(w, Clean(w), w.db.access[j].identityId, j);
  }

  // ---------------------------------------------------------------------------------------------
  // The conditions
  // ---------------------------------------------------------------------------------------------

  lemma SeenIff(w: World)
    requires Sound(w.db, w.now) && w.db.config.accessTtl > 0
    ensures SameSeen(w, Clean(w)) <==>
      Clean(w).db.refresh == w.db.refresh && Clean(w).db.sessions == w.db.sessions && !SweepsBlocker(w)
  {
    if Clean(w).db.refresh != w.db.refresh {
      var k :| k in w.db.refresh && RefreshIsOld(w.db.refresh[k], w.now);
      var qs := DeletedRefreshShows(w, k);
    } else if Clean(w).db.sessions != w.db.sessions {
      var sid :| sid in w.db.sessions && SessionIsOld(w.db.sessions[sid], w.now);
      var qs := DeletedSessionShows(w, sid);
    } else if SweepsBlocker(w) {
      var j :| j in w.db.revokedJti && w.db.revokedJti[j] < w.now && j in w.db.access && !w.db.access[j].revoked;
      var qs := DeletedBlockerShows(w, j);
    } else {
      CleaningIsAlike(w);
      forall qs ensures SeenAnswers(w, qs) == SeenAnswers(Clean(w), qs) {
        AlikeAnswerAlike(w, Clean(w), Clean(w).db.access == w.db.access, qs);
      }
    }
  }

  lemma AnsweredIff(w: World)
    requires Sound(w.db, w.now) && w.db.config.accessTtl > 0
    ensures SameAnswers(w, Clean(w)) <==> SameSeen(w, Clean(w)) && Clean(w).db.access == w.db.access
  {
    SeenIff(w);
    if !SameSeen(w, Clean(w)) {
      var qs :| SeenAnswers(w, qs) != SeenAnswers(Clean(w), qs);
      SeenFollows(w, Clean(w), qs);
    } else if Clean(w).db.access != w.db.access {
      var j :| j in w.db.access && AccessIsOld(w.db.access[j], w.now);
      var qs := DeletedAccessShows(w, j);
    } else {
      CleaningIsAlike(w);
      forall qs ensures Answers(w, qs) == Answers(Clean(w), qs) {
        AlikeAnswerAlike(w, Clean(w), true, qs);
      }
    }
  }

  /** In every state that requests and cleanups lead to, a cleanup leaves all answers to every later course of
      requests and cleanups as they would have been if and only if it deletes no access token, no refresh token, no
      session, and no RevokedJti row whose access token was left unrevoked. */
  lemma CleanupIsInvisibleIff(start: World, events: seq<Event>)
    requires Empty(start) && Play(start, events).db.config.accessTtl > 0
    ensures var w := Play(start, events);
      SameAnswers(w, Clean(w)) <==>
        && Clean(w).db.access == w.db.access && Clean(w).db.refresh == w.db.refresh
        && Clean(w).db.sessions == w.db.sessions && !SweepsBlocker(w)
  {
    PlayIsSound(start, events);
    SeenIff(Play(start, events));
    AnsweredIff(Play(start, events));
  }

  /** Deleted access tokens alone change no answer but those of revocation by id and of guards that ask for a
      scope, and in tokens that are handed out nothing but their scopes: everything else is as it would have been
      if and only if no refresh token, no session and no RevokedJti row of an unrevoked access token is deleted. */
  lemma UnseenApartFromAccessIff(start: World, events: seq<Event>)
    requires Empty(start) && Play(start, events).db.config.accessTtl > 0
    ensures var w := Play(start, events);
      SameSeen(w, Clean(w)) <==>
        Clean(w).db.refresh == w.db.refresh && Clean(w).db.sessions == w.db.sessions && !SweepsBlocker(w)
  {
    PlayIsSound(start, events);
    SeenIff(Play(start, events));
  }

  // ---------------------------------------------------------------------------------------------
  // How such states come about
  // ---------------------------------------------------------------------------------------------

  lemma PlayMore(w: World, events: seq<Event>, e: Event)
    ensures Play(w, events + [e]) == Next(Play(w, events), e)
  {
    assert (events + [e])[..|events|] == events;
  }

  lemma PlayThree(w: World, a: Request, b: Request, c: Request)
    ensures Play(w, [Asked(a), Asked(b), Asked(c)]) == Serve(Serve(Serve(w, a), b), c)
  {
    PlayMore(w, [], Asked(a));
    PlayMore(w, [] + [Asked(a)], Asked(b));
    PlayMore(w, [] + [Asked(a)] + [Asked(b)], Asked(c));
    assert [Asked(a), Asked(b), Asked(c)] == [] + [Asked(a)] + [Asked(b)] + [Asked(c)];
  }

  /** One identity and two clients. */
  function Bare(): World {
    World(Db(map[], map[], map[], map[], map[], map[], map[7 := Active], map[8 := {0, 1, 2, 3}, 9 := {0, 1, 2, 3, 4}],
             Config(900_000, 604_800_000), 10), 0)
  }

  /** The world after identity 7 has signed in. */
  lemma AfterLogin(expiresAt: int)
    ensures var w := Serve(Bare(), LoginAs(7, 8, Aal1, expiresAt, {}));
      && w == World(w.db.(identities := Bare().db.identities, clients := Bare().db.clients, config := Bare().db.config, nextId := 14), 0)
      && w.db.jwts == map[11 := Jwt(7, 10, Some(Aal1), 900_000)] && w.db.revokedJti == map[]
      && w.db.access == map[11 := AccessRow(8, 7, 10, 0, 900_000, false)] && w.db.scopes == map[11 := DEFAULT_SCOPES]
      && w.db.refresh == map[12 := RefreshRow(13, None, 8, 7, Some(10), 0, 604_800_000, None, false)]
      && w.db.sessions == map[10 := SessionRow(7, Some(12), true, expiresAt, Some(Aal1), None)]
  {
    assert Protocol.Evict(Bare().db, 7, {}) == Bare().db;
  }

  lemma AfterLogout(w: World)
    requires w.now == 0 && w.db.jwts == map[11 := Jwt(7, 10, Some(Aal1), 900_000)] && w.db.revokedJti == map[]
    requires w.db.sessions == map[10 := SessionRow(7, Some(12), true, 604_800_000, Some(Aal1), None)]
    requires w.db.refresh == map[12 := RefreshRow(13, None, 8, 7, Some(10), 0, 604_800_000, None, false)]
    ensures var r := Serve(w, LogoutOf(11, 10));
      && r.now == 0 && r.db.access == w.db.access && r.db.revokedJti == map[11 := 900_000]
      && r.db.refresh.Keys == {12} && r.db.refresh[12].issuedAt == 0 && r.db.refresh[12].expiresAt == 604_800_000
      && r.db.sessions.Keys == {10} && r.db.sessions[10].expiresAt == 604_800_000
  {
  }

  /** A login, a logout, and the token's expiry lead to a RevokedJti row whose access token is unrevoked; the
      cleanup that follows deletes it and no token or session. */
  lemma BlockerIsReached() returns (events: seq<Event>)
    ensures Empty(Bare())
    ensures var w := Play(Bare(), events);
      && SweepsBlocker(w) && Clean(w).db.refresh == w.db.refresh && Clean(w).db.sessions == w.db.sessions
      && Clean(w).db.access == w.db.access
  {
    var login, logout, wait := LoginAs(7, 8, Aal1, 604_800_000, {}), LogoutOf(11, 10), Wait(900_001);
    events := [Asked(login), Asked(logout), Asked(wait)];
    PlayThree(Bare(), login, logout, wait);
    AfterLogin(604_800_000);
    AfterLogout(Serve(Bare(), login));
    var w := Serve(Serve(Serve(Bare(), login), logout), wait);
    assert 11 in w.db.revokedJti && 11 in w.db.access && !w.db.access[11].revoked;
  }

  /** A login and a week and a millisecond after its access token's expiry lead to a cleanup that deletes the
      access token and nothing else. */
  lemma AccessRowIsReached() returns (events: seq<Event>)
    ensures var w := Play(Bare(), events);
      11 in w.db.access && Clean(w).db == w.db.(access := map[])
  {
    var login, wait := LoginAs(7, 8, Aal1, 604_800_000, {}), Wait(605_700_001);
    PlayMore(Bare(), [], Asked(login));
    PlayMore(Bare(), [] + [Asked(login)], Asked(wait));
    events := [] + [Asked(login)] + [Asked(wait)];
    AfterLogin(604_800_000);
    var w := Serve(Serve(Bare(), login), wait);
    assert Clean(w).db.access == map[] && Clean(w).db.revokedJti == map[];
    assert Clean(w).db.refresh == w.db.refresh && Clean(w).db.sessions == w.db.sessions;
  }

  const DAY_MS := 86_400_000

  /** A code exchanged through client 9 for two of its scopes. */
  const NARROW := ExchangeCode(7, 9, {0, 3})

  /** The world after a login and two such exchanges, six days apart. */
  ghost predicate TwoNarrowed(w: World) {
    && w.now == 6 * DAY_MS && w.db.nextId == 20 && w.db.config == Bare().db.config
    && w.db.identities == Bare().db.identities && w.db.clients == Bare().db.clients
    && w.db.revokedJti == map[] && w.db.scopes == map[11 := DEFAULT_SCOPES, 14 := {0, 3}, 17 := {0, 3}]
    && w.db.access == map[11 := AccessRow(8, 7, 10, 0, 900_000, false), 14 := AccessRow(9, 7, 10, 0, 900_000, false),
                          17 := AccessRow(9, 7, 10, 6 * DAY_MS, 6 * DAY_MS + 900_000, false)]
    && w.db.sessions == map[10 := SessionRow(7, Some(18), true, 30 * DAY_MS, Some(Aal1), None)]
    && w.db.refresh == map[12 := RefreshRow(13, None, 8, 7, Some(10), 0, 7 * DAY_MS, None, false),
                           15 := RefreshRow(16, None, 9, 7, Some(10), 0, 7 * DAY_MS, None, false),
                           18 := RefreshRow(19, None, 9, 7, Some(10), 6 * DAY_MS, 13 * DAY_MS, None, false)]
  }

  /** What an exchange adds. */
  lemma NarrowAdds(w: World)
    requires 10 in w.db.sessions && ValidOf(w.db, 7) == {10} && w.db.sessions[10].identityId == 7 && w.db.sessions[10].level == Some(Aal1)
    requires CanIssue(w.db, 7, 9)
    ensures Serve(w, NARROW) == w.(db := Issue(w.db, Grant(7, 9, 10, Some(Aal1), None, {0, 3}), w.now))
  {
    assert Youngest(ValidOf(w.db, 7)) == Some(10);
  }

  lemma NarrowTwice(w: World)
    requires w == Serve(Bare(), LoginAs(7, 8, Aal1, 30 * DAY_MS, {}))
    ensures TwoNarrowed(Serve(Serve(Serve(w, NARROW), Wait(6 * DAY_MS)), NARROW))
  {
    AfterLogin(30 * DAY_MS);
    NarrowAdds(w);
    NarrowAdds(Serve(Serve(w, NARROW), Wait(6 * DAY_MS)));
  }

  /** Two days after the second exchange, whose access token has been revoked. */
  ghost predicate SecondRevoked(w: World) {
    && w.now == 8 * DAY_MS && w.db.nextId == 20 && w.db.config == Bare().db.config
    && w.db.identities == Bare().db.identities && w.db.clients == Bare().db.clients
    && w.db.revokedJti == map[17 := 6 * DAY_MS + 900_000]
    && w.db.scopes == map[11 := DEFAULT_SCOPES, 14 := {0, 3}, 17 := {0, 3}]
    && w.db.access == map[11 := AccessRow(8, 7, 10, 0, 900_000, false), 14 := AccessRow(9, 7, 10, 0, 900_000, false),
                          17 := AccessRow(9, 7, 10, 6 * DAY_MS, 6 * DAY_MS + 900_000, true)]
    && w.db.sessions == map[10 := SessionRow(7, Some(18), true, 30 * DAY_MS, Some(Aal1), None)]
    && w.db.refresh == map[12 := RefreshRow(13, None, 8, 7, Some(10), 0, 7 * DAY_MS, None, false),
                           15 := RefreshRow(16, None, 9, 7, Some(10), 0, 7 * DAY_MS, None, false),
                           18 := RefreshRow(19, None, 9, 7, Some(10), 6 * DAY_MS, 13 * DAY_MS, None, false)]
  }

  lemma RevokeSecond(w: World)
    requires TwoNarrowed(w)
    ensures SecondRevoked(Serve(Serve(w, RevokeToken(17, Some(7))), Wait(2 * DAY_MS)))
  {
  }

  lemma SecondIsRevoked() returns (events: seq<Event>)
    ensures SecondRevoked(Play(Bare(), events))
  {
    var first := [Asked(LoginAs(7, 8, Aal1, 30 * DAY_MS, {})), Asked(NARROW), Asked(Wait(6 * DAY_MS))];
    var login := Serve(Bare(), LoginAs(7, 8, Aal1, 30 * DAY_MS, {}));
    var w := Serve(Serve(Serve(login, NARROW), Wait(6 * DAY_MS)), NARROW);
    PlayThree(Bare(), LoginAs(7, 8, Aal1, 30 * DAY_MS, {}), NARROW, Wait(6 * DAY_MS));
    NarrowTwice(login);
    RevokeSecond(w);
    PlayMore(Bare(), first, Asked(NARROW));
    PlayMore(Bare(), first + [Asked(NARROW)], Asked(RevokeToken(17, Some(7))));
    events := first + [Asked(NARROW)] + [Asked(RevokeToken(17, Some(7)))] + [Asked(Wait(2 * DAY_MS))];
    PlayMore(Bare(), first + [Asked(NARROW)] + [Asked(RevokeToken(17, Some(7)))], Asked(Wait(2 * DAY_MS)));
  }

  /** Cleanup takes the first exchange's access token, the newest that is unrevoked. */
  lemma FirstGoes(w: World)
    requires SecondRevoked(w)
    ensures var c := Clean(w).db;
      && c.refresh == w.db.refresh && c.sessions == w.db.sessions && c.nextId == 20 && c.clients == w.db.clients
      && c.identities == w.db.identities && c.config == w.db.config && 20 !in c.revokedJti
      && UnrevokedOf(w.db.access, 7, 9) == {14} && UnrevokedOf(c.access, 7, 9) == {}
    ensures !SweepsBlocker(w)
  {
  }

  /** The refresh that follows, whatever scopes it inherits. */
  lemma RefreshPassesOn(db: Db, scopes: set<nat>)
    requires db.refresh.Keys == {12, 15, 18} && db.refresh[18] == RefreshRow(19, None, 9, 7, Some(10), 6 * DAY_MS, 13 * DAY_MS, None, false)
    requires db.nextId == 20 && db.config.accessTtl > 0 && 7 in db.identities && db.identities[7].Active? && 9 in db.clients
    requires 10 in db.sessions && db.sessions[10].level == Some(Aal1) && 20 !in db.revokedJti
    requires InheritedScopes(db, 7, 9) == scopes
    ensures RotationAnswer(db, 18, 8 * DAY_MS) == Issued(10, Some(Aal1), scopes)
    ensures GuardAccepts(Refresh(db, 18, 8 * DAY_MS).0, 20, Scoped(4), 8 * DAY_MS) <==> 4 in scopes
  {
  }

  /** Narrowed scopes come back in full: two exchanges for two of a client's five scopes, six days apart, the second
      access token revoked by itself; a cleanup on day eight that deletes no refresh token, no session and no
      blocker; and the next refresh yields all five scopes, which a guard then accepts. */
  lemma ScopesWiden() returns (events: seq<Event>)
    ensures var w := Play(Bare(), events);
      && Clean(w).db.refresh == w.db.refresh && Clean(w).db.sessions == w.db.sessions && !SweepsBlocker(w)
      && Answer(w, RefreshWith(18)) == Issued(10, Some(Aal1), {0, 3})
      && Answer(Clean(w), RefreshWith(18)) == Issued(10, Some(Aal1), {0, 1, 2, 3, 4})
      && Answer(Serve(w, RefreshWith(18)), Guarded(20, Scoped(4))) == Refused
      && Answer(Serve(Clean(w), RefreshWith(18)), Guarded(20, Scoped(4))) == Allowed
  {
    events := SecondIsRevoked();
    var w := Play(Bare(), events);
    FirstGoes(w);
    RefreshPassesOn(w.db, {0, 3});
    RefreshPassesOn(Clean(w).db, {0, 1, 2, 3, 4});
  }
}
