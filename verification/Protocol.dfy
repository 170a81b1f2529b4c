/** The flows that issue, rotate, revoke, elevate and clean up, cut into their database statements and run by
    any number of callers at once: src/modules/oauth/flows/{token-refresh,token-exchange,token-revoke}.flow.ts,
    src/modules/oauth/services/token.service.ts, src/modules/auth/flows/{login,mfa-verify,switch-context,
    logout}.flow.ts, the recovery handler of src/modules/auth/routes/mfa.route.ts, the write of
    src/modules/auth/services/step-up.service.ts, the bulk revocations of module BulkRevocation, the deletions
    of src/jobs/token-cleanup.job.ts, and the hard deletions of src/modules/identity/routes/profile.route.ts and
    src/modules/oauth/routes/clients.route.ts with what the database deletes along.

    A caller that is rejected, throws or dies simply stops (`Stop`), whatever it was doing. Inserts fail once the
    identity or client they refer to is gone. The scopes that callers ask for or pass on are any scopes. */
module Protocol {
  import opened Options
  import opened Tokens
  import opened BulkRevocation
  import CleanupJob

  /** The consumed token as a refresher read it in step 1. */
  datatype Snapshot = Snapshot(key: nat, row: RefreshRow)

  /** The session as a context switch read it. */
  datatype Switch = Switch(sid: nat, identity: nat, client: nat, bound: Option<nat>, level: Level)

  /** What a caller will do next. */
  datatype Phase =
    | Swapping(t: Snapshot)                             // read a live, unexpired token; next: compare-and-swap
    | ReadingLevel(t: Snapshot)                         // won the swap; next: read the session's level
    | Issuing(g: Grant, at: int, access: bool, refresh: bool)  // next: the rows of issue(), dated `at`, still to write
    | Binding(g: Grant, at: int, access: bool, key: nat)       // refresh row written; next: bind it to the session
    | Killing(t: Snapshot, family: bool, session: bool) // kill-chain: the two updates still to do
    | Sweeping(t: Snapshot)                             // next: read the live access tokens
    | Marking(t: Snapshot, live: map<nat, int>, readAt: nat)   // next: revoke and record what was read
    | Thrown(t: Snapshot, readAt: nat)                  // the kill-chain threw; readAt: the id counter at its read
    | SwitchRead(w: Switch)
    | SwitchCollected(w: Switch, live: map<nat, int>)
    | SwitchSwapped(w: Switch, live: map<nat, int>)
    | Parking(sid: nat)                                        // session created; next: mark it invalid
    | MfaChecked(sid: nat, identity: nat, client: nat)
    | RecoverChecked(sid: nat, identity: nat, client: nat)     // past the expiry check; next: the update
    | BulkRead(scope: Scope, sids: set<nat>)                   // next: read the access tokens covered
    | BulkCollected(scope: Scope, sids: set<nat>, live: map<nat, int>) // next: the transaction

  datatype Sys = Sys(db: Db, procs: map<nat, Phase>, now: int)

  datatype Step =
    | Tick(ms: nat)
    | Stop(p: nat)
    // refresh
    | StartRefresh(p: nat, token: nat)
    | Swap(p: nat)
    | ReadLevel(p: nat, scopes: set<nat>)
    | KillFamily(p: nat)
    | KillSession(p: nat)
    | Sweep(p: nat)
    | Mark(p: nat)
    // issue
    | WriteAccess(p: nat)
    | WriteRefresh(p: nat)
    | Bind(p: nat)
    // sign-in
    | SignIn(p: nat, identity: nat, client: nat, level: Level, expiresAt: int, evicted: set<nat>)
    | SignInPending(p: nat, identity: nat, expiresAt: int, evicted: set<nat>)
    | Park(p: nat)
    | StartMfa(p: nat, sid: nat, client: nat)
    | Promote(p: nat)
    | StartRecover(p: nat, sid: nat, client: nat)
    | Revalidate(p: nat, sid: nat)
    | StepUp(sid: nat, identity: nat)
    // token endpoint
    | Exchange(p: nat, sid: nat, client: nat, scopes: set<nat>)
    | ClientGrant(p: nat, client: nat, scopes: set<nat>)
    // context switch
    | StartSwitch(p: nat, sid: nat, identity: nat, client: nat)
    | SwitchCollect(p: nat)
    | SwitchSwap(p: nat)
    | SwitchBlock(p: nat)
    // plain revocation
    | RevokeToken(token: nat, owner: Option<nat>)
    | SignOut(owner: Option<nat>, sid: nat, jti: Option<nat>, exp: Option<int>)
    // bulk revocation
    | StartBulk(p: nat, scope: Scope)
    | BulkCollect(p: nat)
    | BulkCommit(p: nat)
    // token cleanup
    | Purge
    // accounts
    | AddIdentity(status: UserStatus)
    | AddClient(scopes: set<nat>)
    | RemoveIdentity(identity: nat)
    | RemoveClient(client: nat)

  predicate At(s: Sys, p: nat) { p in s.procs }

  predicate Enabled(s: Sys, step: Step) {
    match step
    case Tick(_) => true
    case Stop(p) => At(s, p)
    case StartRefresh(p, token) =>
      && !At(s, p) && token in s.db.refresh
      && (s.db.refresh[token].revoked || s.db.refresh[token].expiresAt > s.now)
    case Swap(p) => At(s, p) && s.procs[p].Swapping?
    case ReadLevel(p, _) => At(s, p) && s.procs[p].ReadingLevel?
    case KillFamily(p) => At(s, p) && s.procs[p].Killing? && s.procs[p].family
    case KillSession(p) => At(s, p) && s.procs[p].Killing? && s.procs[p].session
    case Sweep(p) => At(s, p) && s.procs[p].Sweeping?
    case Mark(p) => At(s, p) && s.procs[p].Marking?
    case WriteAccess(p) => At(s, p) && (s.procs[p].Issuing? || s.procs[p].Binding?) && s.procs[p].access && MayWrite(s.db, s.procs[p].g)
    case WriteRefresh(p) => At(s, p) && s.procs[p].Issuing? && s.procs[p].refresh && MayWrite(s.db, s.procs[p].g)
    case Bind(p) => At(s, p) && s.procs[p].Binding?
    case SignIn(p, identity, client, _, _, _) => !At(s, p) && identity in s.db.identities && client < s.db.nextId
    case SignInPending(p, identity, _, _) => !At(s, p) && identity in s.db.identities
    case Park(p) => At(s, p) && s.procs[p].Parking? && s.procs[p].sid in s.db.sessions
    case StartMfa(p, sid, client) => !At(s, p) && sid in s.db.sessions && s.db.sessions[sid].valid && client < s.db.nextId
    case Promote(p) => At(s, p) && s.procs[p].MfaChecked? && s.procs[p].sid in s.db.sessions
    case StartRecover(p, sid, client) =>
      !At(s, p) && sid in s.db.sessions && s.db.sessions[sid].expiresAt > s.now && client < s.db.nextId
    case Revalidate(p, sid) => At(s, p) && s.procs[p].RecoverChecked? && s.procs[p].sid == sid && sid in s.db.sessions
    case Exchange(p, sid, client, _) => !At(s, p) && sid in s.db.sessions && s.db.sessions[sid].valid && client < s.db.nextId
    case ClientGrant(p, client, _) => !At(s, p) && client in s.db.clients
    case StepUp(sid, identity) =>
      && sid in s.db.sessions && s.db.sessions[sid].identityId == identity
      && s.db.sessions[sid].valid && s.db.sessions[sid].expiresAt > s.now
    case StartSwitch(p, sid, identity, client) =>
      && !At(s, p) && client < s.db.nextId && sid in s.db.sessions && s.db.sessions[sid].identityId == identity
      && s.db.sessions[sid].valid && s.db.sessions[sid].expiresAt > s.now
    case SwitchCollect(p) => At(s, p) && s.procs[p].SwitchRead?
    case SwitchSwap(p) => At(s, p) && s.procs[p].SwitchCollected?
    case SwitchBlock(p) => At(s, p) && s.procs[p].SwitchSwapped?
    case RevokeToken(_, _) => true
    case SignOut(_, _, _, _) => true
    case StartBulk(p, scope) => !At(s, p) && !ReturnsEarly(scope, SidsRead(s.db, scope))
    case BulkCollect(p) => At(s, p) && s.procs[p].BulkRead?
    case BulkCommit(p) => At(s, p) && s.procs[p].BulkCollected?
    case Purge => true
    case AddIdentity(_) => true
    case AddClient(_) => true
    case RemoveIdentity(identity) => identity in s.db.identities
    case RemoveClient(client) => client in s.db.clients
  }

  /** The rows that an insert refers to are there. */
  predicate MayWrite(db: Db, g: Grant) { CanIssue(db, g.identityId, g.clientId) }

  function Goto(s: Sys, p: nat, phase: Phase): Sys { s.(procs := s.procs[p := phase]) }

  function Done(s: Sys, p: nat): Sys { s.(procs := s.procs - {p}) }

  function WithDb(s: Sys, db: Db): Sys { s.(db := db) }

  /** Session eviction marks sessions of the same identity invalid; which ones is module Sessions' matter. */
  function Evict(db: Db, identity: nat, evicted: set<nat>): Db {
    db.(sessions := map q | q in db.sessions ::
      if q in evicted && db.sessions[q].identityId == identity then db.sessions[q].(valid := false) else db.sessions[q])
  }

  function Raise(db: Db, sid: nat): Db
    requires sid in db.sessions
  {
    SetSession(db, sid, db.sessions[sid].(level := Some(Aal2)))
  }

  function AfterKill(t: Snapshot, family: bool, session: bool): Phase {
    if family || session then Killing(t, family, session) else Sweeping(t)
  }

  function SessionAccess(db: Db, sid: nat, identity: nat): set<nat> {
    set j | j in db.access && db.access[j].sessionId == sid && db.access[j].identityId == identity && !db.access[j].revoked
  }

  /** Marks what is there now and records what was read. */
  function SwitchBlocked(db: Db, w: Switch, live: map<nat, int>): Db {
    if live == map[] then db else Record(MarkAccess(db, SessionAccess(db, w.sid, w.identity)), live)
  }

  function SwitchGrant(w: Switch): Grant {
    Grant(w.identity, w.client, w.sid, Some(w.level), None, DEFAULT_SCOPES)
  }

  function ApplyRefresh(s: Sys, step: Step): Sys
    requires Enabled(s, step)
    requires IsRefreshStep(step)
  {
    match step
    case StartRefresh(p, token) =>
      var t := Snapshot(token, s.db.refresh[token]);
      Goto(s, p, if t.row.revoked then Killing(t, true, true) else Swapping(t))
    case Swap(p) =>
      var t := s.procs[p].t;
      if IsLive(s.db, t.key)
      then Goto(WithDb(s, SwapRefresh(s.db, t.key, s.now)), p, ReadingLevel(t))
      else Goto(s, p, Killing(t, true, true))
    case ReadLevel(p, scopes) =>
      var t := s.procs[p].t;
      Goto(s, p, Issuing(RotationGrant(s.db, t.key, t.row).(scopes := scopes), s.now, true, true))
    case KillFamily(p) =>
      var k := s.procs[p];
      Goto(WithDb(s, RevokeRefresh(s.db, FamilyKeys(s.db, k.t.row.familyId), None)), p, AfterKill(k.t, false, k.session))
    case KillSession(p) =>
      var k := s.procs[p];
      Goto(WithDb(s, InvalidateSession(s.db, k.t.row.sessionId)), p, AfterKill(k.t, k.family, false))
    case Sweep(p) =>
      var t := s.procs[p].t;
      Goto(s, p, Marking(t, Expiries(s.db, LiveAccess(s.db, t.row.identityId, t.row.clientId, s.now)), s.db.nextId))
    case Mark(p) =>
      var k := s.procs[p];
      Goto(WithDb(s, Record(MarkAccess(s.db, k.live.Keys), k.live)), p, Thrown(k.t, k.readAt))
  }

  function AfterWrite(s: Sys, p: nat, phase: Phase): Sys {
    if phase.Issuing? && !phase.access && !phase.refresh then Done(s, p) else Goto(s, p, phase)
  }

  function ApplyIssue(s: Sys, step: Step): Sys
    requires Enabled(s, step) && IsIssueStep(step)
  {
    match step
    case WriteAccess(p) =>
      AfterWrite(WithDb(s, IssueAccess(s.db, s.procs[p].g, s.procs[p].at)), p, s.procs[p].(access := false))
    case WriteRefresh(p) =>
      var i := s.procs[p];
      Goto(WithDb(s, IssueRefresh(s.db, i.g, i.at)), p, Binding(i.g, i.at, i.access, s.db.nextId))
    case Bind(p) =>
      var b := s.procs[p];
      AfterWrite(WithDb(s, BindSession(s.db, b.g.sessionId, b.key)), p, Issuing(b.g, b.at, b.access, false))
  }

  function ApplySignIn(s: Sys, step: Step): Sys
    requires Enabled(s, step)
    requires IsSignInStep(step)
  {
    match step
    case SignIn(p, identity, client, level, expiresAt, evicted) =>
      var db := AddSession(Evict(s.db, identity, evicted), SessionRow(identity, None, true, expiresAt, Some(level), None));
      Goto(WithDb(s, db), p, Issuing(Grant(identity, client, s.db.nextId, Some(level), None, DEFAULT_SCOPES), s.now, true, true))
    case SignInPending(p, identity, expiresAt, evicted) =>
      var db := AddSession(Evict(s.db, identity, evicted), SessionRow(identity, None, true, expiresAt, Some(Aal1), None));
      Goto(WithDb(s, db), p, Parking(s.db.nextId))
    case Park(p) => Done(WithDb(s, InvalidateSession(s.db, Some(s.procs[p].sid))), p)
    case StartMfa(p, sid, client) => Goto(s, p, MfaChecked(sid, s.db.sessions[sid].identityId, client))
    case Promote(p) =>
      var m := s.procs[p];
      Goto(WithDb(s, Raise(s.db, m.sid)), p, Issuing(Grant(m.identity, m.client, m.sid, Some(Aal2), None, DEFAULT_SCOPES), s.now, true, true))
    case StartRecover(p, sid, client) => Goto(s, p, RecoverChecked(sid, s.db.sessions[sid].identityId, client))
    case Revalidate(p, sid) =>
      var m := s.procs[p];
      Goto(WithDb(s, SetSession(s.db, sid, s.db.sessions[sid].(valid := true, level := Some(Aal2)))), p,
           Issuing(Grant(m.identity, m.client, sid, Some(Aal2), None, DEFAULT_SCOPES), s.now, true, true))
    case Exchange(p, sid, client, scopes) =>
      var row := s.db.sessions[sid];
      Goto(s, p, Issuing(Grant(row.identityId, client, sid, Some(row.level.GetOr(Aal1)), None, scopes), s.now, true, true))
    case ClientGrant(p, client, scopes) => Goto(s, p, Issuing(Grant(client, client, client, None, None, scopes), s.now, true, true))
    case StepUp(sid, _) =>
      WithDb(s, SetSession(s.db, sid, s.db.sessions[sid].(level := Some(Aal2), elevatedAt := Some(s.now))))
  }

  function ApplySwitch(s: Sys, step: Step): Sys
    requires Enabled(s, step) && IsSwitchStep(step)
  {
    match step
    case StartSwitch(p, sid, identity, client) =>
      var row := s.db.sessions[sid];
      Goto(s, p, SwitchRead(Switch(sid, identity, client, row.refreshTokenId, row.level.GetOr(Aal1))))
    case SwitchCollect(p) =>
      var w := s.procs[p].w;
      Goto(s, p, SwitchCollected(w, Expiries(s.db, SessionAccess(s.db, w.sid, w.identity))))
    case SwitchSwap(p) =>
      var k := s.procs[p];
      if k.w.bound.None? then Goto(s, p, SwitchSwapped(k.w, k.live))
      else if IsLive(s.db, k.w.bound.value)
      then Goto(WithDb(s, SwapRefresh(s.db, k.w.bound.value, s.now)), p, SwitchSwapped(k.w, k.live))
      else Done(s, p)
    case SwitchBlock(p) =>
      var k := s.procs[p];
      Goto(WithDb(s, SwitchBlocked(s.db, k.w, k.live)), p, Issuing(SwitchGrant(k.w), s.now, true, true))
  }

  function ApplyBulk(s: Sys, step: Step): Sys
    requires Enabled(s, step) && IsBulkStep(step)
  {
    match step
    case StartBulk(p, scope) => Goto(s, p, BulkRead(scope, SidsRead(s.db, scope)))
    case BulkCollect(p) =>
      var k := s.procs[p];
      Goto(s, p, BulkCollected(k.scope, k.sids, Expiries(s.db, AccessOf(s.db, k.scope, k.sids))))
    case BulkCommit(p) =>
      var k := s.procs[p];
      Done(if Commits(s.db, k.live) then WithDb(s, BulkWrite(s.db, k.scope, k.sids, k.live, s.now)) else s, p)
  }

  predicate IsRefreshStep(step: Step) {
    step.StartRefresh? || step.Swap? || step.ReadLevel? || step.KillFamily? || step.KillSession? || step.Sweep? || step.Mark?
  }

  predicate IsIssueStep(step: Step) { step.WriteAccess? || step.WriteRefresh? || step.Bind? }

  predicate IsSignInStep(step: Step) {
    || step.SignIn? || step.SignInPending? || step.Park? || step.StartMfa? || step.Promote? || step.StartRecover? || step.Revalidate?
    || step.StepUp? || step.Exchange? || step.ClientGrant?
  }

  /** The sign-in steps that touch a session row other than by recovery or elevation. */
  predicate IsLoginStep(step: Step) { step.SignIn? || step.SignInPending? || step.Park? }

  predicate IsSwitchStep(step: Step) {
    step.StartSwitch? || step.SwitchCollect? || step.SwitchSwap? || step.SwitchBlock?
  }

  predicate IsBulkStep(step: Step) { step.StartBulk? || step.BulkCollect? || step.BulkCommit? }

  predicate IsAccountStep(step: Step) {
    step.AddIdentity? || step.AddClient? || step.RemoveIdentity? || step.RemoveClient?
  }

  function ApplyAccounts(db: Db, step: Step): Db
    requires IsAccountStep(step)
  {
    match step
    case AddIdentity(status) => db.(identities := db.identities[db.nextId := status], nextId := db.nextId + 1)
    case AddClient(scopes) => db.(clients := db.clients[db.nextId := scopes], nextId := db.nextId + 1)
    case RemoveIdentity(identity) => DeleteIdentity(db, identity)
    case RemoveClient(client) => DeleteClient(db, client)
  }

  function Apply(s: Sys, step: Step): Sys
    requires Enabled(s, step)
  {
    if IsRefreshStep(step) then ApplyRefresh(s, step)
    else if IsIssueStep(step) then ApplyIssue(s, step)
    else if IsSignInStep(step) then ApplySignIn(s, step)
    else if IsSwitchStep(step) then ApplySwitch(s, step)
    else if IsBulkStep(step) then ApplyBulk(s, step)
    else if IsAccountStep(step) then WithDb(s, ApplyAccounts(s.db, step))
    else
      match step
      case Tick(ms) => s.(now := s.now + ms)
      case Stop(p) => Done(s, p)
      case RevokeToken(token, owner) => WithDb(s, Revoke(s.db, token, owner))
      case SignOut(owner, sid, jti, exp) => WithDb(s, Logout(s.db, owner, sid, jti, exp, s.now))
      case Purge => WithDb(s, CleanupJob.Cleaned(s.db, s.now))
  }

  /** The state a sequence of steps leads to; None if one of them is not enabled. */
  function Run(s: Sys, steps: seq<Step>): Option<Sys> {
    if steps == [] then Some(s)
    else match Run(s, steps[..|steps| - 1])
      case None => None
      case Some(r) => if Enabled(r, steps[|steps| - 1]) then Some(Apply(r, steps[|steps| - 1])) else None
  }

  /** Empty token tables; identities, clients and configuration are whatever they are, and their ids are not
      drawn again. */
  predicate Init(s: Sys) {
    && s.procs == map[] && s.db.refresh == map[] && s.db.access == map[] && s.db.sessions == map[]
    && s.db.revokedJti == map[] && s.db.jwts == map[] && s.db.scopes == map[]
    && (forall c | c in s.db.clients :: c < s.db.nextId) && (forall i | i in s.db.identities :: i < s.db.nextId)
  }
}
