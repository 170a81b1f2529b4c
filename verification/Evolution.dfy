/** What no step of module Protocol ever does to the tables: keys are not reused, revocations and assurance
    levels are not taken back, identity columns and handed-out claims do not change, and rows leave only
    through token cleanup. */
module Evolution {
  import opened Options
  import opened Tokens
  import opened BulkRevocation
  import opened Protocol
  import CleanupJob

  /** Keys in use were drawn before; client ids, which stand in for session ids, are nobody's session; and every
      row's identity and client exist. */
  ghost predicate Fresh(db: Db) {
    && Drawn(db) && Linked(db)
  }

  ghost predicate Linked(db: Db) {
    && (forall k | k in db.refresh :: CanIssue(db, db.refresh[k].identityId, db.refresh[k].clientId))
    && (forall k | k in db.access :: CanIssue(db, db.access[k].identityId, db.access[k].clientId))
    && (forall k | k in db.sessions :: db.sessions[k].identityId in db.identities)
  }

  ghost predicate Drawn(db: Db) {
    && (forall i | i in db.identities :: i < db.nextId)
    && (forall k | k in db.refresh :: k < db.nextId)
    && (forall k | k in db.access :: k < db.nextId)
    && (forall k | k in db.sessions :: k < db.nextId)
    && (forall k | k in db.jwts :: k < db.nextId)
    && (forall c | c in db.clients :: c < db.nextId && c !in db.sessions)
  }

  /** Identity columns and dates stay, and a revoked token stays revoked. */
  predicate SameToken(a: RefreshRow, b: RefreshRow) {
    && b.familyId == a.familyId && b.parentJti == a.parentJti && b.sessionId == a.sessionId
    && b.identityId == a.identityId && b.clientId == a.clientId
    && b.issuedAt == a.issuedAt && b.expiresAt == a.expiresAt && (a.revoked ==> b.revoked)
  }

  ghost predicate TokensKept(m: map<nat, RefreshRow>, n: map<nat, RefreshRow>) {
    forall k | k in m && k in n :: SameToken(m[k], n[k])
  }

  /** The same rows, some of them newly revoked. */
  ghost predicate OnlyRevokes(m: map<nat, RefreshRow>, n: map<nat, RefreshRow>) {
    n.Keys == m.Keys && TokensKept(m, n)
  }

  /** A key that appears was never used before. */
  ghost predicate DrawsFresh<T>(m: map<nat, T>, n: map<nat, T>, nextId: nat) {
    forall k | k in n && k !in m :: nextId <= k
  }

  ghost predicate AccessEvolves(a: Db, b: Db) {
    && DrawsFresh(a.access, b.access, a.nextId)
    && forall j | j in a.access && j in b.access ::
         && b.access[j].identityId == a.access[j].identityId && b.access[j].clientId == a.access[j].clientId
         && b.access[j].sessionId == a.access[j].sessionId && b.access[j].expiresAt == a.access[j].expiresAt
         && (a.access[j].revoked ==> b.access[j].revoked)
  }

  /** A session's level as the guards read it. */
  function LevelOf(row: SessionRow): Level { row.level.GetOr(Aal1) }

  predicate AtMost(a: Level, b: Level) { a.Aal1? || b.Aal2? }

  ghost predicate SessionsEvolve(a: Db, b: Db) {
    && DrawsFresh(a.sessions, b.sessions, a.nextId)
    && forall q | q in a.sessions && q in b.sessions ::
         b.sessions[q].identityId == a.sessions[q].identityId && AtMost(LevelOf(a.sessions[q]), LevelOf(b.sessions[q]))
  }

  ghost predicate JwtsEvolve(a: Db, b: Db) {
    && DrawsFresh(a.jwts, b.jwts, a.nextId)
    && forall j | j in a.jwts :: j in b.jwts && b.jwts[j] == a.jwts[j]
  }

  ghost predicate Evolves(a: Db, b: Db) {
    && Fresh(b) && a.nextId <= b.nextId && b.config == a.config
    && DrawsFresh(a.identities, b.identities, a.nextId) && DrawsFresh(a.clients, b.clients, a.nextId)
    && DrawsFresh(a.refresh, b.refresh, a.nextId) && TokensKept(a.refresh, b.refresh)
    && AccessEvolves(a, b) && SessionsEvolve(a, b) && JwtsEvolve(a, b)
  }

  // ---------------------------------------------------------------------------------------------
  // Statement by statement
  // ---------------------------------------------------------------------------------------------

  lemma RevokeRefreshEvolves(db: Db, keys: set<nat>, at: Option<int>)
    requires Fresh(db)
    ensures Evolves(db, RevokeRefresh(db, keys, at)) && OnlyRevokes(db.refresh, RevokeRefresh(db, keys, at).refresh)
  {
  }

  lemma RecordEvolves(db: Db, marked: set<nat>, live: map<nat, int>)
    requires Fresh(db)
    ensures Evolves(db, Record(MarkAccess(db, marked), live))
  {
  }

  lemma IssueAccessEvolves(db: Db, g: Grant, now: int)
    requires Fresh(db) && CanIssue(db, g.identityId, g.clientId)
    ensures Evolves(db, IssueAccess(db, g, now))
  {
  }

  lemma IssueRefreshEvolves(db: Db, g: Grant, now: int)
    requires Fresh(db) && CanIssue(db, g.identityId, g.clientId)
    ensures Evolves(db, IssueRefresh(db, g, now))
  {
  }

  lemma SetSessionEvolves(db: Db, sid: nat, row: SessionRow)
    requires Fresh(db) && sid in db.sessions && row.identityId == db.sessions[sid].identityId
    requires AtMost(LevelOf(db.sessions[sid]), LevelOf(row))
    ensures Evolves(db, SetSession(db, sid, row))
  {
  }

  lemma InvalidateEvolves(db: Db, sid: Option<nat>)
    requires Fresh(db)
    ensures Evolves(db, InvalidateSession(db, sid))
  {
    if sid.Some? && sid.value in db.sessions { SetSessionEvolves(db, sid.value, db.sessions[sid.value].(valid := false)); }
  }

  lemma BindEvolves(db: Db, sid: nat, key: nat)
    requires Fresh(db)
    ensures Evolves(db, BindSession(db, sid, key))
  {
    if sid in db.sessions { SetSessionEvolves(db, sid, db.sessions[sid].(refreshTokenId := Some(key))); }
  }

  lemma AddSessionEvolves(db: Db, identity: nat, evicted: set<nat>, row: SessionRow)
    requires Fresh(db) && row.identityId in db.identities
    ensures Evolves(db, AddSession(Evict(db, identity, evicted), row))
  {
  }

  lemma RevokeEvolves(db: Db, token: nat, owner: Option<nat>)
    requires Fresh(db)
    ensures Evolves(db, Revoke(db, token, owner)) && OnlyRevokes(db.refresh, Revoke(db, token, owner).refresh)
  {
    RecordEvolves(db, {token}, Expiries(MarkAccess(db, {token}), {token}));
    RevokeRefreshEvolves(db, {token}, None);
  }

  lemma JtisEvolve(db: Db, jtis: map<nat, int>)
    requires Fresh(db)
    ensures Evolves(db, db.(revokedJti := jtis))
  {
  }

  lemma SessionsInvalidated(db: Db, scope: Scope, sids: set<nat>)
    requires Fresh(db)
    ensures Evolves(db, db.(sessions := Invalidated(db.sessions, scope, sids)))
  {
  }

  lemma LogoutTablesEvolve(db: Db, keys: set<nat>, sid: nat, now: int)
    requires Fresh(db)
    ensures var after := InvalidateSession(RevokeRefresh(db, keys, Some(now)), Some(sid));
      Evolves(db, after) && OnlyRevokes(db.refresh, after.refresh)
  {
    var db0 := RevokeRefresh(db, keys, Some(now));
    RevokeRefreshEvolves(db, keys, Some(now));
    InvalidateEvolves(db0, Some(sid));
    EvolvesTrans(db, db0, InvalidateSession(db0, Some(sid)));
  }

  lemma LogoutEvolves(db: Db, owner: Option<nat>, sid: nat, jti: Option<nat>, exp: Option<int>, now: int)
    requires Fresh(db)
    ensures Evolves(db, Logout(db, owner, sid, jti, exp, now))
    ensures OnlyRevokes(db.refresh, Logout(db, owner, sid, jti, exp, now).refresh)
  {
    if sid in db.sessions && Owned(owner, db.sessions[sid].identityId) {
      LogoutTablesEvolve(db, LogoutKeys(db, sid), sid, now);
      var db1 := InvalidateSession(RevokeRefresh(db, LogoutKeys(db, sid), Some(now)), Some(sid));
      var after := Logout(db, owner, sid, jti, exp, now);
      JtisEvolve(db1, after.revokedJti);
      assert after == db1.(revokedJti := after.revokedJti);
      EvolvesTrans(db, db1, after);
    }
  }

  lemma BulkTokensEvolve(db: Db, scope: Scope, sids: set<nat>, now: int)
    requires Fresh(db)
    ensures var after := MarkAccess(RevokeRefresh(db, RefreshOf(db, scope, sids), Stamp(scope, now)), AccessOf(db, scope, sids));
      Evolves(db, after) && OnlyRevokes(db.refresh, after.refresh)
  {
    var db1 := RevokeRefresh(db, RefreshOf(db, scope, sids), Stamp(scope, now));
    RevokeRefreshEvolves(db, RefreshOf(db, scope, sids), Stamp(scope, now));
    MarkEvolves(db1, AccessOf(db, scope, sids));
    EvolvesTrans(db, db1, MarkAccess(db1, AccessOf(db, scope, sids)));
  }

  lemma MarkEvolves(db: Db, marked: set<nat>)
    requires Fresh(db)
    ensures Evolves(db, MarkAccess(db, marked))
  {
  }

  lemma BulkEvolves(db: Db, scope: Scope, sids: set<nat>, live: map<nat, int>, now: int)
    requires Fresh(db)
    ensures Evolves(db, BulkWrite(db, scope, sids, live, now))
    ensures OnlyRevokes(db.refresh, BulkWrite(db, scope, sids, live, now).refresh)
  {
    var after := BulkWrite(db, scope, sids, live, now);
    var db1 := RevokeRefresh(db, RefreshOf(db, scope, sids), Stamp(scope, now));
    assert AccessOf(db1, scope, sids) == AccessOf(db, scope, sids);
    var db2 := MarkAccess(db1, AccessOf(db, scope, sids));
    BulkTokensEvolve(db, scope, sids, now);
    SessionsInvalidated(db2, scope, sids);
    var db3 := db2.(sessions := Invalidated(db2.sessions, scope, sids));
    EvolvesTrans(db, db2, db3);
    JtisEvolve(db3, after.revokedJti);
    assert after == db3.(revokedJti := after.revokedJti);
    EvolvesTrans(db, db3, after);
  }

  /** Cleanup only takes rows away. */
  lemma PurgeEvolves(db: Db, now: int)
    requires Fresh(db)
    ensures Evolves(db, CleanupJob.Cleaned(db, now))
  {
  }

  lemma AccountsEvolve(db: Db, step: Step)
    requires Fresh(db) && IsAccountStep(step)
    ensures Evolves(db, ApplyAccounts(db, step))
  {
  }

  lemma EvolvesTrans(a: Db, b: Db, c: Db)
    requires Fresh(a) && Evolves(a, b) && Evolves(b, c)
    ensures Evolves(a, c)
  {
  }

  // ---------------------------------------------------------------------------------------------
  // Step by step
  // ---------------------------------------------------------------------------------------------

  /** Steps that delete refresh tokens. */
  predicate Removes(step: Step) { step.Purge? || step.RemoveIdentity? || step.RemoveClient? }

  /** What stays hardens, only WriteRefresh adds a refresh token, and only cleanup and the deletion of its identity
      or client remove one. */
  ghost predicate Hardens(s: Sys, step: Step)
    requires Enabled(s, step)
  {
    var r := Apply(s, step);
    && Evolves(s.db, r.db) && s.now <= r.now
    && (!step.WriteRefresh? && !Removes(step) ==> OnlyRevokes(s.db.refresh, r.db.refresh))
  }

  lemma RefreshStepHardens(s: Sys, step: Step)
    requires Enabled(s, step) && IsRefreshStep(step) && Fresh(s.db)
    ensures Hardens(s, step)
  {
    RefreshStepEvolves(s, step);
  }

  lemma RefreshStepEvolves(s: Sys, step: Step)
    requires Enabled(s, step) && IsRefreshStep(step) && Fresh(s.db)
    ensures Evolves(s.db, ApplyRefresh(s, step).db) && OnlyRevokes(s.db.refresh, ApplyRefresh(s, step).db.refresh)
  {
    match step
    case Swap(p) => RevokeRefreshEvolves(s.db, {s.procs[p].t.key}, Some(s.now));
    case KillFamily(p) => RevokeRefreshEvolves(s.db, FamilyKeys(s.db, s.procs[p].t.row.familyId), None);
    case KillSession(p) => InvalidateEvolves(s.db, s.procs[p].t.row.sessionId);
    case Mark(p) => RecordEvolves(s.db, s.procs[p].live.Keys, s.procs[p].live);
    case _ =>
  }

  lemma IssueStepEvolves(s: Sys, step: Step)
    requires Enabled(s, step) && IsIssueStep(step) && Fresh(s.db)
    ensures Hardens(s, step)
  {
    match step
    case WriteAccess(p) => IssueAccessEvolves(s.db, s.procs[p].g, s.procs[p].at);
    case WriteRefresh(p) => IssueRefreshEvolves(s.db, s.procs[p].g, s.procs[p].at);
    case Bind(p) => BindEvolves(s.db, s.procs[p].g.sessionId, s.procs[p].key);
  }

  lemma LoginStepHardens(s: Sys, step: Step)
    requires Enabled(s, step) && IsLoginStep(step) && Fresh(s.db)
    ensures Hardens(s, step)
  {
    SignInStepEvolves(s, step);
  }

  lemma SignInStepHardens(s: Sys, step: Step)
    requires Enabled(s, step) && IsSignInStep(step) && !IsLoginStep(step) && Fresh(s.db)
    ensures Hardens(s, step)
  {
    SignInStepEvolves(s, step);
  }

  lemma SignInStepEvolves(s: Sys, step: Step)
    requires Enabled(s, step) && IsSignInStep(step) && Fresh(s.db)
    ensures Evolves(s.db, ApplySignIn(s, step).db) && OnlyRevokes(s.db.refresh, ApplySignIn(s, step).db.refresh)
  {
    match step
    case SignIn(_, i, _, level, e, evicted) => AddSessionEvolves(s.db, i, evicted, SessionRow(i, None, true, e, Some(level), None));
    case SignInPending(_, i, e, evicted) => AddSessionEvolves(s.db, i, evicted, SessionRow(i, None, true, e, Some(Aal1), None));
    case Park(p) => InvalidateEvolves(s.db, Some(s.procs[p].sid));
    case Promote(p) => SetSessionEvolves(s.db, s.procs[p].sid, s.db.sessions[s.procs[p].sid].(level := Some(Aal2)));
    case Revalidate(_, sid) => SetSessionEvolves(s.db, sid, s.db.sessions[sid].(valid := true, level := Some(Aal2)));
    case StepUp(sid, _) => SetSessionEvolves(s.db, sid, s.db.sessions[sid].(level := Some(Aal2), elevatedAt := Some(s.now)));
    case _ =>
  }

  lemma SwitchStepHardens(s: Sys, step: Step)
    requires Enabled(s, step) && IsSwitchStep(step) && Fresh(s.db)
    ensures Hardens(s, step)
  {
    SwitchStepEvolves(s, step);
  }

  lemma SwitchStepEvolves(s: Sys, step: Step)
    requires Enabled(s, step) && IsSwitchStep(step) && Fresh(s.db)
    ensures Evolves(s.db, ApplySwitch(s, step).db) && OnlyRevokes(s.db.refresh, ApplySwitch(s, step).db.refresh)
  {
    match step
    case SwitchSwap(p) =>
      if s.procs[p].w.bound.Some? { RevokeRefreshEvolves(s.db, {s.procs[p].w.bound.value}, Some(s.now)); }
    case SwitchBlock(p) =>
      RecordEvolves(s.db, SessionAccess(s.db, s.procs[p].w.sid, s.procs[p].w.identity), s.procs[p].live);
    case _ =>
  }

  lemma BulkStepEvolves(s: Sys, step: Step)
    requires Enabled(s, step) && IsBulkStep(step) && Fresh(s.db)
    ensures Hardens(s, step)
  {
    if step.BulkCommit? {
      BulkEvolves(s.db, s.procs[step.p].scope, s.procs[step.p].sids, s.procs[step.p].live, s.now);
    }
  }

  lemma StepEvolves(s: Sys, step: Step)
    requires Enabled(s, step) && Fresh(s.db)
    ensures Hardens(s, step)
  {
    if IsRefreshStep(step) {
      RefreshStepHardens(s, step);
    } else if IsIssueStep(step) {
      IssueStepEvolves(s, step);
    } else if IsLoginStep(step) {
      LoginStepHardens(s, step);
    } else if IsSignInStep(step) {
      SignInStepHardens(s, step);
    } else if IsSwitchStep(step) {
      SwitchStepHardens(s, step);
    } else if IsBulkStep(step) {
      BulkStepEvolves(s, step);
    } else if IsAccountStep(step) {
      AccountStepEvolves(s, step);
    } else {
      OtherStepEvolves(s, step);
    }
  }

  lemma AccountStepEvolves(s: Sys, step: Step)
    requires Enabled(s, step) && IsAccountStep(step) && Fresh(s.db)
    ensures Hardens(s, step)
  {
    AccountsEvolve(s.db, step);
  }

  lemma OtherStepEvolves(s: Sys, step: Step)
    requires Enabled(s, step) && Fresh(s.db)
    requires !IsRefreshStep(step) && !IsIssueStep(step) && !IsSignInStep(step) && !IsSwitchStep(step) && !IsBulkStep(step)
    requires !IsAccountStep(step)
    ensures Hardens(s, step)
  {
    match step
    case RevokeToken(token, owner) => RevokeEvolves(s.db, token, owner);
    case SignOut(owner, sid, jti, exp) => LogoutEvolves(s.db, owner, sid, jti, exp, s.now);
    case Purge => PurgeEvolves(s.db, s.now);
    case _ =>
  }

  lemma {:induction false} RunEvolves(s: Sys, steps: seq<Step>)
    requires Fresh(s.db) && Run(s, steps).Some?
    ensures Evolves(s.db, Run(s, steps).value.db) && s.now <= Run(s, steps).value.now
  {
    if steps != [] {
      var front := steps[..|steps| - 1];
      RunEvolves(s, front);
      StepEvolves(Run(s, front).value, steps[|steps| - 1]);
      EvolvesTrans(s.db, Run(s, front).value.db, Run(s, steps).value.db);
    }
  }

  // ---------------------------------------------------------------------------------------------
  // Invalid sessions
  // ---------------------------------------------------------------------------------------------

  /** While its row exists: invalid, and to expire when it was to expire. */
  predicate Closed(db: Db, sid: nat, expiresAt: int) {
    sid < db.nextId && (sid in db.sessions ==> !db.sessions[sid].valid && db.sessions[sid].expiresAt == expiresAt)
  }

  predicate Revalidates(step: Step, sid: nat) { step.Revalidate? && step.sid == sid }

  lemma ClosedInSignIn(s: Sys, step: Step, sid: nat, expiresAt: int)
    requires Enabled(s, step) && IsSignInStep(step) && Closed(s.db, sid, expiresAt) && !Revalidates(step, sid)
    ensures Closed(ApplySignIn(s, step).db, sid, expiresAt)
  {
  }

  lemma ClosedInRefresh(s: Sys, step: Step, sid: nat, expiresAt: int)
    requires Enabled(s, step) && IsRefreshStep(step) && Closed(s.db, sid, expiresAt)
    ensures Closed(Apply(s, step).db, sid, expiresAt)
  {
  }

  lemma ClosedInIssue(s: Sys, step: Step, sid: nat, expiresAt: int)
    requires Enabled(s, step) && IsIssueStep(step) && Closed(s.db, sid, expiresAt)
    ensures Closed(Apply(s, step).db, sid, expiresAt)
  {
  }

  lemma ClosedInSwitch(s: Sys, step: Step, sid: nat, expiresAt: int)
    requires Enabled(s, step) && IsSwitchStep(step) && Closed(s.db, sid, expiresAt)
    ensures Closed(Apply(s, step).db, sid, expiresAt)
  {
  }

  lemma ClosedInBulk(s: Sys, step: Step, sid: nat, expiresAt: int)
    requires Enabled(s, step) && IsBulkStep(step) && Closed(s.db, sid, expiresAt)
    ensures Closed(Apply(s, step).db, sid, expiresAt)
  {
  }

  lemma ClosedInAccounts(db: Db, step: Step, sid: nat, expiresAt: int)
    requires IsAccountStep(step) && Closed(db, sid, expiresAt)
    ensures Closed(ApplyAccounts(db, step), sid, expiresAt)
  {
  }

  lemma ClosedInRevoke(db: Db, token: nat, owner: Option<nat>, sid: nat, expiresAt: int)
    requires Closed(db, sid, expiresAt)
    ensures Closed(Revoke(db, token, owner), sid, expiresAt)
  {
  }

  lemma ClosedInLogout(db: Db, owner: Option<nat>, q: nat, jti: Option<nat>, exp: Option<int>, now: int, sid: nat, expiresAt: int)
    requires Closed(db, sid, expiresAt)
    ensures Closed(Logout(db, owner, q, jti, exp, now), sid, expiresAt)
  {
    if q in db.sessions && Owned(owner, db.sessions[q].identityId) {
      var db1 := InvalidateSession(RevokeRefresh(db, LogoutKeys(db, q), Some(now)), Some(q));
      assert Closed(db1, sid, expiresAt);
    }
  }

  lemma ClosedInPurge(db: Db, now: int, sid: nat, expiresAt: int)
    requires Closed(db, sid, expiresAt)
    ensures Closed(CleanupJob.Cleaned(db, now), sid, expiresAt)
  {
  }

  lemma ClosedElsewhere(s: Sys, step: Step, sid: nat, expiresAt: int)
    requires Enabled(s, step) && Closed(s.db, sid, expiresAt)
    requires !IsSignInStep(step) && !IsRefreshStep(step) && !IsIssueStep(step) && !IsSwitchStep(step) && !IsBulkStep(step)
    requires !IsAccountStep(step)
    ensures Closed(Apply(s, step).db, sid, expiresAt)
  {
    match step
    case RevokeToken(token, owner) => ClosedInRevoke(s.db, token, owner, sid, expiresAt);
    case SignOut(owner, q, jti, exp) => ClosedInLogout(s.db, owner, q, jti, exp, s.now, sid, expiresAt);
    case Purge => ClosedInPurge(s.db, s.now, sid, expiresAt);
    case _ =>
  }

  /** An invalid session stays as it is, up to its level and binding, until a recovery handler revalidates it or
      cleanup deletes it. */
  lemma ClosedStep(s: Sys, step: Step, sid: nat, expiresAt: int)
    requires Enabled(s, step) && Closed(s.db, sid, expiresAt) && !Revalidates(step, sid)
    ensures Closed(Apply(s, step).db, sid, expiresAt)
  {
    if IsSignInStep(step) {
      ClosedInSignIn(s, step, sid, expiresAt);
    } else if IsRefreshStep(step) {
      ClosedInRefresh(s, step, sid, expiresAt);
    } else if IsIssueStep(step) {
      ClosedInIssue(s, step, sid, expiresAt);
    } else if IsSwitchStep(step) {
      ClosedInSwitch(s, step, sid, expiresAt);
    } else if IsBulkStep(step) {
      ClosedInBulk(s, step, sid, expiresAt);
    } else if IsAccountStep(step) {
      ClosedInAccounts(s.db, step, sid, expiresAt);
    } else {
      ClosedElsewhere(s, step, sid, expiresAt);
    }
  }

  predicate NoRecovery(steps: seq<Step>, sid: nat) {
    forall i | 0 <= i < |steps| :: !Revalidates(steps[i], sid)
  }

  lemma NoRecoveryFront(steps: seq<Step>, sid: nat)
    requires NoRecovery(steps, sid) && steps != []
    ensures NoRecovery(steps[..|steps| - 1], sid)
  {
  }

  /** A session that is invalid is never valid again unless a recovery handler revalidates it. */
  lemma {:induction false} OnlyRecoveryRevalidates(s: Sys, steps: seq<Step>, sid: nat, expiresAt: int)
    requires Run(s, steps).Some? && Closed(s.db, sid, expiresAt) && NoRecovery(steps, sid)
    ensures Closed(Run(s, steps).value.db, sid, expiresAt)
  {
    if steps != [] {
      var front := steps[..|steps| - 1];
      NoRecoveryFront(steps, sid);
      OnlyRecoveryRevalidates(s, front, sid, expiresAt);
      ClosedStep(Run(s, front).value, steps[|steps| - 1], sid, expiresAt);
    }
  }
}
