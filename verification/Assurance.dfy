/** Authenticator assurance across login, MFA verification, recovery, step-up, context switch and refresh,
    in every interleaving of module Protocol: no token outclaims its session, and a session parked for a
    second factor yields nothing until the recovery handler opens it. */
module Assurance {
  import opened Options
  import opened Tokens
  import opened BulkRevocation
  import opened Protocol
  import opened Evolution

  // ---------------------------------------------------------------------------------------------
  // Claimed levels
  // ---------------------------------------------------------------------------------------------

  /** A claim of `level` for session `sid` is one the session row backs, while cleanup has not taken it. */
  predicate Backed(db: Db, sid: nat, level: Option<Level>) {
    level.Some? ==> sid < db.nextId && (sid in db.sessions ==> AtMost(level.value, LevelOf(db.sessions[sid])))
  }

  /** The session and level a caller is about to sign into a token. */
  function Claim(phase: Phase): (nat, Option<Level>) {
    match phase
    case Issuing(g, _, _, _) => (g.sessionId, g.level)
    case Binding(g, _, _, _) => (g.sessionId, g.level)
    case SwitchRead(w) => (w.sid, Some(w.level))
    case SwitchCollected(w, _) => (w.sid, Some(w.level))
    case SwitchSwapped(w, _) => (w.sid, Some(w.level))
    case _ => (0, None)
  }

  ghost predicate TokensBacked(db: Db) {
    forall j | j in db.jwts :: Backed(db, db.jwts[j].sid, db.jwts[j].aal)
  }

  ghost predicate CallersBacked(s: Sys) {
    forall p | p in s.procs :: Backed(s.db, Claim(s.procs[p]).0, Claim(s.procs[p]).1)
  }

  ghost predicate LevelsInv(s: Sys) {
    Fresh(s.db) && TokensBacked(s.db) && CallersBacked(s)
  }

  lemma BackedLater(a: Db, b: Db, sid: nat, level: Option<Level>)
    requires SessionsEvolve(a, b) && a.nextId <= b.nextId && Backed(a, sid, level)
    ensures Backed(b, sid, level)
  {
  }

  ghost predicate SignsNothing(s: Sys, step: Step)
    requires Enabled(s, step)
  {
    var r := Apply(s, step);
    r.db.jwts == s.db.jwts && r.db.access.Keys <= s.db.access.Keys
  }

  lemma SignInsSignNothing(s: Sys, step: Step)
    requires Enabled(s, step) && IsSignInStep(step)
    ensures SignsNothing(s, step)
  {
  }

  lemma RefreshesSignNothing(s: Sys, step: Step)
    requires Enabled(s, step) && IsRefreshStep(step)
    ensures SignsNothing(s, step)
  {
  }

  lemma WritesSignNothing(s: Sys, step: Step)
    requires Enabled(s, step) && IsIssueStep(step) && !step.WriteAccess?
    ensures SignsNothing(s, step)
  {
  }

  lemma SwitchesSignNothing(s: Sys, step: Step)
    requires Enabled(s, step) && IsSwitchStep(step)
    ensures SignsNothing(s, step)
  {
  }

  lemma BulkSignsNothing(s: Sys, step: Step)
    requires Enabled(s, step) && IsBulkStep(step)
    ensures SignsNothing(s, step)
  {
    if step.BulkCommit? && Commits(s.db, s.procs[step.p].live) {
      var k := s.procs[step.p];
      assert Apply(s, step).db == BulkWrite(s.db, k.scope, k.sids, k.live, s.now);
    }
  }

  lemma AccountsSignNothing(db: Db, step: Step)
    requires IsAccountStep(step)
    ensures ApplyAccounts(db, step).jwts == db.jwts && ApplyAccounts(db, step).access.Keys <= db.access.Keys
  {
  }

  lemma RecordSignsNothing(db: Db, marked: set<nat>, recorded: set<nat>)
    ensures var after := RecordRevoked(MarkAccess(db, marked), recorded); after.jwts == db.jwts && after.access.Keys == db.access.Keys
  {
  }

  lemma RevokeSignsNothing(db: Db, token: nat, owner: Option<nat>)
    ensures Revoke(db, token, owner).jwts == db.jwts && Revoke(db, token, owner).access.Keys == db.access.Keys
  {
    RecordSignsNothing(db, {token}, {token});
  }

  lemma LogoutSignsNothing(db: Db, owner: Option<nat>, sid: nat, jti: Option<nat>, exp: Option<int>, now: int)
    ensures var after := Logout(db, owner, sid, jti, exp, now); after.jwts == db.jwts && after.access == db.access
  {
    if sid in db.sessions { EndingSignsNothing(db, LogoutKeys(db, sid), sid, now); }
  }

  lemma EndingSignsNothing(db: Db, keys: set<nat>, sid: nat, now: int)
    ensures var after := InvalidateSession(RevokeRefresh(db, keys, Some(now)), Some(sid)); after.jwts == db.jwts && after.access == db.access
  {
  }

  lemma RestSignsNothing(s: Sys, step: Step)
    requires Enabled(s, step) && !IsSignInStep(step) && !IsRefreshStep(step) && !IsIssueStep(step) && !IsSwitchStep(step) && !IsBulkStep(step)
    ensures SignsNothing(s, step)
  {
    match step
    case RevokeToken(token, owner) => RevokeSignsNothing(s.db, token, owner);
    case SignOut(owner, sid, jti, exp) => LogoutSignsNothing(s.db, owner, sid, jti, exp, s.now);
    case _ => if IsAccountStep(step) { AccountsSignNothing(s.db, step); }
  }

  /** A step other than the writing of an access token hands out none. */
  lemma OnlyWriteAccessSigns(s: Sys, step: Step)
    requires Enabled(s, step) && !step.WriteAccess?
    ensures SignsNothing(s, step)
  {
    if IsSignInStep(step) {
      SignInsSignNothing(s, step);
    } else if IsRefreshStep(step) {
      RefreshesSignNothing(s, step);
    } else if IsIssueStep(step) {
      WritesSignNothing(s, step);
    } else if IsSwitchStep(step) {
      SwitchesSignNothing(s, step);
    } else if IsBulkStep(step) {
      BulkSignsNothing(s, step);
    } else {
      RestSignsNothing(s, step);
    }
  }

  lemma TokensStayBacked(s: Sys, step: Step)
    requires Enabled(s, step) && LevelsInv(s)
    ensures TokensBacked(Apply(s, step).db)
  {
    StepEvolves(s, step);
    var r := Apply(s, step);
    if step.WriteAccess? {
      var g := s.procs[step.p].g;
      assert Claim(s.procs[step.p]) == (g.sessionId, g.level);
      assert r.db == IssueAccess(s.db, g, s.procs[step.p].at);
    } else {
      OnlyWriteAccessSigns(s, step);
    }
    forall j | j in r.db.jwts ensures Backed(r.db, r.db.jwts[j].sid, r.db.jwts[j].aal) {
      BackedLater(s.db, r.db, r.db.jwts[j].sid, r.db.jwts[j].aal);
    }
  }

  lemma SignInClaims(s: Sys, step: Step, p: nat)
    requires Enabled(s, step) && IsSignInStep(step) && Fresh(s.db) && CallersBacked(s) && p in Apply(s, step).procs
    ensures var c := Claim(Apply(s, step).procs[p]); Backed(s.db, c.0, c.1) || Backed(Apply(s, step).db, c.0, c.1)
  {
  }

  lemma RefreshClaims(s: Sys, step: Step, p: nat)
    requires Enabled(s, step) && (IsRefreshStep(step) || IsIssueStep(step)) && Fresh(s.db) && CallersBacked(s) && p in Apply(s, step).procs
    ensures var c := Claim(Apply(s, step).procs[p]); Backed(s.db, c.0, c.1)
  {
  }

  lemma OtherClaims(s: Sys, step: Step, p: nat)
    requires Enabled(s, step) && !IsSignInStep(step) && !IsRefreshStep(step) && !IsIssueStep(step)
    requires Fresh(s.db) && CallersBacked(s) && p in Apply(s, step).procs
    ensures var c := Claim(Apply(s, step).procs[p]); Backed(s.db, c.0, c.1)
  {
  }

  /** A caller's claim is the one it had, one the step itself backs, or one read from the session row. */
  lemma ClaimAfter(s: Sys, step: Step, p: nat)
    requires Enabled(s, step) && Fresh(s.db) && CallersBacked(s) && p in Apply(s, step).procs
    ensures var c := Claim(Apply(s, step).procs[p]); Backed(s.db, c.0, c.1) || Backed(Apply(s, step).db, c.0, c.1)
  {
    if IsSignInStep(step) {
      SignInClaims(s, step, p);
    } else if IsRefreshStep(step) || IsIssueStep(step) {
      RefreshClaims(s, step, p);
    } else {
      OtherClaims(s, step, p);
    }
  }

  lemma LevelsStep(s: Sys, step: Step)
    requires Enabled(s, step) && LevelsInv(s)
    ensures LevelsInv(Apply(s, step))
  {
    var r := Apply(s, step);
    StepEvolves(s, step);
    TokensStayBacked(s, step);
    forall p | p in r.procs ensures Backed(r.db, Claim(r.procs[p]).0, Claim(r.procs[p]).1) {
      ClaimAfter(s, step, p);
      if Backed(s.db, Claim(r.procs[p]).0, Claim(r.procs[p]).1) {
        BackedLater(s.db, r.db, Claim(r.procs[p]).0, Claim(r.procs[p]).1);
      }
    }
  }

  lemma {:induction false} LevelsRun(s: Sys, steps: seq<Step>)
    requires LevelsInv(s) && Run(s, steps).Some?
    ensures LevelsInv(Run(s, steps).value)
  {
    if steps != [] {
      LevelsRun(s, steps[..|steps| - 1]);
      LevelsStep(Run(s, steps[..|steps| - 1]).value, steps[|steps| - 1]);
    }
  }

  /** While the session row exists, no access token of it claims a higher level than it holds, at any moment
      after the token was signed. */
  lemma NoTokenOutclaimsItsSession(s: Sys, earlier: seq<Step>, later: seq<Step>, jti: nat)
    requires Init(s) && Run(s, earlier).Some? && jti in Run(s, earlier).value.db.jwts
    requires Run(Run(s, earlier).value, later).Some?
    ensures var at := Run(s, earlier).value.db;
      var end := Run(Run(s, earlier).value, later).value.db;
      && jti in end.jwts && end.jwts[jti] == at.jwts[jti]
      && Backed(at, at.jwts[jti].sid, at.jwts[jti].aal) && Backed(end, at.jwts[jti].sid, at.jwts[jti].aal)
  {
    LevelsRun(s, earlier);
    LevelsRun(Run(s, earlier).value, later);
    RunEvolves(Run(s, earlier).value, later);
  }

  // ---------------------------------------------------------------------------------------------
  // Parked sessions
  // ---------------------------------------------------------------------------------------------

  predicate Concerns(phase: Phase, sid: nat) {
    match phase
    case Swapping(t) => Names(t, sid)
    case ReadingLevel(t) => Names(t, sid)
    case Killing(t, _, _) => Names(t, sid)
    case Sweeping(t) => Names(t, sid)
    case Marking(t, _, _) => Names(t, sid)
    case Thrown(t, _) => Names(t, sid)
    case Issuing(g, _, _, _) => g.sessionId == sid
    case Binding(g, _, _, _) => g.sessionId == sid
    case SwitchRead(w) => w.sid == sid
    case SwitchCollected(w, _) => w.sid == sid
    case SwitchSwapped(w, _) => w.sid == sid
    case MfaChecked(q, _, _) => q == sid
    case _ => false
  }

  /** The session id that a rotation passes on. */
  predicate Names(t: Snapshot, sid: nat) { t.row.sessionId.GetOr(t.key) == sid }

  ghost predicate NoTokenOf(db: Db, sid: nat) {
    && (forall j | j in db.jwts :: db.jwts[j].sid != sid)
    && (forall j | j in db.access :: db.access[j].sessionId != sid)
    && (forall k | k in db.refresh :: db.refresh[k].sessionId.GetOr(k) != sid)
  }

  ghost predicate NobodyConcerns(procs: map<nat, Phase>, sid: nat) {
    forall p | p in procs :: !Concerns(procs[p], sid)
  }

  /** No token exists for the session and nobody is on the way to issuing one. A recovery handler that has
      checked the session is not: it has the update to get through. */
  ghost predicate Barren(s: Sys, sid: nat) {
    NoTokenOf(s.db, sid) && NobodyConcerns(s.procs, sid) && sid !in s.db.clients
  }

  predicate Shut(db: Db, sid: nat) { sid in db.sessions ==> !db.sessions[sid].valid }

  /** The id was drawn before the step or is still to be drawn after it. */
  predicate Settled(s: Sys, r: Sys, sid: nat) { sid < s.db.nextId || r.db.nextId <= sid }

  lemma SignersStayAway(s: Sys, step: Step, sid: nat)
    requires Enabled(s, step) && IsSignInStep(step) && NobodyConcerns(s.procs, sid) && sid !in s.db.clients
    requires Shut(s.db, sid) && !Revalidates(step, sid) && Settled(s, ApplySignIn(s, step), sid)
    ensures NobodyConcerns(ApplySignIn(s, step).procs, sid)
  {
  }

  lemma RefreshersStayAway(s: Sys, step: Step, sid: nat)
    requires Enabled(s, step) && IsRefreshStep(step) && Barren(s, sid)
    ensures NobodyConcerns(ApplyRefresh(s, step).procs, sid)
  {
  }

  lemma IssuersStayAway(s: Sys, step: Step, sid: nat)
    requires Enabled(s, step) && IsIssueStep(step) && NobodyConcerns(s.procs, sid)
    ensures NobodyConcerns(ApplyIssue(s, step).procs, sid)
  {
  }

  lemma SwitchersStayAway(s: Sys, step: Step, sid: nat)
    requires Enabled(s, step) && IsSwitchStep(step) && NobodyConcerns(s.procs, sid) && Shut(s.db, sid)
    ensures NobodyConcerns(ApplySwitch(s, step).procs, sid)
  {
  }

  lemma RestStayAway(s: Sys, step: Step, sid: nat)
    requires Enabled(s, step) && NobodyConcerns(s.procs, sid)
    requires !IsSignInStep(step) && !IsRefreshStep(step) && !IsIssueStep(step) && !IsSwitchStep(step)
    ensures NobodyConcerns(Apply(s, step).procs, sid)
  {
  }

  lemma CallersStayAway(s: Sys, step: Step, sid: nat)
    requires Enabled(s, step) && Barren(s, sid) && Shut(s.db, sid) && Settled(s, Apply(s, step), sid) && !Revalidates(step, sid)
    ensures NobodyConcerns(Apply(s, step).procs, sid)
  {
    if IsSignInStep(step) {
      SignersStayAway(s, step, sid);
    } else if IsRefreshStep(step) {
      RefreshersStayAway(s, step, sid);
    } else if IsIssueStep(step) {
      IssuersStayAway(s, step, sid);
    } else if IsSwitchStep(step) {
      SwitchersStayAway(s, step, sid);
    } else {
      RestStayAway(s, step, sid);
    }
  }

  lemma WritersStayAway(s: Sys, step: Step, sid: nat)
    requires Enabled(s, step) && Fresh(s.db) && Barren(s, sid) && (step.WriteAccess? || step.WriteRefresh?)
    ensures NoTokenOf(Apply(s, step).db, sid)
  {
    assert !Concerns(s.procs[step.p], sid);
    if step.WriteAccess? {
      assert Apply(s, step).db == IssueAccess(s.db, s.procs[step.p].g, s.procs[step.p].at);
    } else {
      assert Apply(s, step).db == IssueRefresh(s.db, s.procs[step.p].g, s.procs[step.p].at);
    }
  }

  /** A step that writes no token keeps what the rows that remain say. */
  lemma TokensStayAway(s: Sys, step: Step, sid: nat)
    requires Enabled(s, step) && Fresh(s.db) && Barren(s, sid)
    ensures NoTokenOf(Apply(s, step).db, sid)
  {
    if step.WriteAccess? || step.WriteRefresh? {
      WritersStayAway(s, step, sid);
    } else {
      StepEvolves(s, step);
      OnlyWriteAccessSigns(s, step);
      KeysOnlyShrink(s, step);
      KeptRowsStayAway(s.db, Apply(s, step).db, sid);
    }
  }

  lemma KeysOnlyShrink(s: Sys, step: Step)
    requires Enabled(s, step) && Fresh(s.db) && !step.WriteRefresh?
    ensures Apply(s, step).db.refresh.Keys <= s.db.refresh.Keys
  {
    if !Removes(step) { StepEvolves(s, step); }
  }

  lemma KeptRowsStayAway(a: Db, b: Db, sid: nat)
    requires NoTokenOf(a, sid) && Evolves(a, b) && b.jwts == a.jwts && b.access.Keys <= a.access.Keys && b.refresh.Keys <= a.refresh.Keys
    ensures NoTokenOf(b, sid)
  {
  }

  lemma BarrenStep(s: Sys, step: Step, sid: nat)
    requires Enabled(s, step) && Fresh(s.db) && Barren(s, sid) && Shut(s.db, sid) && Settled(s, Apply(s, step), sid)
    requires !Revalidates(step, sid)
    ensures Barren(Apply(s, step), sid)
  {
    TokensStayAway(s, step, sid);
    CallersStayAway(s, step, sid);
    StepEvolves(s, step);
  }

  /** A closed session without tokens: nothing it could be used for. */
  ghost predicate Parked(s: Sys, sid: nat, expiresAt: int) {
    Barren(s, sid) && Closed(s.db, sid, expiresAt)
  }

  lemma ParkedStep(s: Sys, step: Step, sid: nat, expiresAt: int)
    requires Enabled(s, step) && Fresh(s.db) && Parked(s, sid, expiresAt) && !Revalidates(step, sid)
    ensures Parked(Apply(s, step), sid, expiresAt)
  {
    ClosedStep(s, step, sid, expiresAt);
    BarrenStep(s, step, sid);
  }

  lemma {:induction false} ParkedRun(s: Sys, steps: seq<Step>, sid: nat, expiresAt: int)
    requires Fresh(s.db) && Run(s, steps).Some? && Parked(s, sid, expiresAt) && NoRecovery(steps, sid)
    ensures Parked(Run(s, steps).value, sid, expiresAt)
  {
    if steps != [] {
      var front := steps[..|steps| - 1];
      NoRecoveryFront(steps, sid);
      ParkedRun(s, front, sid, expiresAt);
      RunEvolves(s, front);
      ParkedStep(Run(s, front).value, steps[|steps| - 1], sid, expiresAt);
    }
  }

  /** No id that is still to be drawn is mentioned by any token or caller. */
  lemma {:induction false} UndrawnIsBarren(s: Sys, steps: seq<Step>, sid: nat)
    requires Init(s) && Run(s, steps).Some? && Run(s, steps).value.db.nextId <= sid
    ensures Barren(Run(s, steps).value, sid)
  {
    if steps != [] {
      var front, step := steps[..|steps| - 1], steps[|steps| - 1];
      var r := Run(s, front).value;
      RunEvolves(s, front);
      StepEvolves(r, step);
      UndrawnIsBarren(s, front, sid);
      BarrenStep(r, step, sid);
    }
  }

  lemma ParkingParks(s: Sys, step: Step)
    requires step.Park? && Enabled(s, step) && Fresh(s.db) && Barren(s, s.procs[step.p].sid)
    ensures var sid := s.procs[step.p].sid;
      Parked(Apply(s, step), sid, s.db.sessions[sid].expiresAt) && Fresh(Apply(s, step).db)
  {
    StepEvolves(s, step);
  }

  predicate Refused(s: Sys, sid: nat, p: nat, client: nat, who: nat) {
    && !Enabled(s, StartMfa(p, sid, client)) && !Enabled(s, StepUp(sid, who))
    && !Enabled(s, StartSwitch(p, sid, who, client)) && !Enabled(s, Exchange(p, sid, client, {}))
  }

  lemma InvalidIsRefused(s: Sys, sid: nat, expiresAt: int)
    requires Closed(s.db, sid, expiresAt)
    ensures forall p, client, who :: Refused(s, sid, p, client, who)
  {
  }

  /** A login that needs a second factor parks its session (in q) with a second write. If nobody has read the
      session by then, from then on, and until a recovery handler revalidates it, no access token, refresh token
      or issuing caller belongs to it, and neither MFA verification nor step-up, context switch or code exchange
      accepts it. */
  lemma ParkedSessionYieldsNothing(s: Sys, before: seq<Step>, q: Sys, park: Step, after: seq<Step>, r: Sys)
    requires Init(s) && Run(s, before) == Some(q) && park.Park? && Enabled(q, park) && Run(Apply(q, park), after) == Some(r)
    requires Barren(q, q.procs[park.p].sid) && NoRecovery(after, q.procs[park.p].sid)
    ensures var sid := q.procs[park.p].sid; Parked(r, sid, q.db.sessions[sid].expiresAt)
    ensures forall p, client, who :: Refused(r, q.procs[park.p].sid, p, client, who)
  {
    var sid := q.procs[park.p].sid;
    RunEvolves(s, before);
    ParkingParks(q, park);
    ParkedRun(Apply(q, park), after, sid, q.db.sessions[sid].expiresAt);
    InvalidIsRefused(r, sid, q.db.sessions[sid].expiresAt);
  }

  // ---------------------------------------------------------------------------------------------
  // Killed sessions
  // ---------------------------------------------------------------------------------------------

  /** A kill-chain past its session update. */
  predicate PastKill(phase: Phase) {
    (phase.Killing? && !phase.session) || phase.Sweeping? || phase.Marking? || phase.Thrown?
  }

  /** Step i of the run was this caller's session update, and unless a recovery handler revalidated the session
      since, it is invalid or gone. */
  ghost predicate KilledBy(steps: seq<Step>, i: nat, p: nat, db: Db, sid: nat) {
    && i < |steps| && steps[i] == KillSession(p)
    && (NoRecovery(steps[i..], sid) ==> sid < db.nextId && (sid in db.sessions ==> !db.sessions[sid].valid))
  }

  /** A caller gets past the session update only by it. */
  ghost predicate KillsInOrder(s: Sys, step: Step, p: nat)
    requires Enabled(s, step)
  {
    var r := Apply(s, step);
    p in r.procs && PastKill(r.procs[p]) ==>
      p in s.procs && (PastKill(s.procs[p]) || step == KillSession(p)) && s.procs[p].t == r.procs[p].t
  }

  lemma PastKillInRefresh(s: Sys, step: Step, p: nat)
    requires Enabled(s, step) && IsRefreshStep(step)
    ensures KillsInOrder(s, step, p)
  {
  }

  lemma PastKillInSignIn(s: Sys, step: Step, p: nat)
    requires Enabled(s, step) && IsSignInStep(step)
    ensures KillsInOrder(s, step, p)
  {
  }

  lemma PastKillElsewhere(s: Sys, step: Step, p: nat)
    requires Enabled(s, step) && !IsRefreshStep(step) && !IsSignInStep(step)
    ensures KillsInOrder(s, step, p)
  {
  }

  lemma PastKillStep(s: Sys, step: Step, p: nat)
    requires Enabled(s, step)
    ensures KillsInOrder(s, step, p)
  {
    if IsRefreshStep(step) {
      PastKillInRefresh(s, step, p);
    } else if IsSignInStep(step) {
      PastKillInSignIn(s, step, p);
    } else {
      PastKillElsewhere(s, step, p);
    }
  }

  lemma KilledByLater(steps: seq<Step>, i: nat, p: nat, s: Sys, sid: nat)
    requires steps != [] && Enabled(s, steps[|steps| - 1]) && KilledBy(steps[..|steps| - 1], i, p, s.db, sid)
    ensures KilledBy(steps, i, p, Apply(s, steps[|steps| - 1]).db, sid)
  {
    var front, step := steps[..|steps| - 1], steps[|steps| - 1];
    if NoRecovery(steps[i..], sid) {
      assert steps[i..][..|steps| - 1 - i] == front[i..];
      assert steps[i..][|steps| - 1 - i] == step;
      ClosedStep(s, step, sid, if sid in s.db.sessions then s.db.sessions[sid].expiresAt else 0);
    }
  }

  /** In every interleaving, whenever a kill-chain is past its session update, and so when it throws, the session
      of the replayed token is invalid or gone, unless it was revalidated by a recovery since that update. */
  lemma {:induction false} KilledSessionIsInvalid(s: Sys, steps: seq<Step>, p: nat, sid: nat)
    requires Init(s) && Run(s, steps).Some? && p in Run(s, steps).value.procs && PastKill(Run(s, steps).value.procs[p])
    requires Run(s, steps).value.procs[p].t.row.sessionId == Some(sid)
    ensures exists i :: KilledBy(steps, i, p, Run(s, steps).value.db, sid)
  {
    var front, step := steps[..|steps| - 1], steps[|steps| - 1];
    var q := Run(s, front).value;
    PastKillStep(q, step, p);
    if p in q.procs && PastKill(q.procs[p]) {
      KilledSessionIsInvalid(s, front, p, sid);
      var i :| KilledBy(front, i, p, q.db, sid);
      KilledByLater(steps, i, p, q, sid);
    } else {
      if q.db.nextId <= sid { UndrawnIsBarren(s, front, sid); }
      assert KilledBy(steps, |steps| - 1, p, Run(s, steps).value.db, sid);
    }
  }
}
