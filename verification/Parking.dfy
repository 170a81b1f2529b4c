/** When a session that login has parked for a second factor can come to a token after all. Login creates the
    session valid and marks it invalid with a second write (src/modules/auth/flows/login.flow.ts:161-179), run
    outside a transaction (src/modules/auth/routes/login.route.ts:48-57). */
module Parking {
  import opened Options
  import opened Tokens
  import opened Protocol
  import opened Evolution
  import opened Rotation
  import opened Assurance

  ghost predicate HasToken(s: Sys, sid: nat) {
    exists j :: j in s.db.jwts && s.db.jwts[j].sid == sid
  }

  ghost predicate CanGetToken(s: Sys, sid: nat) {
    exists steps :: Run(s, steps).Some? && HasToken(Run(s, steps).value, sid)
  }

  lemma Then(a: Sys, steps: seq<Step>, b: Sys, step: Step)
    requires Run(a, steps) == Some(b) && Enabled(b, step)
    ensures Run(a, steps + [step]) == Some(Apply(b, step))
  {
    assert (steps + [step])[..|steps|] == steps;
  }

  // ---------------------------------------------------------------------------------------------
  // A reader between the two writes
  // ---------------------------------------------------------------------------------------------

  /** One identity, one client, nothing else. */
  function Bare(): Sys {
    Sys(Db(map[], map[], map[], map[], map[], map[], map[0 := Active], map[1 := {}], Config(900_000, 604_800_000), 2), map[], 0)
  }

  function PendingRow(valid: bool): SessionRow { SessionRow(0, None, valid, 600_000, Some(Aal1), None) }

  function ExchangeGrant(): Grant { Grant(0, 1, 2, Some(Aal1), None, {}) }

  /** Login has created the session; it is (not) parked yet, and a code exchange is (not) issuing for it. */
  function Between(valid: bool, parking: bool, issuing: bool): Sys {
    var parker := if parking then map[0 := Parking(2)] else map[];
    Bare().(db := Bare().db.(sessions := map[2 := PendingRow(valid)], nextId := 3),
            procs := if issuing then parker[1 := Issuing(ExchangeGrant(), 0, true, true)] else parker)
  }

  lemma LoginCreates()
    ensures Enabled(Bare(), SignInPending(0, 0, 600_000, {}))
    ensures Apply(Bare(), SignInPending(0, 0, 600_000, {})) == Between(true, true, false)
  {
    assert Evict(Bare().db, 0, {}).sessions == map[];
  }

  lemma ExchangeReads()
    ensures Enabled(Between(true, true, false), Exchange(1, 2, 1, {}))
    ensures Apply(Between(true, true, false), Exchange(1, 2, 1, {})) == Between(true, true, true)
  {
  }

  lemma LoginParks()
    ensures Enabled(Between(true, true, true), Park(0))
    ensures Apply(Between(true, true, true), Park(0)) == Between(false, false, true)
  {
  }

  lemma ExchangeWrites()
    ensures Enabled(Between(false, false, true), WriteAccess(1))
    ensures var r := Apply(Between(false, false, true), WriteAccess(1));
      HasToken(r, 2) && 2 in r.db.sessions && !r.db.sessions[2].valid
  {
    assert 3 in Apply(Between(false, false, true), WriteAccess(1)).db.jwts;
  }

  function Four(a: Step, b: Step, c: Step, d: Step): seq<Step> { [] + [a] + [b] + [c] + [d] }

  lemma FourWithout(a: Step, b: Step, c: Step, d: Step, sid: nat)
    requires !Revalidates(a, sid) && !Revalidates(b, sid) && !Revalidates(c, sid) && !Revalidates(d, sid)
    ensures NoRecovery(Four(a, b, c, d), sid)
  {
  }

  lemma FourSteps(s0: Sys, a: Step, s1: Sys, b: Step, s2: Sys, c: Step, s3: Sys, d: Step)
    requires Enabled(s0, a) && Apply(s0, a) == s1 && Enabled(s1, b) && Apply(s1, b) == s2
    requires Enabled(s2, c) && Apply(s2, c) == s3 && Enabled(s3, d)
    ensures Run(s0, Four(a, b, c, d)) == Some(Apply(s3, d))
  {
    Then(s0, [], s0, a);
    Then(s0, [] + [a], s1, b);
    Then(s0, [] + [a] + [b], s2, c);
    Then(s0, [] + [a] + [b] + [c], s3, d);
  }

  /** A code exchange that finds the session before it is parked issues a token for it afterwards, and no
      recovery handler has anything to do with it. */
  lemma ExchangeBeforeParking() returns (steps: seq<Step>, r: Sys)
    ensures Init(Bare()) && Run(Bare(), steps) == Some(r)
    ensures 2 in r.db.sessions && !r.db.sessions[2].valid && HasToken(r, 2)
    ensures NoRecovery(steps, 2)
  {
    var a, b, c, d := SignInPending(0, 0, 600_000, {}), Exchange(1, 2, 1, {}), Park(0), WriteAccess(1);
    LoginCreates();
    ExchangeReads();
    LoginParks();
    ExchangeWrites();
    FourSteps(Bare(), a, Between(true, true, false), b, Between(true, true, true), c, Between(false, false, true), d);
    FourWithout(a, b, c, d, 2);
    steps := Four(a, b, c, d);
    r := Apply(Between(false, false, true), d);
  }

  // ---------------------------------------------------------------------------------------------
  // The ways to a token
  // ---------------------------------------------------------------------------------------------

  ghost predicate HandlerAt(s: Sys, sid: nat) {
    exists p :: p in s.procs && s.procs[p].RecoverChecked? && s.procs[p].sid == sid
  }

  /** A recovery handler could still get through: it may pass its expiry check, or has passed it. */
  ghost predicate Recoverable(s: Sys, sid: nat) {
    sid in s.db.sessions && (s.db.sessions[sid].expiresAt > s.now || HandlerAt(s, sid))
  }

  predicate BoundLive(db: Db, w: Switch) { w.bound.None? || IsLive(db, w.bound.value) }

  /** A caller that read the session while it was valid, or holds a token of it, and can still issue for it. */
  predicate CanIssueFor(s: Sys, phase: Phase, sid: nat) {
    match phase
    case Swapping(t) => Names(t, sid) && IsLive(s.db, t.key) && CanIssue(s.db, t.row.identityId, t.row.clientId)
    case ReadingLevel(t) => Names(t, sid) && CanIssue(s.db, t.row.identityId, t.row.clientId)
    case Issuing(g, at, access, refresh) =>
      g.sessionId == sid && MayWrite(s.db, g) && (access || (refresh && s.now < at + s.db.config.refreshTtl))
    case Binding(g, at, access, key) => g.sessionId == sid && MayWrite(s.db, g) && access
    case SwitchRead(w) => w.sid == sid && CanIssue(s.db, w.identity, w.client) && BoundLive(s.db, w)
    case SwitchCollected(w, _) => w.sid == sid && CanIssue(s.db, w.identity, w.client) && BoundLive(s.db, w)
    case SwitchSwapped(w, _) => w.sid == sid && CanIssue(s.db, w.identity, w.client)
    case MfaChecked(q, i, c) => q == sid && sid in s.db.sessions && CanIssue(s.db, i, c)
    case _ => false
  }

  ghost predicate SomeCaller(s: Sys, sid: nat) {
    exists p :: p in s.procs && CanIssueFor(s, s.procs[p], sid)
  }

  /** A refresh token of the session that can be used. */
  predicate IsUsable(s: Sys, k: nat, sid: nat) {
    && k in s.db.refresh && s.db.refresh[k].sessionId.GetOr(k) == sid
    && !s.db.refresh[k].revoked && s.db.refresh[k].expiresAt > s.now
  }

  ghost predicate SomeUsable(s: Sys, sid: nat) { exists k :: IsUsable(s, k, sid) }

  ghost predicate HasWay(s: Sys, sid: nat) {
    HasToken(s, sid) || Recoverable(s, sid) || SomeCaller(s, sid) || SomeUsable(s, sid)
  }

  // ---------------------------------------------------------------------------------------------
  // Ids in use were drawn
  // ---------------------------------------------------------------------------------------------

  predicate PhaseDrawn(phase: Phase, nextId: nat) {
    match phase
    case Swapping(t) => SnapshotDrawn(t, nextId)
    case ReadingLevel(t) => SnapshotDrawn(t, nextId)
    case Issuing(g, _, _, _) => GrantDrawn(g, nextId)
    case Binding(g, _, _, key) => GrantDrawn(g, nextId) && key < nextId
    case SwitchRead(w) => SwitchDrawn(w, nextId)
    case SwitchCollected(w, _) => SwitchDrawn(w, nextId)
    case SwitchSwapped(w, _) => SwitchDrawn(w, nextId)
    case MfaChecked(_, i, c) => i < nextId && c < nextId
    case RecoverChecked(_, i, c) => i < nextId && c < nextId
    case _ => true
  }

  predicate SnapshotDrawn(t: Snapshot, nextId: nat) { t.key < nextId && t.row.identityId < nextId && t.row.clientId < nextId }

  predicate GrantDrawn(g: Grant, nextId: nat) { g.identityId < nextId && g.clientId < nextId }

  predicate SwitchDrawn(w: Switch, nextId: nat) {
    w.identity < nextId && w.client < nextId && (w.bound.Some? ==> w.bound.value < nextId)
  }

  ghost predicate CallersDrawn(s: Sys) { forall p | p in s.procs :: PhaseDrawn(s.procs[p], s.db.nextId) }

  ghost predicate BoundsDrawn(db: Db) {
    forall q | q in db.sessions && db.sessions[q].refreshTokenId.Some? :: db.sessions[q].refreshTokenId.value < db.nextId
  }

  ghost predicate AllDrawn(s: Sys) { Fresh(s.db) && CallersDrawn(s) && BoundsDrawn(s.db) }

  lemma DrawnLater(phase: Phase, nextId: nat, later: nat)
    requires PhaseDrawn(phase, nextId) && nextId <= later
    ensures PhaseDrawn(phase, later)
  {
  }

  lemma IdsGrow(s: Sys, step: Step)
    requires Enabled(s, step) && Fresh(s.db)
    ensures s.db.nextId <= Apply(s, step).db.nextId
  {
    StepEvolves(s, step);
  }

  lemma SignInsDraw(s: Sys, step: Step, p: nat)
    requires Enabled(s, step) && IsSignInStep(step) && AllDrawn(s) && p in Apply(s, step).procs
    ensures PhaseDrawn(Apply(s, step).procs[p], Apply(s, step).db.nextId)
  {
    IdsGrow(s, step);
    if p in s.procs { DrawnLater(s.procs[p], s.db.nextId, Apply(s, step).db.nextId); }
  }

  lemma RefreshesDraw(s: Sys, step: Step, p: nat)
    requires Enabled(s, step) && (IsRefreshStep(step) || IsIssueStep(step)) && AllDrawn(s) && p in Apply(s, step).procs
    ensures PhaseDrawn(Apply(s, step).procs[p], Apply(s, step).db.nextId)
  {
    IdsGrow(s, step);
    if p in s.procs { DrawnLater(s.procs[p], s.db.nextId, Apply(s, step).db.nextId); }
  }

  lemma SwitchesDraw(s: Sys, step: Step, p: nat)
    requires Enabled(s, step) && IsSwitchStep(step) && AllDrawn(s) && p in Apply(s, step).procs
    ensures PhaseDrawn(Apply(s, step).procs[p], Apply(s, step).db.nextId)
  {
    IdsGrow(s, step);
    if p in s.procs { DrawnLater(s.procs[p], s.db.nextId, Apply(s, step).db.nextId); }
  }

  lemma OthersDraw(s: Sys, step: Step, p: nat)
    requires Enabled(s, step) && AllDrawn(s) && p in Apply(s, step).procs
    requires !IsSignInStep(step) && !IsRefreshStep(step) && !IsIssueStep(step) && !IsSwitchStep(step)
    ensures PhaseDrawn(Apply(s, step).procs[p], Apply(s, step).db.nextId)
  {
    IdsGrow(s, step);
    if p in s.procs { DrawnLater(s.procs[p], s.db.nextId, Apply(s, step).db.nextId); }
  }

  lemma CallersStayDrawn(s: Sys, step: Step)
    requires Enabled(s, step) && AllDrawn(s)
    ensures CallersDrawn(Apply(s, step))
  {
    forall p | p in Apply(s, step).procs ensures PhaseDrawn(Apply(s, step).procs[p], Apply(s, step).db.nextId) {
      if IsSignInStep(step) {
        SignInsDraw(s, step, p);
      } else if IsRefreshStep(step) || IsIssueStep(step) {
        RefreshesDraw(s, step, p);
      } else if IsSwitchStep(step) {
        SwitchesDraw(s, step, p);
      } else {
        OthersDraw(s, step, p);
      }
    }
  }

  ghost predicate BindingStays(s: Sys, step: Step, q: nat)
    requires Enabled(s, step)
  {
    var a, b := s.db.sessions, Apply(s, step).db.sessions;
    q in b && b[q].refreshTokenId.Some? ==>
      (step.Bind? && b[q].refreshTokenId == Some(s.procs[step.p].key)) || (q in a && a[q].refreshTokenId == b[q].refreshTokenId)
  }

  /** Only binding changes what a session is bound to. */
  lemma BindingsStay(s: Sys, step: Step, q: nat)
    requires Enabled(s, step)
    ensures BindingStays(s, step, q)
  {
    if IsLoginStep(step) {
      LoginBindings(s, step, q);
    } else if IsSignInStep(step) {
      SignInBindings(s, step, q);
    } else if IsRefreshStep(step) || IsIssueStep(step) {
      TokenBindings(s, step, q);
    } else if IsSwitchStep(step) {
      SwitchBindings(s, step, q);
    } else if IsBulkStep(step) {
      BulkBindings(s, step, q);
    } else {
      RestBindings(s, step, q);
    }
  }

  lemma LoginBindings(s: Sys, step: Step, q: nat)
    requires Enabled(s, step) && IsLoginStep(step)
    ensures BindingStays(s, step, q)
  {
  }

  lemma SignInBindings(s: Sys, step: Step, q: nat)
    requires Enabled(s, step) && IsSignInStep(step) && !IsLoginStep(step)
    ensures BindingStays(s, step, q)
  {
  }

  lemma TokenBindings(s: Sys, step: Step, q: nat)
    requires Enabled(s, step) && (IsRefreshStep(step) || IsIssueStep(step))
    ensures BindingStays(s, step, q)
  {
  }

  lemma SwitchBindings(s: Sys, step: Step, q: nat)
    requires Enabled(s, step) && IsSwitchStep(step)
    ensures BindingStays(s, step, q)
  {
  }

  lemma BulkBindings(s: Sys, step: Step, q: nat)
    requires Enabled(s, step) && IsBulkStep(step)
    ensures BindingStays(s, step, q)
  {
  }

  predicate SameBindings(a: Db, b: Db, q: nat) {
    q in b.sessions ==> q in a.sessions && a.sessions[q].refreshTokenId == b.sessions[q].refreshTokenId
  }

  lemma RevokeKeepsBindings(db: Db, token: nat, owner: Option<nat>, q: nat)
    ensures SameBindings(db, Revoke(db, token, owner), q)
  {
  }

  lemma LogoutKeepsBindings(db: Db, owner: Option<nat>, sid: nat, jti: Option<nat>, exp: Option<int>, now: int, q: nat)
    ensures SameBindings(db, Logout(db, owner, sid, jti, exp, now), q)
  {
  }

  lemma RestBindings(s: Sys, step: Step, q: nat)
    requires Enabled(s, step) && !IsSignInStep(step) && !IsRefreshStep(step) && !IsIssueStep(step) && !IsSwitchStep(step)
    requires !IsBulkStep(step)
    ensures BindingStays(s, step, q)
  {
    match step
    case RevokeToken(token, owner) => RevokeKeepsBindings(s.db, token, owner, q);
    case SignOut(owner, sid, jti, exp) => LogoutKeepsBindings(s.db, owner, sid, jti, exp, s.now, q);
    case _ =>
  }

  lemma DrawnStep(s: Sys, step: Step)
    requires Enabled(s, step) && AllDrawn(s)
    ensures AllDrawn(Apply(s, step))
  {
    StepEvolves(s, step);
    CallersStayDrawn(s, step);
    forall q | q in Apply(s, step).db.sessions && Apply(s, step).db.sessions[q].refreshTokenId.Some?
      ensures Apply(s, step).db.sessions[q].refreshTokenId.value < Apply(s, step).db.nextId
    {
      BindingsStay(s, step, q);
      if step.Bind? { assert PhaseDrawn(s.procs[step.p], s.db.nextId); }
    }
  }

  lemma {:induction false} DrawnRun(s: Sys, steps: seq<Step>)
    requires AllDrawn(s) && Run(s, steps).Some?
    ensures AllDrawn(Run(s, steps).value)
  {
    if steps != [] {
      DrawnRun(s, steps[..|steps| - 1]);
      DrawnStep(Run(s, steps[..|steps| - 1]).value, steps[|steps| - 1]);
    }
  }

  // ---------------------------------------------------------------------------------------------
  // Without a way there is none later
  // ---------------------------------------------------------------------------------------------

  /** No way, and the session closed. */
  ghost predicate Lost(s: Sys, sid: nat, expiresAt: int) {
    AllDrawn(s) && Closed(s.db, sid, expiresAt) && sid !in s.db.clients && !HasWay(s, sid)
  }

  /** A phase that can issue later could before. */
  lemma CouldBefore(s: Sys, r: Sys, phase: Phase, sid: nat)
    requires Evolves(s.db, r.db) && s.now <= r.now && PhaseDrawn(phase, s.db.nextId) && sid < s.db.nextId && CanIssueFor(r, phase, sid)
    ensures CanIssueFor(s, phase, sid)
  {
  }

  /** Who is not moved by a step cannot issue after it either. */
  lemma BystanderCannot(s: Sys, step: Step, sid: nat, expiresAt: int, p: nat)
    requires Lost(s, sid, expiresAt) && Enabled(s, step)
    requires p in s.procs && p in Apply(s, step).procs && Apply(s, step).procs[p] == s.procs[p]
    ensures !CanIssueFor(Apply(s, step), Apply(s, step).procs[p], sid)
  {
    StepEvolves(s, step);
    assert !CanIssueFor(s, s.procs[p], sid) && PhaseDrawn(s.procs[p], s.db.nextId);
    if CanIssueFor(Apply(s, step), s.procs[p], sid) { CouldBefore(s, Apply(s, step), s.procs[p], sid); }
  }

  lemma SignInsCannot(s: Sys, step: Step, sid: nat, expiresAt: int, p: nat)
    requires Lost(s, sid, expiresAt) && Enabled(s, step) && IsSignInStep(step) && p in Apply(s, step).procs
    ensures !CanIssueFor(Apply(s, step), Apply(s, step).procs[p], sid)
  {
    if p !in s.procs {
      NewcomerCannot(s, step, sid, expiresAt, p);
    } else if Apply(s, step).procs[p] == s.procs[p] {
      BystanderCannot(s, step, sid, expiresAt, p);
    } else {
      OnlyHandlersMove(s, step, p);
      if step.Promote? { PromoteCannot(s, step, sid); } else { RevalidateCannot(s, step, sid, expiresAt); }
    }
  }

  /** Nobody reads a closed session as valid. */
  lemma NewcomerCannot(s: Sys, step: Step, sid: nat, expiresAt: int, p: nat)
    requires Lost(s, sid, expiresAt) && Enabled(s, step) && IsSignInStep(step) && p !in s.procs && p in Apply(s, step).procs
    ensures !CanIssueFor(Apply(s, step), Apply(s, step).procs[p], sid)
  {
  }

  lemma OnlyHandlersMove(s: Sys, step: Step, p: nat)
    requires Enabled(s, step) && IsSignInStep(step) && p in s.procs && p in Apply(s, step).procs
    requires Apply(s, step).procs[p] != s.procs[p]
    ensures (step.Promote? || step.Revalidate?) && step.p == p
  {
  }

  /** No handler is past its check for this session. */
  lemma RevalidateCannot(s: Sys, step: Step, sid: nat, expiresAt: int)
    requires Lost(s, sid, expiresAt) && Enabled(s, step) && step.Revalidate?
    ensures step.p in Apply(s, step).procs && !CanIssueFor(Apply(s, step), Apply(s, step).procs[step.p], sid)
  {
    assert HandlerAt(s, step.sid);
  }

  lemma PromoteCannot(s: Sys, step: Step, sid: nat)
    requires Enabled(s, step) && step.Promote? && AllDrawn(s) && sid < s.db.nextId && !CanIssueFor(s, s.procs[step.p], sid)
    ensures !CanIssueFor(Apply(s, step), Apply(s, step).procs[step.p], sid)
  {
  }

  lemma SwitcherCannot(s: Sys, step: Step, sid: nat)
    requires Enabled(s, step) && IsSwitchStep(step) && !step.StartSwitch? && AllDrawn(s) && sid < s.db.nextId
    requires !CanIssueFor(s, s.procs[step.p], sid) && step.p in Apply(s, step).procs
    ensures !CanIssueFor(Apply(s, step), Apply(s, step).procs[step.p], sid)
  {
    assert PhaseDrawn(s.procs[step.p], s.db.nextId);
  }

  lemma SwitchesCannot(s: Sys, step: Step, sid: nat, expiresAt: int, p: nat)
    requires Lost(s, sid, expiresAt) && Enabled(s, step) && IsSwitchStep(step) && p in Apply(s, step).procs
    ensures !CanIssueFor(Apply(s, step), Apply(s, step).procs[p], sid)
  {
    if p in s.procs {
      assert !CanIssueFor(s, s.procs[p], sid) && PhaseDrawn(s.procs[p], s.db.nextId);
      if p != step.p {
        BystanderCannot(s, step, sid, expiresAt, p);
      } else {
        SwitcherCannot(s, step, sid);
      }
    }
  }

  lemma RefresherCannot(s: Sys, step: Step, sid: nat)
    requires Enabled(s, step) && IsRefreshStep(step) && !step.StartRefresh? && AllDrawn(s) && sid < s.db.nextId
    requires !CanIssueFor(s, s.procs[step.p], sid) && step.p in Apply(s, step).procs
    ensures !CanIssueFor(Apply(s, step), Apply(s, step).procs[step.p], sid)
  {
    assert PhaseDrawn(s.procs[step.p], s.db.nextId);
  }

  lemma StarterCannot(s: Sys, step: Step, sid: nat)
    requires Enabled(s, step) && step.StartRefresh? && !IsUsable(s, step.token, sid)
    ensures !CanIssueFor(Apply(s, step), Apply(s, step).procs[step.p], sid)
  {
  }

  lemma RefreshesCannot(s: Sys, step: Step, sid: nat, expiresAt: int, p: nat)
    requires Lost(s, sid, expiresAt) && Enabled(s, step) && IsRefreshStep(step) && p in Apply(s, step).procs
    ensures !CanIssueFor(Apply(s, step), Apply(s, step).procs[p], sid)
  {
    if step.StartRefresh? && p == step.p {
      StarterCannot(s, step, sid);
    } else {
      assert !CanIssueFor(s, s.procs[p], sid) && PhaseDrawn(s.procs[p], s.db.nextId);
      if p != step.p {
        BystanderCannot(s, step, sid, expiresAt, p);
      } else {
        RefresherCannot(s, step, sid);
      }
    }
  }

  lemma IssuerCannot(s: Sys, step: Step, sid: nat)
    requires Enabled(s, step) && IsIssueStep(step) && AllDrawn(s) && sid < s.db.nextId
    requires !CanIssueFor(s, s.procs[step.p], sid) && step.p in Apply(s, step).procs
    ensures !CanIssueFor(Apply(s, step), Apply(s, step).procs[step.p], sid)
  {
    assert PhaseDrawn(s.procs[step.p], s.db.nextId);
  }

  lemma IssuersCannot(s: Sys, step: Step, sid: nat, expiresAt: int, p: nat)
    requires Lost(s, sid, expiresAt) && Enabled(s, step) && IsIssueStep(step) && p in Apply(s, step).procs
    ensures !CanIssueFor(Apply(s, step), Apply(s, step).procs[p], sid)
  {
    assert !CanIssueFor(s, s.procs[p], sid) && PhaseDrawn(s.procs[p], s.db.nextId);
    if p != step.p {
      BystanderCannot(s, step, sid, expiresAt, p);
    } else {
      IssuerCannot(s, step, sid);
    }
  }

  lemma OthersStand(s: Sys, step: Step, p: nat)
    requires Enabled(s, step) && p in Apply(s, step).procs
    requires !IsSignInStep(step) && !IsRefreshStep(step) && !IsIssueStep(step) && !IsSwitchStep(step)
    ensures (p in s.procs && Apply(s, step).procs[p] == s.procs[p]) || Apply(s, step).procs[p].BulkRead? || Apply(s, step).procs[p].BulkCollected?
  {
  }

  lemma OthersCannot(s: Sys, step: Step, sid: nat, expiresAt: int, p: nat)
    requires Lost(s, sid, expiresAt) && Enabled(s, step) && p in Apply(s, step).procs
    requires !IsSignInStep(step) && !IsRefreshStep(step) && !IsIssueStep(step) && !IsSwitchStep(step)
    ensures !CanIssueFor(Apply(s, step), Apply(s, step).procs[p], sid)
  {
    OthersStand(s, step, p);
    if p in s.procs && Apply(s, step).procs[p] == s.procs[p] { BystanderCannot(s, step, sid, expiresAt, p); }
  }

  lemma CallersCannot(s: Sys, step: Step, sid: nat, expiresAt: int)
    requires Lost(s, sid, expiresAt) && Enabled(s, step)
    ensures !SomeCaller(Apply(s, step), sid)
  {
    forall p | p in Apply(s, step).procs ensures !CanIssueFor(Apply(s, step), Apply(s, step).procs[p], sid) {
      if IsSignInStep(step) {
        SignInsCannot(s, step, sid, expiresAt, p);
      } else if IsSwitchStep(step) {
        SwitchesCannot(s, step, sid, expiresAt, p);
      } else if IsRefreshStep(step) {
        RefreshesCannot(s, step, sid, expiresAt, p);
      } else if IsIssueStep(step) {
        IssuersCannot(s, step, sid, expiresAt, p);
      } else {
        OthersCannot(s, step, sid, expiresAt, p);
      }
    }
  }

  lemma NoUsableAfter(s: Sys, step: Step, sid: nat, expiresAt: int)
    requires Lost(s, sid, expiresAt) && Enabled(s, step)
    ensures !SomeUsable(Apply(s, step), sid)
  {
    StepEvolves(s, step);
    RowsStay(s, step);
    if step.WriteRefresh? {
      WriteAddsOneRow(s, step);
      assert !CanIssueFor(s, s.procs[step.p], sid);
    }
    forall k ensures !IsUsable(Apply(s, step), k, sid) {
      assert !IsUsable(s, k, sid);
    }
  }

  lemma NoTokenAfter(s: Sys, step: Step, sid: nat, expiresAt: int)
    requires Lost(s, sid, expiresAt) && Enabled(s, step)
    ensures !HasToken(Apply(s, step), sid)
  {
    if step.WriteAccess? {
      assert !CanIssueFor(s, s.procs[step.p], sid);
      assert Apply(s, step).db == IssueAccess(s.db, s.procs[step.p].g, s.procs[step.p].at);
    } else {
      OnlyWriteAccessSigns(s, step);
    }
  }

  lemma HandlerIsOld(s: Sys, step: Step, p: nat)
    requires Enabled(s, step) && p in Apply(s, step).procs && Apply(s, step).procs[p].RecoverChecked?
    ensures (p in s.procs && s.procs[p] == Apply(s, step).procs[p]) || step == StartRecover(p, Apply(s, step).procs[p].sid, Apply(s, step).procs[p].client)
  {
  }

  /** Handlers appear only by passing the expiry check. */
  lemma HandlersCheck(s: Sys, step: Step, sid: nat)
    requires Enabled(s, step) && HandlerAt(Apply(s, step), sid) && !HandlerAt(s, sid)
    ensures sid in s.db.sessions && s.db.sessions[sid].expiresAt > s.now
  {
    var p :| p in Apply(s, step).procs && Apply(s, step).procs[p].RecoverChecked? && Apply(s, step).procs[p].sid == sid;
    HandlerIsOld(s, step, p);
  }

  lemma NotRecoverableAfter(s: Sys, step: Step, sid: nat, expiresAt: int)
    requires Lost(s, sid, expiresAt) && Enabled(s, step)
    ensures !Revalidates(step, sid) && Closed(Apply(s, step).db, sid, expiresAt) && !Recoverable(Apply(s, step), sid)
  {
    ClosedStep(s, step, sid, expiresAt);
    StepEvolves(s, step);
    if HandlerAt(Apply(s, step), sid) && !HandlerAt(s, sid) { HandlersCheck(s, step, sid); }
  }

  lemma LostStep(s: Sys, step: Step, sid: nat, expiresAt: int)
    requires Lost(s, sid, expiresAt) && Enabled(s, step)
    ensures Lost(Apply(s, step), sid, expiresAt)
  {
    DrawnStep(s, step);
    StepEvolves(s, step);
    NotRecoverableAfter(s, step, sid, expiresAt);
    CallersCannot(s, step, sid, expiresAt);
    NoUsableAfter(s, step, sid, expiresAt);
    NoTokenAfter(s, step, sid, expiresAt);
  }

  lemma {:induction false} LostForever(s: Sys, steps: seq<Step>, sid: nat, expiresAt: int)
    requires Lost(s, sid, expiresAt) && Run(s, steps).Some?
    ensures Lost(Run(s, steps).value, sid, expiresAt)
  {
    if steps != [] {
      LostForever(s, steps[..|steps| - 1], sid, expiresAt);
      LostStep(Run(s, steps[..|steps| - 1]).value, steps[|steps| - 1], sid, expiresAt);
    }
  }

  // ---------------------------------------------------------------------------------------------
  // With a way there is a token
  // ---------------------------------------------------------------------------------------------

  lemma TokenGets(a: Sys, steps: seq<Step>, b: Sys, sid: nat)
    requires Run(a, steps) == Some(b) && HasToken(b, sid)
    ensures CanGetToken(a, sid)
  {
  }

  lemma WriteGets(a: Sys, steps: seq<Step>, b: Sys, p: nat, sid: nat)
    requires Run(a, steps) == Some(b) && Enabled(b, WriteAccess(p)) && b.procs[p].g.sessionId == sid
    ensures CanGetToken(a, sid)
  {
    var r := Apply(b, WriteAccess(p));
    Then(a, steps, b, WriteAccess(p));
    assert b.db.nextId in r.db.jwts && r.db.jwts[b.db.nextId].sid == sid;
    TokenGets(a, steps + [WriteAccess(p)], r, sid);
  }

  lemma SwappedGets(a: Sys, steps: seq<Step>, b: Sys, p: nat, sid: nat)
    requires Run(a, steps) == Some(b) && p in b.procs && b.procs[p].SwitchSwapped? && CanIssueFor(b, b.procs[p], sid)
    ensures CanGetToken(a, sid)
  {
    Then(a, steps, b, SwitchBlock(p));
    WriteGets(a, steps + [SwitchBlock(p)], Apply(b, SwitchBlock(p)), p, sid);
  }

  lemma CollectedGets(a: Sys, steps: seq<Step>, b: Sys, p: nat, sid: nat)
    requires Run(a, steps) == Some(b) && p in b.procs && b.procs[p].SwitchCollected? && CanIssueFor(b, b.procs[p], sid)
    ensures CanGetToken(a, sid)
  {
    Then(a, steps, b, SwitchSwap(p));
    SwappedGets(a, steps + [SwitchSwap(p)], Apply(b, SwitchSwap(p)), p, sid);
  }

  lemma ReadGets(a: Sys, steps: seq<Step>, b: Sys, p: nat, sid: nat)
    requires Run(a, steps) == Some(b) && p in b.procs && b.procs[p].SwitchRead? && CanIssueFor(b, b.procs[p], sid)
    ensures CanGetToken(a, sid)
  {
    Then(a, steps, b, SwitchCollect(p));
    CollectedGets(a, steps + [SwitchCollect(p)], Apply(b, SwitchCollect(p)), p, sid);
  }

  lemma ReadingGets(a: Sys, steps: seq<Step>, b: Sys, p: nat, sid: nat)
    requires Run(a, steps) == Some(b) && p in b.procs && b.procs[p].ReadingLevel? && CanIssueFor(b, b.procs[p], sid)
    ensures CanGetToken(a, sid)
  {
    Then(a, steps, b, ReadLevel(p, {}));
    WriteGets(a, steps + [ReadLevel(p, {})], Apply(b, ReadLevel(p, {})), p, sid);
  }

  lemma SwappingGets(a: Sys, steps: seq<Step>, b: Sys, p: nat, sid: nat)
    requires Run(a, steps) == Some(b) && p in b.procs && b.procs[p].Swapping? && CanIssueFor(b, b.procs[p], sid)
    ensures CanGetToken(a, sid)
  {
    Then(a, steps, b, Swap(p));
    ReadingGets(a, steps + [Swap(p)], Apply(b, Swap(p)), p, sid);
  }

  lemma MfaGets(a: Sys, steps: seq<Step>, b: Sys, p: nat, sid: nat)
    requires Run(a, steps) == Some(b) && p in b.procs && b.procs[p].MfaChecked? && CanIssueFor(b, b.procs[p], sid)
    ensures CanGetToken(a, sid)
  {
    Then(a, steps, b, Promote(p));
    WriteGets(a, steps + [Promote(p)], Apply(b, Promote(p)), p, sid);
  }

  lemma FreeCaller(procs: set<nat>) returns (p: nat)
    ensures p !in procs
    ensures forall q | q in procs :: q < p
  {
    if procs == {} {
      p := 0;
    } else {
      var x :| x in procs;
      var rest := procs - {x};
      var y := FreeCaller(rest);
      assert procs == rest + {x};
      p := if x < y then y else x + 1;
    }
  }

  lemma UsableGets(a: Sys, steps: seq<Step>, b: Sys, k: nat, sid: nat)
    requires Run(a, steps) == Some(b) && IsUsable(b, k, sid) && Linked(b.db)
    ensures CanGetToken(a, sid)
  {
    var p := FreeCaller(b.procs.Keys);
    var r := Apply(b, StartRefresh(p, k));
    Then(a, steps, b, StartRefresh(p, k));
    assert r.procs[p] == Swapping(Snapshot(k, b.db.refresh[k])) && r.db == b.db;
    SwappingGets(a, steps + [StartRefresh(p, k)], r, p, sid);
  }

  /** A caller with only the refresh token left to write. */
  lemma ChildGets(a: Sys, steps: seq<Step>, b: Sys, p: nat, sid: nat)
    requires Run(a, steps) == Some(b) && p in b.procs && b.procs[p].Issuing? && CanIssueFor(b, b.procs[p], sid)
    requires b.procs[p].refresh && b.now < b.procs[p].at + b.db.config.refreshTtl && Linked(b.db)
    ensures CanGetToken(a, sid)
  {
    var r := Apply(b, WriteRefresh(p));
    Then(a, steps, b, WriteRefresh(p));
    WriteAddsOneRow(b, WriteRefresh(p));
    assert IsUsable(r, b.db.nextId, sid);
    WriteLinks(b, p);
    UsableGets(a, steps + [WriteRefresh(p)], r, b.db.nextId, sid);
  }

  lemma WriteLinks(b: Sys, p: nat)
    requires Enabled(b, WriteRefresh(p)) && Linked(b.db)
    ensures Linked(Apply(b, WriteRefresh(p)).db)
  {
  }

  lemma CallerGets(a: Sys, steps: seq<Step>, b: Sys, p: nat, sid: nat)
    requires Run(a, steps) == Some(b) && p in b.procs && CanIssueFor(b, b.procs[p], sid) && Linked(b.db)
    ensures CanGetToken(a, sid)
  {
    match b.procs[p]
    case Swapping(_) => SwappingGets(a, steps, b, p, sid);
    case ReadingLevel(_) => ReadingGets(a, steps, b, p, sid);
    case Issuing(_, _, access, _) => if access { WriteGets(a, steps, b, p, sid); } else { ChildGets(a, steps, b, p, sid); }
    case Binding(_, _, _, _) => WriteGets(a, steps, b, p, sid);
    case SwitchRead(_) => ReadGets(a, steps, b, p, sid);
    case SwitchCollected(_, _) => CollectedGets(a, steps, b, p, sid);
    case SwitchSwapped(_, _) => SwappedGets(a, steps, b, p, sid);
    case MfaChecked(_, _, _) => MfaGets(a, steps, b, p, sid);
  }

  /** A valid session: somebody registers a client and exchanges a code for it. */
  lemma ValidGets(a: Sys, steps: seq<Step>, b: Sys, sid: nat)
    requires Run(a, steps) == Some(b) && sid in b.db.sessions && b.db.sessions[sid].valid && b.db.sessions[sid].identityId in b.db.identities
    ensures CanGetToken(a, sid)
  {
    var c := b.db.nextId;
    var s1 := Apply(b, AddClient({}));
    Then(a, steps, b, AddClient({}));
    var p := FreeCaller(s1.procs.Keys);
    Then(a, steps + [AddClient({})], s1, Exchange(p, sid, c, {}));
    var s2 := Apply(s1, Exchange(p, sid, c, {}));
    WriteGets(a, steps + [AddClient({})] + [Exchange(p, sid, c, {})], s2, p, sid);
  }

  lemma HandlerGets(a: Sys, steps: seq<Step>, b: Sys, sid: nat, p: nat)
    requires Run(a, steps) == Some(b) && sid in b.db.sessions && b.db.sessions[sid].identityId in b.db.identities
    requires p in b.procs && b.procs[p].RecoverChecked? && b.procs[p].sid == sid
    ensures CanGetToken(a, sid)
  {
    Then(a, steps, b, Revalidate(p, sid));
    ValidGets(a, steps + [Revalidate(p, sid)], Apply(b, Revalidate(p, sid)), sid);
  }

  lemma RecoverableGets(s: Sys, sid: nat)
    requires Recoverable(s, sid) && Fresh(s.db)
    ensures CanGetToken(s, sid)
  {
    assert Run(s, []) == Some(s);
    if HandlerAt(s, sid) {
      var p :| p in s.procs && s.procs[p].RecoverChecked? && s.procs[p].sid == sid;
      HandlerGets(s, [], s, sid, p);
    } else {
      var p := FreeCaller(s.procs.Keys);
      Then(s, [], s, StartRecover(p, sid, 0));
      HandlerGets(s, [] + [StartRecover(p, sid, 0)], Apply(s, StartRecover(p, sid, 0)), sid, p);
    }
  }

  // ---------------------------------------------------------------------------------------------
  // The exact condition
  // ---------------------------------------------------------------------------------------------

  /** In every run, an invalid or deleted session can come to a token in some later state if and only if it has
      one, a recovery handler can still get through, a caller that read it while it was valid can still issue for
      it, or a refresh token of it can still be used. */
  lemma ClosedComesToTokenIff(start: Sys, before: seq<Step>, s: Sys, sid: nat, expiresAt: int)
    requires Init(start) && Run(start, before) == Some(s) && Closed(s.db, sid, expiresAt) && sid !in s.db.clients
    ensures CanGetToken(s, sid) <==> HasToken(s, sid) || Recoverable(s, sid) || SomeCaller(s, sid) || SomeUsable(s, sid)
  {
    DrawnRun(start, before);
    assert Run(s, []) == Some(s);
    if !HasWay(s, sid) {
      forall steps | Run(s, steps).Some? ensures !HasToken(Run(s, steps).value, sid) {
        LostForever(s, steps, sid, expiresAt);
      }
    } else if HasToken(s, sid) {
      TokenGets(s, [], s, sid);
    } else if Recoverable(s, sid) {
      RecoverableGets(s, sid);
    } else if SomeCaller(s, sid) {
      var p :| p in s.procs && CanIssueFor(s, s.procs[p], sid);
      CallerGets(s, [], s, p, sid);
    } else {
      var k :| IsUsable(s, k, sid);
      UsableGets(s, [], s, k, sid);
    }
  }

  lemma BarrenHasNone(s: Sys, sid: nat)
    requires Barren(s, sid)
    ensures !HasToken(s, sid) && !SomeCaller(s, sid) && !SomeUsable(s, sid)
  {
    forall p | p in s.procs ensures !CanIssueFor(s, s.procs[p], sid) {
      assert !Concerns(s.procs[p], sid);
    }
  }

  /** For a session that nobody had read when it was parked, the recovery handler is the one way, open while the
      row exists and is either unexpired or already past some handler's expiry check, which the handler does not
      repeat when it writes. */
  lemma ParkedOpensIffRecoverable(start: Sys, before: seq<Step>, s: Sys, sid: nat, expiresAt: int)
    requires Init(start) && Run(start, before) == Some(s) && Parked(s, sid, expiresAt)
    ensures CanGetToken(s, sid) <==> Recoverable(s, sid)
  {
    BarrenHasNone(s, sid);
    ClosedComesToTokenIff(start, before, s, sid, expiresAt);
  }
}
