/** Access-token revocation through two tiers: the jti blocklist (Redis, or a per-process map when Redis is
    out of reach), src/lib/security/jti-blocklist.ts, and the RevokedJti table, as the guards of
    src/api/plugins/auth-guard.plugin.ts consult them while revocations, losses and cleanup go on. */
module AccessRevocation {
  import opened Options
  import opened Tokens
  import Requests

  // ---------------------------------------------------------------------------------------------
  // The blocklist
  // ---------------------------------------------------------------------------------------------

  /** Key to deadline in milliseconds; an entry counts up to and including its deadline. */
  type Store = map<string, int>

  const KEY_PREFIX := "arcid:" + "revoked_jti:"

  function JtiKey(jti: string): string { KEY_PREFIX + jti }

  lemma JtiKeyInjective(a: string, b: string)
    requires JtiKey(a) == JtiKey(b)
    ensures a == b
  {
    assert a == JtiKey(a)[|KEY_PREFIX|..] && b == JtiKey(b)[|KEY_PREFIX|..];
  }

  function Max(a: int, b: int): int { if a < b then b else a }

  /** Math.ceil(ms / 1000). */
  function CeilSeconds(ms: int): int { -((-ms) / 1000) }

  /** Seconds a revocation at `at` asks the blocklist to remember a token that expires at `expiresAt`. */
  function RemainingSeconds(expiresAt: int, at: int): int { Max(CeilSeconds(expiresAt - at), 1) }

  function Entered(m: Store, jti: string, ttlSeconds: int, now: int): Store {
    m[JtiKey(jti) := now + Max(ttlSeconds, 1) * 1000]
  }

  predicate Holds(m: Store, jti: string, now: int) {
    JtiKey(jti) in m && !(m[JtiKey(jti)] < now)
  }

  /** Rounding to seconds never lets a block lapse before the token's expiry, nor linger a second beyond it
      (a second beyond the revocation, for a token that had expired by then). */
  lemma BlockCoversToken(expiresAt: int, at: int)
    ensures expiresAt <= at + RemainingSeconds(expiresAt, at) * 1000
    ensures at + RemainingSeconds(expiresAt, at) * 1000 < Max(expiresAt, at + 1) + 1000
  {
  }

  class JtiBlocklist {
    var redis: Store
    var memStore: Store

    constructor ()
      ensures redis == map[] && memStore == map[]
    {
      redis, memStore := map[], map[];
    }

    /** `up` says whether a Redis client exists and the call on it succeeds. */
    method BlockJti(jti: string, ttlSeconds: int, now: int, up: bool)
      modifies this
      ensures redis == if up then Entered(old(redis), jti, ttlSeconds, now) else old(redis)
      ensures memStore == if up then old(memStore) else Entered(old(memStore), jti, ttlSeconds, now)
    {
      var ttl := if ttlSeconds < 1 then 1 else ttlSeconds;
      var key := JtiKey(jti);
      if up {
        redis := redis[key := now + ttl * 1000];
        return;
      }
      memStore := memStore[key := now + ttl * 1000];
    }

    /** Answers from Redis or from memory; a lapsed entry found in memory is dropped on the way. */
    method IsJtiBlocked(jti: string, now: int, up: bool) returns (blocked: bool)
      modifies this`memStore
      ensures blocked == Holds(if up then redis else old(memStore), jti, now)
      ensures memStore == if !up && JtiKey(jti) in old(memStore) && !blocked then old(memStore) - {JtiKey(jti)} else old(memStore)
      ensures forall t, later | now <= later :: Holds(memStore, t, later) == Holds(old(memStore), t, later)
    {
      var key := JtiKey(jti);
      if up {
        return key in redis && !(redis[key] < now);
      }
      if key !in memStore { return false; }
      if memStore[key] < now {
        memStore := memStore - {key};
        return false;
      }
      return true;
    }
  }

  // ---------------------------------------------------------------------------------------------
  // The guards
  // ---------------------------------------------------------------------------------------------

  /** What a verified signature vouches for. Absent and empty claims are both falsy. */
  datatype Claims = Claims(sub: string, jti: string, sid: string, scope: set<string>, exp: int)

  datatype Verdict = Pass | Unauthorized | Forbidden | Aal2Required | StepUpRequired

  /** The answer of requireUser when `tierOne` is the store its blocklist lookup reaches. */
  function UserVerdict(verified: Option<Claims>, tierOne: Store, revokedJti: map<string, int>, now: int): Verdict {
    if verified.None? || verified.value.sub == "" then Unauthorized
    else if verified.value.jti != "" && (Holds(tierOne, verified.value.jti, now) || verified.value.jti in revokedJti)
    then Unauthorized
    else Pass
  }

  /** The further answer of requireAal2, and with `elevated` of requireElevated. */
  function SessionVerdict(sessions: map<string, SessionRow>, sid: string, elevated: bool, now: int): Verdict {
    if sid == "" then Verdict.Forbidden
    else if sid !in sessions || !sessions[sid].valid || sessions[sid].expiresAt < now then Unauthorized
    else if sessions[sid].level != Some(Aal2) then Aal2Required
    else if elevated && (sessions[sid].elevatedAt.None? || now - sessions[sid].elevatedAt.value >= Requests.STEP_UP_WINDOW_MS)
    then StepUpRequired
    else Pass
  }

  function ScopeVerdict(verified: Option<Claims>, required: string): Verdict {
    if verified.Some? && required in verified.value.scope then Pass else Verdict.Forbidden
  }

  class AuthGuard {
    const blocklist: JtiBlocklist
    var revokedJti: map<string, int>
    var sessions: map<string, SessionRow>

    constructor (blocklist: JtiBlocklist)
      ensures this.blocklist == blocklist && revokedJti == map[] && sessions == map[]
    {
      this.blocklist := blocklist;
      revokedJti, sessions := map[], map[];
    }

    /** What a blocklist lookup reads. */
    function TierOne(up: bool): Store
      reads this, blocklist
    {
      if up then blocklist.redis else blocklist.memStore
    }

    /** requireUser on a token whose signature verifies; `verified` is None otherwise. */
    method RequireUser(verified: Option<Claims>, now: int, up: bool) returns (v: Verdict)
      modifies blocklist`memStore
      ensures v == UserVerdict(verified, old(TierOne(up)), revokedJti, now)
      ensures forall t, later | now <= later :: Holds(blocklist.memStore, t, later) == Holds(old(blocklist.memStore), t, later)
    {
      if verified.None? { return Unauthorized; }
      var payload := verified.value;
      if payload.sub == "" { return Unauthorized; }
      if payload.jti != "" {
        var blocked := blocklist.IsJtiBlocked(payload.jti, now, up);
        if blocked { return Unauthorized; }
        if payload.jti in revokedJti { return Unauthorized; }
      }
      return Pass;
    }

    method RequireScope(verified: Option<Claims>, required: string, now: int, up: bool) returns (v: Verdict)
      modifies blocklist`memStore
      ensures var user := UserVerdict(verified, old(TierOne(up)), revokedJti, now);
        v == if user.Pass? then ScopeVerdict(verified, required) else user
    {
      v := RequireUser(verified, now, up);
      if !v.Pass? { return; }
      if required !in verified.value.scope { return Verdict.Forbidden; }
    }

    method RequireAal2(verified: Option<Claims>, now: int, up: bool) returns (v: Verdict)
      modifies blocklist`memStore
      ensures var user := UserVerdict(verified, old(TierOne(up)), revokedJti, now);
        v == if user.Pass? then SessionVerdict(sessions, verified.value.sid, false, now) else user
    {
      v := RequireUser(verified, now, up);
      if !v.Pass? { return; }
      var sid := verified.value.sid;
      if sid == "" { return Verdict.Forbidden; }
      if sid !in sessions || !sessions[sid].valid || sessions[sid].expiresAt < now { return Unauthorized; }
      var level := sessions[sid].level.GetOr(Aal1);
      if level != Aal2 { return Aal2Required; }
    }

    method RequireElevated(verified: Option<Claims>, now: int, up: bool) returns (v: Verdict)
      modifies blocklist`memStore
      ensures var user := UserVerdict(verified, old(TierOne(up)), revokedJti, now);
        v == if user.Pass? then SessionVerdict(sessions, verified.value.sid, true, now) else user
    {
      v := RequireUser(verified, now, up);
      if !v.Pass? { return; }
      var sid := verified.value.sid;
      if sid == "" { return Verdict.Forbidden; }
      if sid !in sessions || !sessions[sid].valid || sessions[sid].expiresAt < now { return Unauthorized; }
      var level := sessions[sid].level.GetOr(Aal1);
      if level != Aal2 { return Aal2Required; }
      var elevatedAt := sessions[sid].elevatedAt;
      var isRecentlyElevated := elevatedAt.Some? && now - elevatedAt.value < Requests.STEP_UP_WINDOW_MS;
      if !isRecentlyElevated { return StepUpRequired; }
    }
  }

  /** The guards' answers are the acceptance relation that module Requests reasons about. */
  lemma PassMeansSatisfied(sessions: map<string, SessionRow>, sid: string, elevated: bool, now: int)
    ensures SessionVerdict(sessions, sid, elevated, now).Pass? <==>
      sid != "" && sid in sessions
      && Requests.SessionSatisfies(sessions[sid], if elevated then Requests.RecentStepUp else Requests.StrongSession, now)
  {
  }

  // ---------------------------------------------------------------------------------------------
  // Revocation, loss and cleanup side by side
  // ---------------------------------------------------------------------------------------------

  /** What is fixed when an access token is issued: the expiry its row stores and the one it is signed with. */
  datatype Token = Token(expiresAt: int, exp: int)

  datatype BlockWrite = BlockWrite(jti: string, ttl: int)

  datatype TableWrite = TableWrite(jti: string, expiresAt: int)

  /** `mems` are the in-memory fallbacks, one per process; the pending sets are writes on their way; `blocked`
      and `recorded` remember which jtis ever had a blocklist or a table write land. `inclusive`: whether
      signature verification still accepts a token in its exp millisecond. */
  datatype Sys = Sys(
    tokens: map<string, Token>, table: map<string, int>, redis: Store, mems: map<nat, Store>,
    blocks: set<BlockWrite>, records: set<TableWrite>, blocked: set<string>, recorded: set<string>,
    now: int, inclusive: bool)

  datatype Step =
    | Tick(ms: nat)
    | Issue(jti: string, ttl: nat, signAfter: nat)
    | Revoke(jti: string, byClaim: bool)               // logout goes by the exp claim, the others by the row
    | LandBlock(w: BlockWrite, p: nat, up: bool)
    | LandRecord(r: TableWrite)
    | DropBlock(w: BlockWrite)
    | DropRecord(r: TableWrite)
    | LoseRedis(keys: set<string>)
    | Restart(p: nat)
    | Sweep                                            // token cleanup

  function Mem(s: Sys, p: nat): Store { if p in s.mems then s.mems[p] else map[] }

  /** The exp claim of a token signed at `at` for `ttl` milliseconds: whole seconds, counted from the signing. */
  function SignedExp(at: int, ttl: int): int { at - at % 1000 + ttl }

  function Basis(t: Token, byClaim: bool): int { if byClaim then t.exp else t.expiresAt }

  predicate Enabled(s: Sys, step: Step) {
    match step
    case Issue(jti, _, _) => jti !in s.tokens && jti !in s.table && jti !in s.blocked && jti !in s.recorded
    case Revoke(jti, _) => jti in s.tokens
    case LandBlock(w, _, _) => w in s.blocks
    case LandRecord(r) => r in s.records
    case _ => true
  }

  function Apply(s: Sys, step: Step): Sys
    requires Enabled(s, step)
  {
    match step
    case Tick(ms) => s.(now := s.now + ms)
    case Issue(jti, ttl, signAfter) =>
      s.(tokens := s.tokens[jti := Token(s.now + ttl, SignedExp(s.now + signAfter, ttl))], now := s.now + signAfter)
    case Revoke(jti, byClaim) =>
      var e := Basis(s.tokens[jti], byClaim);
      s.(blocks := s.blocks + {BlockWrite(jti, RemainingSeconds(e, s.now))}, records := s.records + {TableWrite(jti, e)})
    case LandBlock(w, p, up) =>
      var s1 := s.(blocks := s.blocks - {w}, blocked := s.blocked + {w.jti});
      if up then s1.(redis := Entered(s.redis, w.jti, w.ttl, s.now))
      else s1.(mems := s.mems[p := Entered(Mem(s, p), w.jti, w.ttl, s.now)])
    case LandRecord(r) =>
      s.(records := s.records - {r}, recorded := s.recorded + {r.jti},
         table := if r.jti in s.table then s.table else s.table[r.jti := r.expiresAt])
    case DropBlock(w) => s.(blocks := s.blocks - {w})
    case DropRecord(r) => s.(records := s.records - {r})
    case LoseRedis(keys) => s.(redis := s.redis - keys)
    case Restart(p) => s.(mems := s.mems - {p})
    case Sweep => s.(table := map j | j in s.table && !(s.table[j] < s.now) :: s.table[j])
  }

  function Run(s: Sys, steps: seq<Step>): Option<Sys> {
    if steps == [] then Some(s)
    else match Run(s, steps[..|steps| - 1])
      case None => None
      case Some(r) => if Enabled(r, steps[|steps| - 1]) then Some(Apply(r, steps[|steps| - 1])) else None
  }

  predicate Init(s: Sys) {
    && s.tokens == map[] && s.table == map[] && s.redis == map[] && s.mems == map[]
    && s.blocks == {} && s.records == {} && s.blocked == {} && s.recorded == {}
  }

  /** The last millisecond at which the token's signature verifies. */
  function Until(s: Sys, t: Token): int { if s.inclusive then t.exp else t.exp - 1 }

  predicate Unexpired(s: Sys, jti: string) {
    jti in s.tokens && s.now <= Until(s, s.tokens[jti])
  }

  predicate TierOneHit(s: Sys, jti: string, p: nat, up: bool) {
    Holds(if up then s.redis else Mem(s, p), jti, s.now)
  }

  /** The guard's lookup in process p. */
  predicate LooksRevoked(s: Sys, jti: string, p: nat, up: bool) {
    TierOneHit(s, jti, p, up) || jti in s.table
  }

  /** The stored expiry is not earlier than the last moment the token is good for. */
  predicate Timely(s: Sys, jti: string) {
    jti in s.tokens && Until(s, s.tokens[jti]) <= s.tokens[jti].expiresAt
  }

  /** A token is timely exactly when no second began between the reading of the clock and the signing. */
  lemma TimelyIffSignedInTheSameSecond(s: Sys, jti: string, ttl: nat, signAfter: nat)
    requires Enabled(s, Issue(jti, ttl, signAfter))
    ensures Timely(Apply(s, Issue(jti, ttl, signAfter)), jti) <==>
      (s.now + signAfter) - (s.now + signAfter) % 1000 <= s.now + (if s.inclusive then 0 else 1)
  {
  }

  // ---------------------------------------------------------------------------------------------
  // Invariants
  // ---------------------------------------------------------------------------------------------

  /** Every expiry in the system comes from its token, rounded up at most. */
  ghost predicate OriginInv(s: Sys) {
    && (forall r | r in s.records :: r.jti in s.tokens && FromToken(s.tokens[r.jti], r.expiresAt))
    && (forall j | j in s.table :: j in s.tokens && FromToken(s.tokens[j], s.table[j]) && j in s.recorded)
    && (forall w | w in s.blocks :: w.jti in s.tokens && Covers(s.tokens[w.jti], s.now + Max(w.ttl, 1) * 1000))
  }

  predicate FromToken(t: Token, e: int) { e == t.expiresAt || e == t.exp }

  predicate Covers(t: Token, deadline: int) { t.expiresAt <= deadline || t.exp <= deadline }

  ghost predicate StoreInv(s: Sys, m: Store) {
    forall jti | JtiKey(jti) in m :: jti in s.tokens && jti in s.blocked && Covers(s.tokens[jti], m[JtiKey(jti)])
  }

  /** A recorded revocation of a timely token stays in the table for as long as the token verifies. */
  ghost predicate TableInv(s: Sys) {
    forall j | j in s.recorded :: j in s.tokens && (Timely(s, j) && Unexpired(s, j) ==> j in s.table)
  }

  ghost predicate Inv(s: Sys) {
    && OriginInv(s) && TableInv(s) && StoreInv(s, s.redis)
    && (forall p | p in s.mems :: StoreInv(s, s.mems[p]))
    && (forall j | j in s.blocked :: j in s.tokens)
  }

  lemma OriginStep(s: Sys, step: Step)
    requires Inv(s) && Enabled(s, step)
    ensures OriginInv(Apply(s, step))
  {
    if step.Revoke? {
      BlockCoversToken(Basis(s.tokens[step.jti], step.byClaim), s.now);
    }
  }

  lemma TableStep(s: Sys, step: Step)
    requires Inv(s) && Enabled(s, step)
    ensures TableInv(Apply(s, step))
  {
  }

  lemma StoreStep(s: Sys, step: Step, m: Store)
    requires Inv(s) && Enabled(s, step) && StoreInv(s, m)
    ensures StoreInv(Apply(s, step), m)
    ensures step.LandBlock? ==> StoreInv(Apply(s, step), Entered(m, step.w.jti, step.w.ttl, s.now))
  {
    forall jti | JtiKey(jti) in m
      ensures jti in Apply(s, step).tokens && Apply(s, step).tokens[jti] == s.tokens[jti] && jti in Apply(s, step).blocked
    {
    }
    if step.LandBlock? {
      forall jti | JtiKey(jti) == JtiKey(step.w.jti) ensures jti == step.w.jti { JtiKeyInjective(jti, step.w.jti); }
    }
  }

  lemma MemStep(s: Sys, step: Step, p: nat)
    requires Inv(s) && Enabled(s, step) && p in Apply(s, step).mems
    ensures StoreInv(Apply(s, step), Apply(s, step).mems[p])
  {
    StoreStep(s, step, map[]);
    if p in s.mems { StoreStep(s, step, s.mems[p]); }
  }

  lemma RedisStep(s: Sys, step: Step)
    requires Inv(s) && Enabled(s, step)
    ensures StoreInv(Apply(s, step), Apply(s, step).redis)
  {
    StoreStep(s, step, s.redis);
  }

  lemma StepInv(s: Sys, step: Step)
    requires Inv(s) && Enabled(s, step)
    ensures Inv(Apply(s, step))
  {
    OriginStep(s, step);
    TableStep(s, step);
    RedisStep(s, step);
    forall p | p in Apply(s, step).mems ensures StoreInv(Apply(s, step), Apply(s, step).mems[p]) {
      MemStep(s, step, p);
    }
  }

  lemma {:induction false} RunInv(s: Sys, steps: seq<Step>)
    requires Inv(s) && Run(s, steps).Some?
    ensures Inv(Run(s, steps).value)
  {
    if steps != [] {
      RunInv(s, steps[..|steps| - 1]);
      StepInv(Run(s, steps[..|steps| - 1]).value, steps[|steps| - 1]);
    }
  }

  lemma InitInv(s: Sys)
    requires Init(s)
    ensures Inv(s)
  {
  }

  // ---------------------------------------------------------------------------------------------
  // What the guard answers in every run
  // ---------------------------------------------------------------------------------------------

  /** In every run of issue, revocation, ticks, Redis loss, restarts, dropped blocklist writes and cleanup,
      every process refuses a timely token whose revocation was recorded, for as long as it verifies. */
  lemma RevokedIsRefused(s: Sys, steps: seq<Step>, claims: Claims, p: nat, up: bool)
    requires Init(s) && Run(s, steps).Some? && claims.jti != ""
    requires var r := Run(s, steps).value; claims.jti in r.recorded && Timely(r, claims.jti) && Unexpired(r, claims.jti)
    ensures var r := Run(s, steps).value;
      UserVerdict(Some(claims), if up then r.redis else Mem(r, p), r.table, r.now) == Unauthorized
  {
    InitInv(s);
    RunInv(s, steps);
  }

  /** While a timely token verifies, and unless only the blocklist write of its revocation landed, the
      two-tier lookup says what RevokedJti says, which is whether its revocation was ever recorded. */
  lemma LookupAgreesWithTable(s: Sys, steps: seq<Step>, jti: string, p: nat, up: bool)
    requires Init(s) && Run(s, steps).Some?
    requires var r := Run(s, steps).value; Timely(r, jti) && Unexpired(r, jti) && (jti in r.blocked ==> jti in r.recorded)
    ensures var r := Run(s, steps).value;
      && (LooksRevoked(r, jti, p, up) <==> jti in r.table)
      && (jti in r.table <==> jti in r.recorded)
  {
    InitInv(s);
    RunInv(s, steps);
    var r := Run(s, steps).value;
    assert StoreInv(r, Mem(r, p));
  }

  /** So in every run, under the same conditions, requireUser lets a token that verifies and has a subject through if
      and only if its revocation was never recorded; a token without a jti it always lets through, one that does
      not verify or has no subject never. */
  lemma GuardPassesIffNotRecorded(s: Sys, steps: seq<Step>, claims: Claims, p: nat, up: bool)
    requires Init(s) && Run(s, steps).Some? && claims.sub != "" && claims.jti != ""
    requires var r := Run(s, steps).value;
      Timely(r, claims.jti) && Unexpired(r, claims.jti) && (claims.jti in r.blocked ==> claims.jti in r.recorded)
    ensures var r := Run(s, steps).value;
      var verdict := UserVerdict(Some(claims), if up then r.redis else Mem(r, p), r.table, r.now);
      && (verdict == Pass <==> claims.jti !in r.recorded)
      && (verdict == Unauthorized <==> claims.jti in r.recorded)
  {
    LookupAgreesWithTable(s, steps, claims.jti, p, up);
  }

  /** In any state: a subject is needed, a jti is looked up in the tier that is up and then in the table, and
      nothing else matters. */
  lemma GuardAnswers(verified: Option<Claims>, tierOne: Store, table: map<string, int>, now: int)
    ensures var verdict := UserVerdict(verified, tierOne, table, now);
      && (verdict == Pass <==>
            && verified.Some? && verified.value.sub != ""
            && (verified.value.jti == ""
                || (verified.value.jti !in table
                    && (JtiKey(verified.value.jti) in tierOne ==> tierOne[JtiKey(verified.value.jti)] < now))))
      && (verdict != Pass ==> verdict == Unauthorized)
  {
  }

  /** Going by the table alone, the guard of module Requests is this one: a token that verifies is let through by one
      exactly if it is by the other, for any naming of its jtis. */
  lemma GuardsAgree(db: Db, jti: nat, name: nat -> string, sub: string, now: int)
    requires sub != "" && (forall i :: name(i) != "") && (forall i, j | name(i) == name(j) :: i == j)
    requires jti in db.jwts && now < db.jwts[jti].exp
    ensures var table := map j | j in db.revokedJti :: name(j) := db.revokedJti[j];
      Requests.GuardAccepts(db, jti, Requests.User, now) <==> UserVerdict(Some(Claims(sub, name(jti), "", {}, db.jwts[jti].exp)), map[], table, now) == Pass
  {
    var table := map j | j in db.revokedJti :: name(j) := db.revokedJti[j];
    if name(jti) in table {
      var j :| j in db.revokedJti && name(j) == name(jti);
    }
    if jti in db.revokedJti { assert name(jti) in table; }
  }

  lemma ScopeAnswers(verified: Option<Claims>, required: string)
    ensures ScopeVerdict(verified, required) == Pass <==> verified.Some? && required in verified.value.scope
    ensures ScopeVerdict(verified, required) != Pass ==> ScopeVerdict(verified, required) == Verdict.Forbidden
  {
  }

  /** The session guards' refusals, in the order in which they are given. */
  lemma SessionAnswers(sessions: map<string, SessionRow>, sid: string, elevated: bool, now: int)
    ensures var verdict := SessionVerdict(sessions, sid, elevated, now);
      && (verdict == Verdict.Forbidden <==> sid == "")
      && (verdict == Unauthorized <==> sid != "" && (sid in sessions ==> !sessions[sid].valid || sessions[sid].expiresAt < now))
      && (verdict == Aal2Required <==>
            sid != "" && sid in sessions && sessions[sid].valid && now <= sessions[sid].expiresAt && sessions[sid].level != Some(Aal2))
      && (verdict == StepUpRequired <==>
            && elevated && sid != "" && sid in sessions && sessions[sid].valid && now <= sessions[sid].expiresAt && sessions[sid].level == Some(Aal2)
            && !(sessions[sid].elevatedAt.Some? && now < sessions[sid].elevatedAt.value + 15 * 60_000))
      && (verdict == Pass <==>
            && sid != "" && sid in sessions && sessions[sid].valid && now <= sessions[sid].expiresAt && sessions[sid].level == Some(Aal2)
            && (elevated ==> sessions[sid].elevatedAt.Some? && now < sessions[sid].elevatedAt.value + 15 * 60_000))
  {
  }

  /** A block made at `at` for a number of seconds answers up to and including its last millisecond, at least one
      second, and touches no other jti. */
  lemma BlockedUntil(m: Store, jti: string, ttlSeconds: int, at: int, other: string, now: int)
    ensures Holds(Entered(m, jti, ttlSeconds, at), jti, now) <==> now <= at + (if ttlSeconds < 1 then 1000 else ttlSeconds * 1000)
    ensures other != jti ==> (Holds(Entered(m, jti, ttlSeconds, at), other, now) <==> Holds(m, other, now))
    ensures JtiKey(jti) == "arcid:revoked_jti:" + jti
  {
    if JtiKey(other) == JtiKey(jti) { JtiKeyInjective(other, jti); }
  }

  /** An entry that was not lost answers alone, without the table, until the token's stored or signed expiry,
      whichever is earlier. */
  lemma TierOneOutlastsToken(s: Sys, steps: seq<Step>, jti: string, p: nat, up: bool)
    requires Init(s) && Run(s, steps).Some?
    requires var r := Run(s, steps).value; JtiKey(jti) in (if up then r.redis else Mem(r, p))
    ensures var r := Run(s, steps).value;
      jti in r.tokens && (r.now <= r.tokens[jti].expiresAt && r.now <= r.tokens[jti].exp ==> TierOneHit(r, jti, p, up))
  {
    InitInv(s);
    RunInv(s, steps);
    var r := Run(s, steps).value;
    assert StoreInv(r, Mem(r, p));
  }

  // ---------------------------------------------------------------------------------------------
  // When enforcement can fail
  // ---------------------------------------------------------------------------------------------

  ghost predicate RefusedOnceRecorded(s: Sys, jti: string) {
    forall steps, p, up | Run(s, steps).Some? && jti in Run(s, steps).value.recorded && Unexpired(Run(s, steps).value, jti) ::
      LooksRevoked(Run(s, steps).value, jti, p, up)
  }

  lemma TokenStays(s: Sys, step: Step, jti: string)
    requires Enabled(s, step) && jti in s.tokens
    ensures var r := Apply(s, step); jti in r.tokens && r.tokens[jti] == s.tokens[jti] && r.inclusive == s.inclusive
  {
  }

  lemma {:induction false} TokensStay(s: Sys, steps: seq<Step>, jti: string)
    requires Run(s, steps).Some? && jti in s.tokens
    ensures var r := Run(s, steps).value; jti in r.tokens && r.tokens[jti] == s.tokens[jti] && r.inclusive == s.inclusive
  {
    if steps != [] {
      TokensStay(s, steps[..|steps| - 1], jti);
      TokenStays(Run(s, steps[..|steps| - 1]).value, steps[|steps| - 1], jti);
    }
  }

  lemma RunAppend(s: Sys, steps: seq<Step>, step: Step)
    requires Run(s, steps).Some? && Enabled(Run(s, steps).value, step)
    ensures Run(s, steps + [step]) == Some(Apply(Run(s, steps).value, step))
  {
  }

  /** Revoked and recorded under the row's expiry, swept after it, presented before its own. */
  lemma UntimelySlipsThrough(s: Sys, jti: string, p: nat) returns (steps: seq<Step>)
    requires Inv(s) && Unexpired(s, jti) && !Timely(s, jti) && jti !in s.recorded && jti !in s.blocked
    ensures Run(s, steps).Some?
    ensures var r := Run(s, steps).value; jti in r.recorded && Unexpired(r, jti) && !LooksRevoked(r, jti, p, true)
  {
    var w := TableWrite(jti, s.tokens[jti].expiresAt);
    var s1 := Apply(s, Revoke(jti, false));
    var s2 := Apply(s1, LandRecord(w));
    var wait := Tick(Max(w.expiresAt + 1 - s.now, 0));
    var s3 := Apply(s2, wait);
    steps := [];
    RunAppend(s, steps, Revoke(jti, false));
    steps := steps + [Revoke(jti, false)];
    RunAppend(s, steps, LandRecord(w));
    steps := steps + [LandRecord(w)];
    RunAppend(s, steps, wait);
    steps := steps + [wait];
    RunAppend(s, steps, Sweep);
    steps := steps + [Sweep];
    assert s3.table[jti] == w.expiresAt && s3.redis == s.redis;
  }

  /** A token not revoked so far is refused in every run that records its revocation if and only if it is
      timely: otherwise cleanup can drop the row while the token still verifies. */
  lemma RefusedIffTimely(s: Sys, steps: seq<Step>, jti: string)
    requires Init(s) && Run(s, steps).Some?
    requires var r := Run(s, steps).value; Unexpired(r, jti) && jti !in r.recorded && jti !in r.blocked
    ensures RefusedOnceRecorded(Run(s, steps).value, jti) <==> Timely(Run(s, steps).value, jti)
  {
    InitInv(s);
    RunInv(s, steps);
    var r := Run(s, steps).value;
    if Timely(r, jti) {
      forall more, p, up | Run(r, more).Some? && jti in Run(r, more).value.recorded && Unexpired(Run(r, more).value, jti)
        ensures LooksRevoked(Run(r, more).value, jti, p, up)
      {
        RunInv(r, more);
        TokensStay(r, more, jti);
      }
    } else {
      var more := UntimelySlipsThrough(r, jti, 0);
      assert !LooksRevoked(Run(r, more).value, jti, 0, true);
    }
  }
}
