/** The token-cleanup job, src/jobs/token-cleanup.job.ts. */
module CleanupJob {
  import opened Tokens

  const RETAIN_MS := 7 * 24 * 60 * 60 * 1000

  // ---------------------------------------------------------------------------------------------
  // What cleanup deletes
  // ---------------------------------------------------------------------------------------------

  predicate AccessIsOld(r: AccessRow, now: int) {
    r.expiresAt < now - RETAIN_MS || (r.revoked && r.issuedAt < now - RETAIN_MS)
  }

  predicate RefreshIsOld(r: RefreshRow, now: int) {
    r.expiresAt < now - RETAIN_MS || (r.revoked && r.issuedAt < now - RETAIN_MS)
  }

  predicate SessionIsOld(r: SessionRow, now: int) {
    r.expiresAt < now - RETAIN_MS && (!r.valid || r.expiresAt < now)
  }

  function KeptAccess(m: map<nat, AccessRow>, now: int): map<nat, AccessRow> {
    map j | j in m && !AccessIsOld(m[j], now) :: m[j]
  }

  function KeptRefresh(m: map<nat, RefreshRow>, now: int): map<nat, RefreshRow> {
    map k | k in m && !RefreshIsOld(m[k], now) :: m[k]
  }

  function KeptJtis(m: map<nat, int>, now: int): map<nat, int> {
    map j | j in m && !(m[j] < now) :: m[j]
  }

  function KeptSessions(m: map<nat, SessionRow>, now: int): map<nat, SessionRow> {
    map q | q in m && !SessionIsOld(m[q], now) :: m[q]
  }

  function Cleaned(db: Db, now: int): Db {
    db.(access := KeptAccess(db.access, now), refresh := KeptRefresh(db.refresh, now),
        revokedJti := KeptJtis(db.revokedJti, now), sessions := KeptSessions(db.sessions, now))
  }

  /** What stays: tokens until a week after their expiry, or after their issue once they are revoked; recorded jtis to
      their expiry; sessions until a week after theirs, valid or not, as the second half of the source's condition
      on them follows from the first. Rows that stay are as they were, and so is everything else. */
  lemma CleanedRows(db: Db, now: int)
    ensures var after, week := Cleaned(db, now), 7 * 86_400_000;
      && after == db.(access := after.access, refresh := after.refresh, revokedJti := after.revokedJti, sessions := after.sessions)
      && (forall j :: j in after.access <==>
            j in db.access && now <= db.access[j].expiresAt + week && (db.access[j].revoked ==> now <= db.access[j].issuedAt + week))
      && (forall k :: k in after.refresh <==>
            k in db.refresh && now <= db.refresh[k].expiresAt + week && (db.refresh[k].revoked ==> now <= db.refresh[k].issuedAt + week))
      && (forall j :: j in after.revokedJti <==> j in db.revokedJti && now <= db.revokedJti[j])
      && (forall q :: q in after.sessions <==> q in db.sessions && now <= db.sessions[q].expiresAt + week)
      && (forall j | j in after.access :: after.access[j] == db.access[j])
      && (forall k | k in after.refresh :: after.refresh[k] == db.refresh[k])
      && (forall j | j in after.revokedJti :: after.revokedJti[j] == db.revokedJti[j])
      && (forall q | q in after.sessions :: after.sessions[q] == db.sessions[q])
  {
  }

  /** How one attempt at the cleanup transaction can go. */
  datatype Attempt = PoolBusy | OtherError | LockTaken | LockAcquired

  datatype Outcome = Thrown(last: Attempt) | Skipped | Deleted(access: nat, refresh: nat, jtis: nat, sessions: nat)

  /** Only busy pools came before attempt i. */
  predicate Reaches(attempts: seq<Attempt>, i: nat) {
    i < |attempts| && forall j | 0 <= j < i :: attempts[j].PoolBusy?
  }

  /** Attempt i was the last and r reports how it went. */
  predicate DecidedBy(attempts: seq<Attempt>, i: nat, r: Outcome) {
    && Reaches(attempts, i) && (attempts[i].PoolBusy? ==> i == 3)
    && r.Thrown? == (attempts[i].PoolBusy? || attempts[i].OtherError?)
    && r.Skipped? == attempts[i].LockTaken? && r.Deleted? == attempts[i].LockAcquired?
    && (r.Thrown? ==> r.last == attempts[i])
  }

  /** The first of the four attempts that does not find the pool busy decides: it deletes with the lock, skips
      without it, and throws another error; if all four find it busy, that is thrown. */
  lemma FirstOtherDecides(attempts: seq<Attempt>, i: nat, r: Outcome)
    requires |attempts| == 4 && DecidedBy(attempts, i, r)
    ensures r.Deleted? <==> exists j :: 0 <= j < 4 && attempts[j] == LockAcquired && forall x | 0 <= x < j :: attempts[x] == PoolBusy
    ensures r.Skipped? <==> exists j :: 0 <= j < 4 && attempts[j] == LockTaken && forall x | 0 <= x < j :: attempts[x] == PoolBusy
    ensures r == Thrown(PoolBusy) <==> forall j | 0 <= j < 4 :: attempts[j] == PoolBusy
    ensures r == Thrown(OtherError) <==> exists j :: 0 <= j < 4 && attempts[j] == OtherError && forall x | 0 <= x < j :: attempts[x] == PoolBusy
  {
    assert forall x | 0 <= x < i :: attempts[x] == PoolBusy;
    if attempts[i] == PoolBusy {
      assert forall j | 0 <= j < 4 :: attempts[j] == PoolBusy;
    }
  }

  predicate Counts(r: Outcome, before: Db, after: Db) {
    && r.Deleted?
    && r.access == |before.access| - |after.access| && r.refresh == |before.refresh| - |after.refresh|
    && r.jtis == |before.revokedJti| - |after.revokedJti| && r.sessions == |before.sessions| - |after.sessions|
  }

  method DeleteAccess(store: TokenStore, now: int) returns (count: nat)
    modifies store`access
    ensures store.access == KeptAccess(old(store.access), now) && count == |old(store.access)| - |store.access|
  {
    var rows, cutoff := store.access, now - RETAIN_MS;
    store.access := map k | k in rows
      && !(rows[k].expiresAt < cutoff || (rows[k].revoked && rows[k].issuedAt < cutoff)) :: rows[k];
    Shrinks(rows, store.access);
    count := |rows| - |store.access|;
  }

  method DeleteRefresh(store: TokenStore, now: int) returns (count: nat)
    modifies store`refresh
    ensures store.refresh == KeptRefresh(old(store.refresh), now) && count == |old(store.refresh)| - |store.refresh|
  {
    var rows, cutoff := store.refresh, now - RETAIN_MS;
    store.refresh := map k | k in rows
      && !(rows[k].expiresAt < cutoff || (rows[k].revoked && rows[k].issuedAt < cutoff)) :: rows[k];
    Shrinks(rows, store.refresh);
    count := |rows| - |store.refresh|;
  }

  method DeleteJtis(store: TokenStore, now: int) returns (count: nat)
    modifies store`revokedJti
    ensures store.revokedJti == KeptJtis(old(store.revokedJti), now) && count == |old(store.revokedJti)| - |store.revokedJti|
  {
    var rows := store.revokedJti;
    store.revokedJti := map k | k in rows && !(rows[k] < now) :: rows[k];
    Shrinks(rows, store.revokedJti);
    count := |rows| - |store.revokedJti|;
  }

  method DeleteSessions(store: TokenStore, now: int) returns (count: nat)
    modifies store`sessions
    ensures store.sessions == KeptSessions(old(store.sessions), now) && count == |old(store.sessions)| - |store.sessions|
  {
    var rows, cutoff := store.sessions, now - RETAIN_MS;
    store.sessions := map k | k in rows
      && !(rows[k].expiresAt < cutoff && (!rows[k].valid || rows[k].expiresAt < now)) :: rows[k];
    Shrinks(rows, store.sessions);
    count := |rows| - |store.sessions|;
  }

  /** The body of the cleanup transaction once the advisory lock is held. */
  method DeleteOld(store: TokenStore, now: int) returns (r: Outcome)
    modifies store
    ensures store.View() == Cleaned(old(store.View()), now) && Counts(r, old(store.View()), store.View())
  {
    var access := DeleteAccess(store, now);
    var refresh := DeleteRefresh(store, now);
    var jtis := DeleteJtis(store, now);
    var sessions := DeleteSessions(store, now);
    r := Outcome.Deleted(access, refresh, jtis, sessions);
  }

  /** runTokenCleanup: at most four attempts, of which only a busy pool is tried again. `attempts` is how
      they go; at most one transaction deletes, and it deletes exactly the old rows of all four tables. */
  method RunTokenCleanup(store: TokenStore, attempts: seq<Attempt>, now: int) returns (r: Outcome)
    requires |attempts| == 4
    modifies store
    ensures exists i :: DecidedBy(attempts, i, r)
    ensures r.Deleted? ==> store.View() == Cleaned(old(store.View()), now) && Counts(r, old(store.View()), store.View())
    ensures !r.Deleted? ==> store.View() == old(store.View())
  {
    var attempt := 0;
    while attempt <= 3
      invariant 0 <= attempt <= 3
      invariant forall j | 0 <= j < attempt :: attempts[j].PoolBusy?
      invariant store.View() == old(store.View())
    {
      match attempts[attempt] {
        case LockTaken =>
          assert DecidedBy(attempts, attempt, Skipped);
          return Skipped;
        case LockAcquired =>
          r := DeleteOld(store, now);
          assert DecidedBy(attempts, attempt, r);
          return;
        case OtherError =>
          assert DecidedBy(attempts, attempt, Thrown(OtherError));
          return Thrown(OtherError);
        case PoolBusy =>
          if attempt == 3 {
            assert DecidedBy(attempts, attempt, Thrown(PoolBusy));
            return Thrown(PoolBusy);
          }
          attempt := attempt + 1;
      }
    }
    assert false;
  }

  lemma SubsetIsSmaller(a: set<nat>, b: set<nat>)
    requires b <= a
    ensures |b| <= |a|
  {
    assert a == b + (a - b);
  }

  lemma Shrinks<V>(m: map<nat, V>, n: map<nat, V>)
    requires n.Keys <= m.Keys
    ensures |n| <= |m|
  {
    SubsetIsSmaller(m.Keys, n.Keys);
    assert |m| == |m.Keys| && |n| == |n.Keys|;
  }
}
