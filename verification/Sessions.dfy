/** Session creation with a cap, src/modules/auth/services/session.service.ts. */
module Sessions {
  import opened Options
  import opened Tokens

  datatype Session = Session(identityId: nat, valid: bool, createdAt: int, expiresAt: int, level: Level)

  type Table = map<string, Session>

  const DEFAULT_TTL_MINUTES := 10080

  predicate IsActive(r: Session, identity: nat, now: int) {
    r.identityId == identity && r.valid && r.expiresAt > now
  }

  function ActiveIds(m: Table, identity: nat, now: int): set<string> {
    set q | q in m && IsActive(m[q], identity, now)
  }

  function Evicted(before: Table, after: Table): set<string> {
    set q | q in before && q in after && before[q].valid && !after[q].valid
  }

  function Min(a: int, b: int): int { if a < b then a else b }

  /** How many active sessions a cap leaves no room for beside a new one. */
  function Excess(active: nat, cap: int): nat {
    if cap > 0 && active >= cap then active - cap + 1 else 0
  }

  /** `after` is `before` with `token` added and the oldest sessions over the cap invalidated. A cap of zero
      or less stands for none. */
  ghost predicate Admits(before: Table, after: Table, token: string, row: Session, cap: int, now: int) {
    var active, out := ActiveIds(before, row.identityId, now), Evicted(before, after);
    && token !in before && after.Keys == before.Keys + {token} && after[token] == row
    && (forall q | q in before :: after[q] == if q in out then before[q].(valid := false) else before[q])
    && out <= active && |out| == Excess(|active|, cap)
    && (forall e, q | e in out && q in active - out :: before[e].createdAt <= before[q].createdAt)
  }

  lemma SubsetSize<T>(a: set<T>, b: set<T>)
    requires a <= b
    ensures |a| <= |b| && |b - a| == |b| - |a|
  {
  }

  lemma ActiveAfter(before: Table, after: Table, token: string, row: Session, cap: int, now: int)
    requires Admits(before, after, token, row, cap, now) && IsActive(row, row.identityId, now)
    ensures ActiveIds(after, row.identityId, now) == (ActiveIds(before, row.identityId, now) - Evicted(before, after)) + {token}
  {
  }

  lemma OthersKeepTheirs(before: Table, after: Table, token: string, row: Session, cap: int, now: int, other: nat)
    requires Admits(before, after, token, row, cap, now) && other != row.identityId
    ensures ActiveIds(after, other, now) == ActiveIds(before, other, now)
  {
  }

  /** With a cap m the identity ends with min(active before, m - 1) + 1 active sessions, however far over the
      cap it was; the new one is among them, and no other identity's set of active sessions changes. */
  lemma CapLeaves(before: Table, after: Table, token: string, row: Session, cap: int, now: int)
    requires Admits(before, after, token, row, cap, now) && IsActive(row, row.identityId, now)
    ensures token in ActiveIds(after, row.identityId, now)
    ensures |ActiveIds(after, row.identityId, now)|
         == (if cap > 0 then Min(|ActiveIds(before, row.identityId, now)|, cap - 1) else |ActiveIds(before, row.identityId, now)|) + 1
    ensures forall other | other != row.identityId :: ActiveIds(after, other, now) == ActiveIds(before, other, now)
  {
    var active, out := ActiveIds(before, row.identityId, now), Evicted(before, after);
    ActiveAfter(before, after, token, row, cap, now);
    SubsetSize(out, active);
    assert token !in active - out;
    forall other | other != row.identityId ensures ActiveIds(after, other, now) == ActiveIds(before, other, now) {
      OthersKeepTheirs(before, after, token, row, cap, now, other);
    }
  }

  /** The same on the rows: how many unexpired valid sessions the identity is left with, that only such sessions of
      it are invalidated, none of them newer than one that stays, and that nothing else about any session changes. */
  lemma CapOnRows(before: Table, after: Table, token: string, row: Session, cap: int, now: int)
    requires Admits(before, after, token, row, cap, now) && row.valid && now < row.expiresAt
    ensures
      var a := set q | q in before && before[q].identityId == row.identityId && before[q].valid && now < before[q].expiresAt;
      var b := set q | q in after && after[q].identityId == row.identityId && after[q].valid && now < after[q].expiresAt;
      && token !in before && token in b && after[token] == row
      && |b| == (if cap > 0 && cap - 1 < |a| then cap else |a| + 1)
      && (forall q | q in before && q !in a :: q in after && after[q] == before[q])
      && (forall q | q in a && q in b :: after[q] == before[q])
      && (forall q | q in a && q !in b :: q in after && after[q] == before[q].(valid := false))
      && (forall e, q | e in a && e !in b && q in a && q in b :: before[e].createdAt <= before[q].createdAt)
  {
    CapLeaves(before, after, token, row, cap, now);
    var a := set q | q in before && before[q].identityId == row.identityId && before[q].valid && now < before[q].expiresAt;
    var b := set q | q in after && after[q].identityId == row.identityId && after[q].valid && now < after[q].expiresAt;
    assert a == ActiveIds(before, row.identityId, now) && b == ActiveIds(after, row.identityId, now);
  }

  /** Sign-ins under one cap, one after the other, with the clock moving on in between. */
  datatype SignIn = SignIn(token: string, row: Session, at: int)

  /** Tables before, between and after the sign-ins. */
  ghost predicate IsHistory(tables: seq<Table>, signIns: seq<SignIn>, cap: int) {
    && |tables| == |signIns| + 1
    && (forall i | 0 <= i < |signIns| ::
          && Admits(tables[i], tables[i + 1], signIns[i].token, signIns[i].row, cap, signIns[i].at)
          && IsActive(signIns[i].row, signIns[i].row.identityId, signIns[i].at)
          && (i > 0 ==> signIns[i - 1].at <= signIns[i].at))
  }

  lemma FewerLater(m: Table, identity: nat, now: int, later: int)
    requires now <= later
    ensures |ActiveIds(m, identity, later)| <= |ActiveIds(m, identity, now)|
  {
    SubsetSize(ActiveIds(m, identity, later), ActiveIds(m, identity, now));
  }

  /** In every history under a positive cap, an identity that was within the cap at the start stays within
      it, and one that signs in is within it afterwards wherever it started. */
  lemma {:induction false} CapIsKept(tables: seq<Table>, signIns: seq<SignIn>, cap: int, identity: nat, start: int)
    requires IsHistory(tables, signIns, cap) && cap > 0
    requires signIns != [] ==> start <= signIns[0].at
    requires |ActiveIds(tables[0], identity, start)| <= cap || exists i :: 0 <= i < |signIns| && signIns[i].row.identityId == identity
    ensures |ActiveIds(tables[|signIns|], identity, if signIns == [] then start else signIns[|signIns| - 1].at)| <= cap
  {
    if signIns != [] {
      var n := |signIns| - 1;
      var last := signIns[n];
      CapLeaves(tables[n], tables[n + 1], last.token, last.row, cap, last.at);
      if last.row.identityId != identity {
        CapIsKept(tables[..n + 1], signIns[..n], cap, identity, start);
        FewerLater(tables[n], identity, if n == 0 then start else signIns[n - 1].at, last.at);
      }
    }
  }

  class SessionService {
    var sessions: Table

    constructor ()
      ensures sessions == map[]
    {
      sessions := map[];
    }

    method Count(identity: nat, now: int) returns (n: nat)
      ensures n == |ActiveIds(sessions, identity, now)|
    {
      var active := set q | q in sessions && IsActive(sessions[q], identity, now);
      n := |active|;
    }

    method Oldest(ids: set<string>) returns (q: string)
      requires ids != {} && ids <= sessions.Keys
      ensures q in ids && forall x | x in ids :: sessions[q].createdAt <= sessions[x].createdAt
    {
      q :| q in ids;
      var rest := ids - {q};
      while rest != {}
        invariant rest <= ids && q in ids
        invariant forall x | x in ids - rest :: sessions[q].createdAt <= sessions[x].createdAt
        decreases |rest|
      {
        var x :| x in rest;
        if sessions[x].createdAt < sessions[q].createdAt {
          q := x;
        }
        rest := rest - {x};
      }
    }

    /** session.findMany ... orderBy createdAt asc, take. */
    method FindOldest(identity: nat, take: nat, now: int) returns (ids: set<string>)
      ensures var active := ActiveIds(sessions, identity, now);
        && ids <= active && |ids| == Min(take, |active|)
        && forall e, q | e in ids && q in active - ids :: sessions[e].createdAt <= sessions[q].createdAt
    {
      var rest := set q | q in sessions && IsActive(sessions[q], identity, now);
      ghost var active := rest;
      ids := {};
      while |ids| < take && rest != {}
        invariant active == ids + rest && ids !! rest && |ids| <= take
        invariant forall e, q | e in ids && q in rest :: sessions[e].createdAt <= sessions[q].createdAt
        decreases |rest|
      {
        var q := Oldest(rest);
        ids, rest := ids + {q}, rest - {q};
      }
      assert rest == active - ids;
      SubsetSize(ids, active);
    }

    /** `token` is the freshly drawn session token. */
    method Create(identity: nat, token: string, authLevel: Option<Level>, sessionTtlMinutes: Option<int>,
                  maxSessionsPerUser: Option<int>, now: int) returns (session: Session)
      requires token !in sessions
      modifies this
      ensures session == Session(identity, true, now, now + sessionTtlMinutes.GetOr(DEFAULT_TTL_MINUTES) * 60000, authLevel.GetOr(Aal1))
      ensures sessionTtlMinutes.None? ==> session.expiresAt == now + 7 * 86_400_000
      ensures Admits(old(sessions), sessions, token, session, maxSessionsPerUser.GetOr(0), now)
    {
      var ttlMinutes := sessionTtlMinutes.GetOr(DEFAULT_TTL_MINUTES);
      var expiresAt := now + ttlMinutes * 60000;
      if maxSessionsPerUser.Some? && maxSessionsPerUser.value > 0 {
        var activeCount := Count(identity, now);
        if activeCount >= maxSessionsPerUser.value {
          var excess := activeCount - maxSessionsPerUser.value + 1;
          var oldest := FindOldest(identity, excess, now);
          sessions := map q | q in sessions :: if q in oldest then sessions[q].(valid := false) else sessions[q];
          assert Evicted(old(sessions), sessions) == oldest;
        }
      }
      session := Session(identity, true, now, expiresAt, authLevel.GetOr(Aal1));
      ghost var evicted := Evicted(old(sessions), sessions);
      sessions := sessions[token := session];
      assert Evicted(old(sessions), sessions) == evicted;
    }
  }
}
