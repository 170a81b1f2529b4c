/** What refresh-token rotation keeps in every interleaving of module Protocol, cleanup and account deletion
    included (section 6 of RFC 6749, section 4.14 of RFC 9700): one linear chain per family with one holder at
    most, of which cleanup takes rows from the old end only and deletion all rows at once, and what a kill-chain
    does and does not achieve while other callers run. */
module Rotation {
  import opened Options
  import opened Tokens
  import opened Protocol
  import opened Evolution
  import CleanupJob

  type Rows = map<nat, RefreshRow>

  // ---------------------------------------------------------------------------------------------
  // Families as chains
  // ---------------------------------------------------------------------------------------------

  /** Every token a family ever had, oldest first, the first `gone` of them deleted; and whose they are, by
      identity and client. */
  datatype Chain = Chain(keys: seq<nat>, gone: nat, owner: (nat, nat))

  function Last(c: Chain): nat
    requires c.keys != []
  {
    c.keys[|c.keys| - 1]
  }

  function ParentIn(keys: seq<nat>, i: nat): Option<nat>
    requires i < |keys|
  {
    if i == 0 then None else Some(keys[i - 1])
  }

  /** Row i of a chain names the token before it as its parent and, unless it is the last, is revoked. */
  ghost predicate Link(m: Rows, family: nat, keys: seq<nat>, i: nat)
    requires i < |keys|
  {
    && keys[i] in m && m[keys[i]].familyId == family && m[keys[i]].parentJti == ParentIn(keys, i)
    && (i < |keys| - 1 ==> m[keys[i]].revoked)
  }

  /** The surviving rows of the family are the chain from `gone` on, dated in its order. */
  ghost predicate IsChain(m: Rows, family: nat, c: Chain) {
    && c.keys != [] && c.gone <= |c.keys|
    && (forall i: nat | c.gone <= i < |c.keys| :: Link(m, family, c.keys, i))
    && (forall i, j | 0 <= i < j < |c.keys| :: c.keys[i] < c.keys[j])
    && (forall i, j | c.gone <= i < j < |c.keys| && c.keys[i] in m && c.keys[j] in m :: m[c.keys[i]].issuedAt <= m[c.keys[j]].issuedAt)
    && (forall k | k in m && m[k].familyId == family :: k in c.keys[c.gone..])
  }

  lemma PlaceOf(m: Rows, family: nat, c: Chain, k: nat) returns (i: nat)
    requires IsChain(m, family, c) && k in m && m[k].familyId == family
    ensures c.gone <= i < |c.keys| && c.keys[i] == k && Link(m, family, c.keys, i)
  {
    var j :| 0 <= j < |c.keys[c.gone..]| && c.keys[c.gone..][j] == k;
    i := c.gone + j;
  }

  lemma ChainSurvivesRevocation(m: Rows, n: Rows, family: nat, c: Chain)
    requires IsChain(m, family, c) && OnlyRevokes(m, n)
    ensures IsChain(n, family, c)
  {
    forall i: nat | c.gone <= i < |c.keys| ensures Link(n, family, c.keys, i) {
      assert Link(m, family, c.keys, i);
    }
  }

  lemma GrownCovers(m: Rows, family: nat, c: Chain, key: nat, row: RefreshRow, k: nat)
    requires IsChain(m, family, c) && k in m[key := row] && m[key := row][k].familyId == family
    ensures k in (c.keys + [key])[c.gone..]
  {
    var keys := c.keys + [key];
    if k == key {
      assert keys[c.gone..][|c.keys| - c.gone] == key;
    } else {
      var i := PlaceOf(m, family, c, k);
      assert keys[c.gone..][i - c.gone] == k;
    }
  }

  lemma GrownDates(m: Rows, family: nat, c: Chain, key: nat, row: RefreshRow, i: nat, j: nat)
    requires IsChain(m, family, c) && key !in m && (Last(c) in m ==> m[Last(c)].revoked) && c.gone <= i < j <= |c.keys|
    requires row.familyId == family && row.parentJti == Some(Last(c))
    requires forall k | k in m && m[k].familyId == family :: m[k].issuedAt <= row.issuedAt
    ensures var n, keys := m[key := row], c.keys + [key];
      keys[i] in n && keys[j] in n && n[keys[i]].issuedAt <= n[keys[j]].issuedAt
  {
    GrownLink(m, family, c, key, row, i);
    GrownLink(m, family, c, key, row, j);
  }

  lemma ChainGrows(m: Rows, family: nat, c: Chain, key: nat, row: RefreshRow)
    requires IsChain(m, family, c) && (Last(c) in m ==> m[Last(c)].revoked)
    requires key !in m && (forall i | 0 <= i < |c.keys| :: c.keys[i] < key)
    requires row.familyId == family && row.parentJti == Some(Last(c))
    requires forall k | k in m && m[k].familyId == family :: m[k].issuedAt <= row.issuedAt
    ensures IsChain(m[key := row], family, c.(keys := c.keys + [key]))
  {
    var n, keys := m[key := row], c.keys + [key];
    forall i: nat | c.gone <= i < |keys| ensures Link(n, family, keys, i) {
      GrownLink(m, family, c, key, row, i);
    }
    forall i, j | c.gone <= i < j < |keys| && keys[i] in n && keys[j] in n ensures n[keys[i]].issuedAt <= n[keys[j]].issuedAt {
      GrownDates(m, family, c, key, row, i, j);
    }
    forall k | k in n && n[k].familyId == family ensures k in keys[c.gone..] {
      GrownCovers(m, family, c, key, row, k);
    }
  }

  lemma GrownLink(m: Rows, family: nat, c: Chain, key: nat, row: RefreshRow, i: nat)
    requires IsChain(m, family, c) && key !in m && (Last(c) in m ==> m[Last(c)].revoked) && c.gone <= i <= |c.keys|
    requires row.familyId == family && row.parentJti == Some(Last(c))
    requires forall k | k in m && m[k].familyId == family :: m[k].issuedAt <= row.issuedAt
    ensures Link(m[key := row], family, c.keys + [key], i) && m[key := row][(c.keys + [key])[i]].issuedAt <= row.issuedAt
    ensures i < |c.keys| ==> m[key := row][(c.keys + [key])[i]] == m[c.keys[i]] && c.keys[i] in m
  {
    if i < |c.keys| { assert Link(m, family, c.keys, i); }
  }

  lemma SameDates(m: Rows, n: Rows, family: nat, c: Chain, key: nat)
    requires IsChain(m, family, c) && key !in m && (forall k | k in m :: k in n && n[k] == m[k])
    ensures forall i, j | c.gone <= i < j < |c.keys| && c.keys[i] in n && c.keys[j] in n :: n[c.keys[i]].issuedAt <= n[c.keys[j]].issuedAt
  {
    forall i, j | c.gone <= i < j < |c.keys| && c.keys[i] in n && c.keys[j] in n ensures n[c.keys[i]].issuedAt <= n[c.keys[j]].issuedAt {
      assert Link(m, family, c.keys, i) && Link(m, family, c.keys, j);
    }
  }

  lemma ChainStarts(m: Rows, family: nat, key: nat, row: RefreshRow, owner: (nat, nat))
    requires key !in m && row.familyId == family && row.parentJti == None
    requires forall k | k in m :: m[k].familyId != family
    ensures IsChain(m[key := row], family, Chain([key], 0, owner))
  {
    assert [key][0..] == [key];
  }

  lemma ChainElsewhere(m: Rows, family: nat, c: Chain, key: nat, row: RefreshRow)
    requires IsChain(m, family, c) && key !in m && row.familyId != family
    ensures IsChain(m[key := row], family, c)
  {
    var n := m[key := row];
    forall i: nat | c.gone <= i < |c.keys| ensures Link(n, family, c.keys, i) {
      assert Link(m, family, c.keys, i);
    }
    SameDates(m, n, family, c, key);
  }

  // ---------------------------------------------------------------------------------------------
  // Chains under cleanup
  // ---------------------------------------------------------------------------------------------

  /** All refresh tokens live equally long and are dated in the past. */
  ghost predicate Dated(m: Rows, ttl: nat, now: int) {
    forall k | k in m :: m[k].expiresAt == m[k].issuedAt + ttl && m[k].issuedAt <= now
  }

  /** The first row, from `from` on, that cleanup leaves. */
  function FirstKept(m: Rows, keys: seq<nat>, from: nat, now: int): (i: nat)
    requires from <= |keys|
    ensures from <= i <= |keys|
    ensures forall j | from <= j < i :: !(keys[j] in m && !CleanupJob.RefreshIsOld(m[keys[j]], now))
    ensures i < |keys| ==> keys[i] in m && !CleanupJob.RefreshIsOld(m[keys[i]], now)
    decreases |keys| - from
  {
    if from == |keys| || (keys[from] in m && !CleanupJob.RefreshIsOld(m[keys[from]], now)) then from
    else FirstKept(m, keys, from + 1, now)
  }

  /** A row that is old makes every earlier row of its chain old. */
  lemma OldFromTheFront(m: Rows, family: nat, c: Chain, ttl: nat, now: int, i: nat, j: nat)
    requires IsChain(m, family, c) && Dated(m, ttl, now) && c.gone <= i < j < |c.keys|
    requires c.keys[i] in m && c.keys[j] in m && CleanupJob.RefreshIsOld(m[c.keys[j]], now)
    ensures CleanupJob.RefreshIsOld(m[c.keys[i]], now)
  {
    assert Link(m, family, c.keys, i);
  }

  /** Cleanup shortens a chain from its old end. */
  lemma ChainSwept(m: Rows, family: nat, c: Chain, ttl: nat, now: int)
    requires IsChain(m, family, c) && Dated(m, ttl, now)
    ensures IsChain(CleanupJob.KeptRefresh(m, now), family, c.(gone := FirstKept(m, c.keys, c.gone, now)))
  {
    var n, d := CleanupJob.KeptRefresh(m, now), FirstKept(m, c.keys, c.gone, now);
    forall i: nat | d <= i < |c.keys| ensures Link(n, family, c.keys, i) {
      assert Link(m, family, c.keys, i) && Link(m, family, c.keys, d);
      if i > d && CleanupJob.RefreshIsOld(m[c.keys[i]], now) { OldFromTheFront(m, family, c, ttl, now, d, i); }
    }
    forall k | k in n && n[k].familyId == family ensures k in c.keys[d..] {
      var i := PlaceOf(m, family, c, k);
      assert c.keys[d..][i - d] == k;
    }
  }

  // ---------------------------------------------------------------------------------------------
  // The invariant
  // ---------------------------------------------------------------------------------------------

  type Chains = map<nat, Chain>

  /** The (family, consumed token) whose child a caller holds the sole right to write. */
  function Rotating(phase: Phase): Option<(nat, nat)> {
    match phase
    case ReadingLevel(t) => Some((t.row.familyId, t.key))
    case Issuing(g, _, _, refresh) => if refresh then g.parent else None
    case _ => None
  }

  function Owner(r: RefreshRow): (nat, nat) { (r.identityId, r.clientId) }

  function GrantOwner(g: Grant): (nat, nat) { (g.identityId, g.clientId) }

  /** Whose token a rotation is of. */
  function OwnerOf(phase: Phase): (nat, nat)
    requires Rotating(phase).Some?
  {
    match phase
    case ReadingLevel(t) => Owner(t.row)
    case Issuing(g, _, _, _) => GrantOwner(g)
  }

  predicate Rotates(procs: map<nat, Phase>, p: nat) {
    p in procs && Rotating(procs[p]).Some?
  }

  function InFlight(s: Sys, family: nat): set<nat> {
    set p | p in s.procs && Rotates(s.procs, p) && Rotating(s.procs[p]).value.0 == family
  }

  function LiveTokens(db: Db, family: nat): set<nat> {
    set k | k in db.refresh && db.refresh[k].familyId == family && !db.refresh[k].revoked
  }

  ghost predicate ChainsInv(m: Rows, chains: Chains, nextId: nat) {
    && (forall k | k in m :: m[k].familyId in chains)
    && (forall f | f in chains :: f < nextId && IsChain(m, f, chains[f]))
  }

  function KeySet(c: Chain): set<nat> { set k | k in c.keys }

  /** No token is in two families, and none is still to be drawn. */
  ghost predicate KeysInv(chains: Chains, nextId: nat) {
    && (forall f, k | f in chains && k in KeySet(chains[f]) :: k < nextId)
    && (forall f, g | f in chains && g in chains && f != g :: KeySet(chains[f]) !! KeySet(chains[g]))
  }

  /** A rotation holds the revoked end of its chain, and will not date its child before any row of the family. */
  ghost predicate HoldsEnd(phase: Phase, m: Rows, chains: Chains)
    requires Rotating(phase).Some?
  {
    var r := Rotating(phase).value;
    && r.0 in chains && chains[r.0].keys != [] && r.1 == Last(chains[r.0]) && (r.1 in m ==> m[r.1].revoked)
    && (phase.Issuing? ==> forall k | k in m && m[k].familyId == r.0 :: m[k].issuedAt <= phase.at)
  }

  ghost predicate FlightInv(procs: map<nat, Phase>, m: Rows, chains: Chains) {
    && (forall p | Rotates(procs, p) :: HoldsEnd(procs[p], m, chains))
    && (forall p, q | Rotates(procs, p) && Rotates(procs, q) ::
          Rotating(procs[p]).value.0 == Rotating(procs[q]).value.0 ==> p == q)
  }

  ghost predicate DatesInv(s: Sys) {
    && Dated(s.db.refresh, s.db.config.refreshTtl, s.now)
    && forall p | p in s.procs && (s.procs[p].Issuing? || s.procs[p].Binding?) :: s.procs[p].at <= s.now
  }

  predicate HoldsSnapshot(phase: Phase) {
    phase.Swapping? || phase.ReadingLevel? || phase.Killing? || phase.Sweeping? || phase.Marking? || phase.Thrown?
  }

  /** What a caller read of a token's identity columns is still what the table says, while the row exists. */
  ghost predicate SnapshotsInv(s: Sys) {
    forall p | p in s.procs && HoldsSnapshot(s.procs[p]) :: Tells(s.db, s.procs[p].t)
  }

  predicate Tells(db: Db, t: Snapshot) {
    && t.key < db.nextId && t.row.familyId < db.nextId
    && (t.key in db.refresh ==> t.row.familyId == db.refresh[t.key].familyId && t.row.sessionId == db.refresh[t.key].sessionId
                                && Owner(t.row) == Owner(db.refresh[t.key]))
  }

  /** Rows and rotations of a family are all one identity's and one client's. */
  ghost predicate OwnersInv(s: Sys, chains: Chains) {
    && (forall k | k in s.db.refresh && s.db.refresh[k].familyId in chains ::
          Owner(s.db.refresh[k]) == chains[s.db.refresh[k].familyId].owner)
    && (forall p | Rotates(s.procs, p) && Rotating(s.procs[p]).value.0 in chains ::
          OwnerOf(s.procs[p]) == chains[Rotating(s.procs[p]).value.0].owner)
    && (forall f | f in chains :: chains[f].owner.0 < s.db.nextId && chains[f].owner.1 < s.db.nextId)
  }

  ghost predicate RowsInv(s: Sys, chains: Chains) {
    Fresh(s.db) && ChainsInv(s.db.refresh, chains, s.db.nextId) && KeysInv(chains, s.db.nextId)
  }

  ghost predicate CallersInv(s: Sys, chains: Chains) {
    FlightInv(s.procs, s.db.refresh, chains) && DatesInv(s) && SnapshotsInv(s) && OwnersInv(s, chains)
  }

  ghost predicate Inv(s: Sys, chains: Chains) {
    RowsInv(s, chains) && CallersInv(s, chains)
  }

  // ---------------------------------------------------------------------------------------------
  // Steps that write no token
  // ---------------------------------------------------------------------------------------------

  predicate WinsSwap(s: Sys, step: Step)
    requires Enabled(s, step)
  {
    step.Swap? && IsLive(s.db, s.procs[step.p].t.key)
  }

  ghost predicate StillRotates(s: Sys, step: Step, p: nat)
    requires Enabled(s, step)
  {
    var r := Apply(s, step);
    !WinsSwap(s, step) && Rotates(r.procs, p) ==>
      && Rotates(s.procs, p) && Rotating(s.procs[p]) == Rotating(r.procs[p]) && OwnerOf(s.procs[p]) == OwnerOf(r.procs[p])
      && (step.WriteRefresh? ==> p != step.p)
  }

  lemma RotatorsInRefresh(s: Sys, step: Step, p: nat)
    requires Enabled(s, step) && IsRefreshStep(step)
    ensures StillRotates(s, step, p)
  {
  }

  lemma RotatorsInIssue(s: Sys, step: Step, p: nat)
    requires Enabled(s, step) && IsIssueStep(step)
    ensures StillRotates(s, step, p)
  {
  }

  lemma RotatorsInSignIn(s: Sys, step: Step, p: nat)
    requires Enabled(s, step) && IsSignInStep(step)
    ensures StillRotates(s, step, p)
  {
  }

  lemma RotatorsElsewhere(s: Sys, step: Step, p: nat)
    requires Enabled(s, step) && !IsRefreshStep(step) && !IsIssueStep(step) && !IsSignInStep(step)
    ensures StillRotates(s, step, p)
  {
  }

  /** Who rotates changes only at a won swap, at a token write, or when a caller stops. */
  lemma RotatorsStay(s: Sys, step: Step, p: nat)
    requires Enabled(s, step)
    ensures StillRotates(s, step, p)
  {
    if IsRefreshStep(step) {
      RotatorsInRefresh(s, step, p);
    } else if IsIssueStep(step) {
      RotatorsInIssue(s, step, p);
    } else if IsSignInStep(step) {
      RotatorsInSignIn(s, step, p);
    } else {
      RotatorsElsewhere(s, step, p);
    }
  }

  lemma RotatorsAfterSwap(s: Sys, step: Step, p: nat)
    requires Enabled(s, step) && WinsSwap(s, step) && Rotates(Apply(s, step).procs, p)
    ensures p != step.p ==> Rotates(s.procs, p) && s.procs[p] == Apply(s, step).procs[p]
    ensures p == step.p ==> var t := s.procs[p].t; Rotating(Apply(s, step).procs[p]) == Some((t.row.familyId, t.key))
    ensures p == step.p ==> Apply(s, step).procs[p].ReadingLevel?
  {
  }

  /** What an issuing caller dates its rows with is read when it starts issuing. */
  lemma IssuersDate(s: Sys, step: Step, p: nat)
    requires Enabled(s, step)
    ensures IssuerDates(s, step, p)
  {
    if IsSignInStep(step) { IssuersInSignIn(s, step, p); } else { IssuersElsewhere(s, step, p); }
  }

  ghost predicate IssuerDates(s: Sys, step: Step, p: nat)
    requires Enabled(s, step)
  {
    var r := Apply(s, step);
    p in r.procs && r.procs[p].Issuing? ==>
      || r.procs[p].at == s.now
      || (p in s.procs && s.procs[p].Issuing? && s.procs[p].at == r.procs[p].at)
      || (p in s.procs && s.procs[p].Binding? && s.procs[p].at == r.procs[p].at && !r.procs[p].refresh)
  }

  lemma IssuersInSignIn(s: Sys, step: Step, p: nat)
    requires Enabled(s, step) && IsSignInStep(step)
    ensures IssuerDates(s, step, p)
  {
  }

  lemma IssuersElsewhere(s: Sys, step: Step, p: nat)
    requires Enabled(s, step) && !IsSignInStep(step)
    ensures IssuerDates(s, step, p)
  {
  }

  ghost predicate BinderDates(s: Sys, step: Step, p: nat)
    requires Enabled(s, step)
  {
    var r := Apply(s, step);
    p in r.procs && r.procs[p].Binding? ==>
      p in s.procs && (s.procs[p].Issuing? || s.procs[p].Binding?) && s.procs[p].at == r.procs[p].at
  }

  lemma BindersInSignIn(s: Sys, step: Step, p: nat)
    requires Enabled(s, step) && IsSignInStep(step)
    ensures BinderDates(s, step, p)
  {
  }

  lemma BindersElsewhere(s: Sys, step: Step, p: nat)
    requires Enabled(s, step) && !IsSignInStep(step)
    ensures BinderDates(s, step, p)
  {
  }

  lemma BindersDate(s: Sys, step: Step, p: nat)
    requires Enabled(s, step)
    ensures BinderDates(s, step, p)
  {
    if IsSignInStep(step) { BindersInSignIn(s, step, p); } else { BindersElsewhere(s, step, p); }
  }

  ghost predicate SnapshotStays(s: Sys, step: Step, p: nat)
    requires Enabled(s, step)
  {
    var r := Apply(s, step);
    p in r.procs && HoldsSnapshot(r.procs[p]) ==>
      || (p in s.procs && HoldsSnapshot(s.procs[p]) && s.procs[p].t == r.procs[p].t)
      || (r.procs[p].t.key in s.db.refresh && r.procs[p].t.row == s.db.refresh[r.procs[p].t.key])
  }

  lemma SnapshotsInRefresh(s: Sys, step: Step, p: nat)
    requires Enabled(s, step) && IsRefreshStep(step)
    ensures SnapshotStays(s, step, p)
  {
  }

  lemma SnapshotsElsewhere(s: Sys, step: Step, p: nat)
    requires Enabled(s, step) && !IsRefreshStep(step)
    ensures SnapshotStays(s, step, p)
  {
  }

  lemma SnapshotsStay(s: Sys, step: Step, p: nat)
    requires Enabled(s, step)
    ensures SnapshotStays(s, step, p)
  {
    if IsRefreshStep(step) { SnapshotsInRefresh(s, step, p); } else { SnapshotsElsewhere(s, step, p); }
  }

  ghost predicate FamiliesDrawn(m: Rows, nextId: nat) { forall k | k in m :: m[k].familyId < nextId }

  lemma FamiliesAreDrawn(m: Rows, chains: Chains, nextId: nat)
    requires ChainsInv(m, chains, nextId)
    ensures FamiliesDrawn(m, nextId)
  {
  }

  lemma SnapshotsStep(s: Sys, step: Step)
    requires Enabled(s, step) && Fresh(s.db) && SnapshotsInv(s) && FamiliesDrawn(s.db.refresh, s.db.nextId)
    ensures SnapshotsInv(Apply(s, step))
  {
    StepEvolves(s, step);
    var r := Apply(s, step);
    forall p | p in r.procs && HoldsSnapshot(r.procs[p]) ensures Tells(r.db, r.procs[p].t) {
      SnapshotsStay(s, step, p);
      assert Tells(s.db, r.procs[p].t);
    }
  }

  lemma WriteAddsOneRow(s: Sys, step: Step)
    requires Enabled(s, step) && step.WriteRefresh?
    ensures Apply(s, step).db.refresh == s.db.refresh[s.db.nextId := NewRefreshRow(s.db, s.procs[step.p].g, s.procs[step.p].at)]
    ensures Apply(s, step).db.nextId == s.db.nextId + 2
  {
  }

  lemma DatesStep(s: Sys, step: Step)
    requires Enabled(s, step) && Fresh(s.db) && DatesInv(s)
    ensures DatesInv(Apply(s, step))
  {
    StepEvolves(s, step);
    if step.WriteRefresh? { WriteAddsOneRow(s, step); }
    RowsStay(s, step);
    forall p | p in Apply(s, step).procs && (Apply(s, step).procs[p].Issuing? || Apply(s, step).procs[p].Binding?)
      ensures Apply(s, step).procs[p].at <= Apply(s, step).now
    {
      if Apply(s, step).procs[p].Issuing? { IssuersDate(s, step, p); } else { BindersDate(s, step, p); }
    }
  }

  /** A row that is there after a step was there before it, or was written by it. */
  lemma RowsStay(s: Sys, step: Step)
    requires Enabled(s, step) && Fresh(s.db)
    ensures forall k | k in Apply(s, step).db.refresh ::
      (k in s.db.refresh && SameToken(s.db.refresh[k], Apply(s, step).db.refresh[k])) || (step.WriteRefresh? && k == s.db.nextId)
  {
    if step.WriteRefresh? {
      StepEvolves(s, step);
      WriteAddsOneRow(s, step);
    } else {
      NoRowIsNew(s, step);
    }
  }

  lemma NoRowIsNew(s: Sys, step: Step)
    requires Enabled(s, step) && Fresh(s.db) && !step.WriteRefresh?
    ensures forall k | k in Apply(s, step).db.refresh :: k in s.db.refresh && SameToken(s.db.refresh[k], Apply(s, step).db.refresh[k])
  {
    if Removes(step) { RemovalLeavesRows(s, step); } else { StepEvolves(s, step); }
  }

  lemma RemovalLeavesRows(s: Sys, step: Step)
    requires Enabled(s, step) && Removes(step)
    ensures forall k | k in Apply(s, step).db.refresh :: k in s.db.refresh && s.db.refresh[k] == Apply(s, step).db.refresh[k]
  {
  }

  lemma ChainsKept(m: Rows, n: Rows, chains: Chains, nextId: nat, later: nat)
    requires ChainsInv(m, chains, nextId) && OnlyRevokes(m, n) && nextId <= later
    ensures ChainsInv(n, chains, later)
  {
    forall f | f in chains ensures IsChain(n, f, chains[f]) {
      ChainSurvivesRevocation(m, n, f, chains[f]);
    }
  }

  lemma EndKept(phase: Phase, later: Phase, m: Rows, n: Rows, chains: Chains, now: int)
    requires Rotating(phase).Some? && Rotating(later) == Rotating(phase) && HoldsEnd(phase, m, chains)
    requires forall k | k in n :: k in m && SameToken(m[k], n[k])
    requires forall k | k in m :: m[k].issuedAt <= now
    requires later.Issuing? ==> later.at == now || (phase.Issuing? && phase.at == later.at)
    ensures HoldsEnd(later, n, chains)
  {
  }

  lemma FlightKept(s: Sys, step: Step, chains: Chains)
    requires Fresh(s.db) && DatesInv(s) && FlightInv(s.procs, s.db.refresh, chains)
    requires Enabled(s, step) && !step.WriteRefresh? && !WinsSwap(s, step)
    ensures FlightInv(Apply(s, step).procs, Apply(s, step).db.refresh, chains)
  {
    var r := Apply(s, step);
    RowsStay(s, step);
    forall p | Rotates(r.procs, p)
      ensures Rotates(s.procs, p) && Rotating(s.procs[p]) == Rotating(r.procs[p]) && HoldsEnd(r.procs[p], r.db.refresh, chains)
    {
      RotatorsStay(s, step, p);
      if r.procs[p].Issuing? { IssuersDate(s, step, p); }
      EndKept(s.procs[p], r.procs[p], s.db.refresh, r.db.refresh, chains, s.now);
    }
  }

  lemma OwnersKept(s: Sys, step: Step, chains: Chains)
    requires Fresh(s.db) && OwnersInv(s, chains) && Enabled(s, step) && !step.WriteRefresh? && !WinsSwap(s, step)
    ensures OwnersInv(Apply(s, step), chains)
  {
    var r := Apply(s, step);
    RowsStay(s, step);
    StepEvolves(s, step);
    forall p | Rotates(r.procs, p) ensures Rotates(s.procs, p) && Rotating(s.procs[p]) == Rotating(r.procs[p]) && OwnerOf(s.procs[p]) == OwnerOf(r.procs[p]) {
      RotatorsStay(s, step, p);
    }
  }

  /** The same families of the same owners. */
  lemma OwnersAlike(s: Sys, chains: Chains, after: Chains)
    requires OwnersInv(s, chains) && after.Keys == chains.Keys && forall f | f in chains :: after[f].owner == chains[f].owner
    ensures OwnersInv(s, after)
  {
  }

  lemma QuietCallers(s: Sys, step: Step, chains: Chains)
    requires Fresh(s.db) && FamiliesDrawn(s.db.refresh, s.db.nextId) && CallersInv(s, chains)
    requires Enabled(s, step) && !step.WriteRefresh? && !WinsSwap(s, step)
    ensures CallersInv(Apply(s, step), chains)
  {
    OwnersKept(s, step, chains);
    SnapshotsStep(s, step);
    DatesStep(s, step);
    FlightKept(s, step, chains);
  }

  lemma RevokingRows(s: Sys, step: Step, chains: Chains)
    requires RowsInv(s, chains) && Enabled(s, step) && !step.WriteRefresh? && !Removes(step)
    ensures RowsInv(Apply(s, step), chains)
  {
    StepEvolves(s, step);
    ChainsKept(s.db.refresh, Apply(s, step).db.refresh, chains, s.db.nextId, Apply(s, step).db.nextId);
  }

  function Swept(m: Rows, chains: Chains, now: int): Chains
    requires forall f | f in chains :: chains[f].gone <= |chains[f].keys|
  {
    map f | f in chains :: chains[f].(gone := FirstKept(m, chains[f].keys, chains[f].gone, now))
  }

  lemma SweptChains(m: Rows, chains: Chains, nextId: nat, ttl: nat, now: int)
    requires ChainsInv(m, chains, nextId) && Dated(m, ttl, now)
    ensures ChainsInv(CleanupJob.KeptRefresh(m, now), Swept(m, chains, now), nextId)
  {
    var after := Swept(m, chains, now);
    forall f | f in after ensures IsChain(CleanupJob.KeptRefresh(m, now), f, after[f]) {
      ChainSwept(m, f, chains[f], ttl, now);
    }
  }

  lemma SweptKeys(m: Rows, chains: Chains, nextId: nat, now: int)
    requires KeysInv(chains, nextId) && (forall f | f in chains :: chains[f].gone <= |chains[f].keys|)
    ensures KeysInv(Swept(m, chains, now), nextId)
  {
    var after := Swept(m, chains, now);
    forall f | f in after ensures KeySet(after[f]) == KeySet(chains[f]) {}
  }

  lemma SweptFlight(procs: map<nat, Phase>, n: Rows, m: Rows, chains: Chains, now: int)
    requires FlightInv(procs, n, chains) && (forall f | f in chains :: chains[f].gone <= |chains[f].keys|)
    ensures FlightInv(procs, n, Swept(m, chains, now))
  {
    forall p | Rotates(procs, p) ensures HoldsEnd(procs[p], n, Swept(m, chains, now)) {
      assert HoldsEnd(procs[p], n, chains);
    }
  }

  lemma ChainsAreWhole(m: Rows, chains: Chains, nextId: nat)
    requires ChainsInv(m, chains, nextId)
    ensures forall f | f in chains :: chains[f].gone <= |chains[f].keys|
  {
  }

  lemma PurgeRows(s: Sys, chains: Chains)
    requires RowsInv(s, chains) && DatesInv(s)
    ensures (forall f | f in chains :: chains[f].gone <= |chains[f].keys|) && RowsInv(Apply(s, Purge), Swept(s.db.refresh, chains, s.now))
  {
    StepEvolves(s, Purge);
    ChainsAreWhole(s.db.refresh, chains, s.db.nextId);
    SweptChains(s.db.refresh, chains, s.db.nextId, s.db.config.refreshTtl, s.now);
    SweptKeys(s.db.refresh, chains, s.db.nextId, s.now);
  }

  lemma SweptCallers(s: Sys, m: Rows, chains: Chains, now: int)
    requires CallersInv(s, chains) && (forall f | f in chains :: chains[f].gone <= |chains[f].keys|)
    ensures CallersInv(s, Swept(m, chains, now))
  {
    SweptFlight(s.procs, s.db.refresh, m, chains, now);
    OwnersAlike(s, chains, Swept(m, chains, now));
  }

  lemma PurgeStep(s: Sys, chains: Chains) returns (after: Chains)
    requires Inv(s, chains)
    ensures Inv(Apply(s, Purge), after) && chains.Keys <= after.Keys
  {
    FamiliesAreDrawn(s.db.refresh, chains, s.db.nextId);
    PurgeRows(s, chains);
    QuietCallers(s, Purge, chains);
    after := Swept(s.db.refresh, chains, s.now);
    SweptCallers(Apply(s, Purge), s.db.refresh, chains, s.now);
  }

  /** The tokens that go with an identity or client. */
  predicate Takes(step: Step, owner: (nat, nat)) {
    (step.RemoveIdentity? && owner.0 == step.identity) || (step.RemoveClient? && owner.1 == step.client)
  }

  function Emptied(chains: Chains, step: Step): Chains {
    map f | f in chains :: if Takes(step, chains[f].owner) then chains[f].(gone := |chains[f].keys|) else chains[f]
  }

  /** Deletion takes a family whole or leaves it. */
  lemma ChainEmptied(m: Rows, n: Rows, family: nat, c: Chain, step: Step)
    requires IsChain(m, family, c) && (forall k | k in m && m[k].familyId == family :: Owner(m[k]) == c.owner)
    requires forall k :: k in n <==> k in m && !Takes(step, Owner(m[k]))
    requires forall k | k in n :: n[k] == m[k]
    ensures IsChain(n, family, if Takes(step, c.owner) then c.(gone := |c.keys|) else c)
  {
    if Takes(step, c.owner) {
      assert forall k | k in n :: n[k].familyId != family;
    } else {
      forall i: nat | c.gone <= i < |c.keys| ensures Link(n, family, c.keys, i) {
        assert Link(m, family, c.keys, i);
      }
    }
  }

  lemma EmptiedChains(m: Rows, n: Rows, chains: Chains, nextId: nat, step: Step)
    requires ChainsInv(m, chains, nextId)
    requires forall k | k in m && m[k].familyId in chains :: Owner(m[k]) == chains[m[k].familyId].owner
    requires forall k :: k in n <==> k in m && !Takes(step, Owner(m[k]))
    requires forall k | k in n :: n[k] == m[k]
    ensures ChainsInv(n, Emptied(chains, step), nextId)
  {
    forall f | f in chains ensures IsChain(n, f, Emptied(chains, step)[f]) {
      ChainEmptied(m, n, f, chains[f], step);
    }
  }

  lemma EmptiedKeys(chains: Chains, nextId: nat, step: Step)
    requires KeysInv(chains, nextId)
    ensures KeysInv(Emptied(chains, step), nextId)
  {
    var after := Emptied(chains, step);
    forall f | f in after ensures KeySet(after[f]) == KeySet(chains[f]) {}
  }

  lemma EmptiedFlight(procs: map<nat, Phase>, n: Rows, chains: Chains, step: Step)
    requires FlightInv(procs, n, chains)
    ensures FlightInv(procs, n, Emptied(chains, step))
  {
    forall p | Rotates(procs, p) ensures HoldsEnd(procs[p], n, Emptied(chains, step)) {
      assert HoldsEnd(procs[p], n, chains);
    }
  }

  lemma RemovalRows(s: Sys, step: Step, chains: Chains)
    requires RowsInv(s, chains) && OwnersInv(s, chains) && Enabled(s, step) && (step.RemoveIdentity? || step.RemoveClient?)
    ensures RowsInv(Apply(s, step), Emptied(chains, step))
  {
    StepEvolves(s, step);
    EmptiedChains(s.db.refresh, Apply(s, step).db.refresh, chains, s.db.nextId, step);
    EmptiedKeys(chains, s.db.nextId, step);
  }

  lemma EmptiedCallers(s: Sys, chains: Chains, step: Step)
    requires CallersInv(s, chains)
    ensures CallersInv(s, Emptied(chains, step))
  {
    EmptiedFlight(s.procs, s.db.refresh, chains, step);
    OwnersAlike(s, chains, Emptied(chains, step));
  }

  lemma RemovalStep(s: Sys, step: Step, chains: Chains) returns (after: Chains)
    requires Inv(s, chains) && Enabled(s, step) && (step.RemoveIdentity? || step.RemoveClient?)
    ensures Inv(Apply(s, step), after) && chains.Keys <= after.Keys
  {
    FamiliesAreDrawn(s.db.refresh, chains, s.db.nextId);
    RemovalRows(s, step, chains);
    QuietCallers(s, step, chains);
    after := Emptied(chains, step);
    EmptiedCallers(Apply(s, step), chains, step);
  }

  // ---------------------------------------------------------------------------------------------
  // The two steps that move a family's single right
  // ---------------------------------------------------------------------------------------------

  lemma LiveEndsChain(m: Rows, family: nat, c: Chain, k: nat)
    requires IsChain(m, family, c) && k in m && m[k].familyId == family && !m[k].revoked
    ensures k == Last(c)
  {
    var i := PlaceOf(m, family, c, k);
  }

  /** A live token is the last of its chain, and nobody is rotating its family. */
  lemma LiveIsLast(s: Sys, k: nat, chains: Chains)
    requires Inv(s, chains) && IsLive(s.db, k)
    ensures s.db.refresh[k].familyId in chains && chains[s.db.refresh[k].familyId].keys != []
    ensures k == Last(chains[s.db.refresh[k].familyId])
    ensures InFlight(s, s.db.refresh[k].familyId) == {}
  {
    var f := s.db.refresh[k].familyId;
    LiveEndsChain(s.db.refresh, f, chains[f], k);
    forall p | Rotates(s.procs, p) ensures Rotating(s.procs[p]).value.0 != f {}
  }

  lemma SwapHoldsEnd(s: Sys, step: Step, chains: Chains, p: nat)
    requires Fresh(s.db) && FlightInv(s.procs, s.db.refresh, chains) && Enabled(s, step) && WinsSwap(s, step)
    requires Rotates(Apply(s, step).procs, p) && WonEnd(s.procs[step.p].t, chains)
    ensures HoldsEnd(Apply(s, step).procs[p], Apply(s, step).db.refresh, chains)
  {
    StepEvolves(s, step);
    RotatorsAfterSwap(s, step, p);
    if p != step.p {
      EndsStay(s.procs[p], s.db.refresh, Apply(s, step).db.refresh, chains);
    } else {
      SwapRevokes(s, step);
      WinnerHoldsEnd(s.procs[p].t, chains, Apply(s, step).db.refresh);
    }
  }

  /** The token is the last of its chain. */
  ghost predicate WonEnd(t: Snapshot, chains: Chains) {
    t.row.familyId in chains && chains[t.row.familyId].keys != [] && t.key == Last(chains[t.row.familyId])
  }

  lemma EndsStay(phase: Phase, m: Rows, n: Rows, chains: Chains)
    requires Rotating(phase).Some? && HoldsEnd(phase, m, chains) && OnlyRevokes(m, n)
    ensures HoldsEnd(phase, n, chains)
  {
  }

  lemma WinnerHoldsEnd(t: Snapshot, chains: Chains, n: Rows)
    requires WonEnd(t, chains) && (t.key in n ==> n[t.key].revoked)
    ensures HoldsEnd(ReadingLevel(t), n, chains)
  {
  }

  lemma WinnerIsLast(s: Sys, t: Snapshot, chains: Chains)
    requires Inv(s, chains) && Tells(s.db, t) && IsLive(s.db, t.key)
    ensures WonEnd(t, chains)
  {
    LiveIsLast(s, t.key, chains);
  }

  lemma SwapRevokes(s: Sys, step: Step)
    requires Enabled(s, step) && WinsSwap(s, step)
    ensures var r, t := Apply(s, step), s.procs[step.p].t;
      step.p in r.procs && r.procs[step.p] == ReadingLevel(t) && t.key in r.db.refresh && r.db.refresh[t.key].revoked
  {
  }

  lemma SwapFlight(s: Sys, step: Step, chains: Chains)
    requires Inv(s, chains) && Enabled(s, step) && WinsSwap(s, step)
    ensures FlightInv(Apply(s, step).procs, Apply(s, step).db.refresh, chains)
  {
    var r := Apply(s, step);
    assert Tells(s.db, s.procs[step.p].t);
    WinnerIsLast(s, s.procs[step.p].t, chains);
    forall p | Rotates(r.procs, p) ensures HoldsEnd(r.procs[p], r.db.refresh, chains) {
      SwapHoldsEnd(s, step, chains, p);
    }
    forall p, q | Rotates(r.procs, p) && Rotates(r.procs, q) && Rotating(r.procs[p]).value.0 == Rotating(r.procs[q]).value.0
      ensures p == q
    {
      SwapExcludes(s, step, chains, p);
      SwapExcludes(s, step, chains, q);
    }
  }

  lemma SwapExcludes(s: Sys, step: Step, chains: Chains, p: nat)
    requires Inv(s, chains) && Enabled(s, step) && WinsSwap(s, step) && Rotates(Apply(s, step).procs, p)
    ensures p == step.p ==> Rotating(Apply(s, step).procs[p]) == Some((s.procs[step.p].t.row.familyId, s.procs[step.p].t.key))
    ensures p != step.p ==> Rotates(s.procs, p) && s.procs[p] == Apply(s, step).procs[p]
    ensures p != step.p ==> Rotating(s.procs[p]).value.0 != s.procs[step.p].t.row.familyId
  {
    var t := s.procs[step.p].t;
    assert Tells(s.db, t);
    LiveIsLast(s, t.key, chains);
    RotatorsAfterSwap(s, step, p);
    assert p != step.p ==> p !in InFlight(s, t.row.familyId);
  }

  lemma SwapOwners(s: Sys, step: Step, chains: Chains)
    requires Fresh(s.db) && OwnersInv(s, chains) && Enabled(s, step) && WinsSwap(s, step) && Tells(s.db, s.procs[step.p].t)
    ensures OwnersInv(Apply(s, step), chains)
  {
    var r := Apply(s, step);
    StepEvolves(s, step);
    SwapRevokes(s, step);
    forall p | Rotates(r.procs, p) && p != step.p ensures Rotates(s.procs, p) && s.procs[p] == r.procs[p] {
      RotatorsAfterSwap(s, step, p);
    }
  }

  lemma SwapCallers(s: Sys, step: Step, chains: Chains)
    requires Inv(s, chains) && Enabled(s, step) && WinsSwap(s, step)
    ensures CallersInv(Apply(s, step), chains)
  {
    assert Tells(s.db, s.procs[step.p].t);
    FamiliesAreDrawn(s.db.refresh, chains, s.db.nextId);
    SwapOwners(s, step, chains);
    SnapshotsStep(s, step);
    DatesStep(s, step);
    SwapFlight(s, step, chains);
  }

  lemma CallersStep(s: Sys, step: Step, chains: Chains)
    requires Inv(s, chains) && Enabled(s, step) && !step.WriteRefresh? && !Removes(step)
    ensures CallersInv(Apply(s, step), chains)
  {
    FamiliesAreDrawn(s.db.refresh, chains, s.db.nextId);
    if WinsSwap(s, step) { SwapCallers(s, step, chains); } else { QuietCallers(s, step, chains); }
  }

  lemma RevokingStep(s: Sys, step: Step, chains: Chains)
    requires Inv(s, chains) && Enabled(s, step) && !step.WriteRefresh? && !Removes(step)
    ensures Inv(Apply(s, step), chains)
  {
    RevokingRows(s, step, chains);
    CallersStep(s, step, chains);
  }

  function Extended(chains: Chains, parent: Option<(nat, nat)>, key: nat, owner: (nat, nat)): Chains
    requires parent.Some? ==> parent.value.0 in chains
  {
    if parent.None? then chains[key + 1 := Chain([key], 0, owner)]
    else chains[parent.value.0 := chains[parent.value.0].(keys := chains[parent.value.0].keys + [key])]
  }

  lemma KeysBelow(chains: Chains, nextId: nat, f: nat)
    requires KeysInv(chains, nextId) && f in chains
    ensures forall i | 0 <= i < |chains[f].keys| :: chains[f].keys[i] < nextId
  {
    forall i | 0 <= i < |chains[f].keys| ensures chains[f].keys[i] < nextId {
      assert chains[f].keys[i] in KeySet(chains[f]);
    }
  }

  /** The chain of the family a row is written to. */
  lemma WriteOwnChain(m: Rows, chains: Chains, parent: Option<(nat, nat)>, key: nat, row: RefreshRow)
    requires ChainsInv(m, chains, key) && KeysInv(chains, key) && key !in m
    requires parent.Some? ==> Continues(m, chains, parent.value, row)
    requires row.familyId == if parent.Some? then parent.value.0 else key + 1
    requires row.parentJti == if parent.Some? then Some(parent.value.1) else None
    ensures row.familyId in Extended(chains, parent, key, Owner(row))
    ensures IsChain(m[key := row], row.familyId, Extended(chains, parent, key, Owner(row))[row.familyId])
  {
    if parent.Some? {
      KeysBelow(chains, key, row.familyId);
      ChainGrows(m, row.familyId, chains[row.familyId], key, row);
    } else {
      ChainStarts(m, key + 1, key, row, Owner(row));
    }
  }

  /** The row continues the chain of its parent's family. */
  ghost predicate Continues(m: Rows, chains: Chains, parent: (nat, nat), row: RefreshRow) {
    && parent.0 in chains && chains[parent.0].keys != [] && parent.1 == Last(chains[parent.0])
    && (parent.1 in m ==> m[parent.1].revoked)
    && forall k | k in m && m[k].familyId == parent.0 :: m[k].issuedAt <= row.issuedAt
  }

  lemma WriteChains(m: Rows, chains: Chains, parent: Option<(nat, nat)>, key: nat, row: RefreshRow)
    requires ChainsInv(m, chains, key) && KeysInv(chains, key) && key !in m
    requires parent.Some? ==> Continues(m, chains, parent.value, row)
    requires row.familyId == if parent.Some? then parent.value.0 else key + 1
    requires row.parentJti == if parent.Some? then Some(parent.value.1) else None
    ensures ChainsInv(m[key := row], Extended(chains, parent, key, Owner(row)), key + 2)
  {
    var after := Extended(chains, parent, key, Owner(row));
    WriteOwnChain(m, chains, parent, key, row);
    forall f | f in after && f != row.familyId ensures f in chains && IsChain(m[key := row], f, after[f]) {
      ChainElsewhere(m, f, chains[f], key, row);
    }
  }

  lemma WriteKeys(chains: Chains, parent: Option<(nat, nat)>, key: nat, row: RefreshRow)
    requires KeysInv(chains, key) && (parent.Some? ==> parent.value.0 in chains) && key + 1 !in chains
    ensures KeysInv(Extended(chains, parent, key, Owner(row)), key + 2)
  {
    var after := Extended(chains, parent, key, Owner(row));
    var at := if parent.Some? then parent.value.0 else key + 1;
    assert KeySet(after[at]) == (if parent.Some? then KeySet(chains[at]) else {}) + {key};
    assert forall f | f in chains :: key !in KeySet(chains[f]);
  }

  lemma WriteRows(s: Sys, step: Step, chains: Chains)
    requires Inv(s, chains) && Enabled(s, step) && step.WriteRefresh?
    ensures var g := s.procs[step.p].g;
      && (g.parent.Some? ==> g.parent.value.0 in chains)
      && RowsInv(Apply(s, step), Extended(chains, g.parent, s.db.nextId, GrantOwner(g)))
  {
    var g, key := s.procs[step.p].g, s.db.nextId;
    var row := NewRefreshRow(s.db, g, s.procs[step.p].at);
    StepEvolves(s, step);
    WriteAddsOneRow(s, step);
    if g.parent.Some? {
      assert Rotates(s.procs, step.p) && Rotating(s.procs[step.p]) == g.parent;
      assert HoldsEnd(s.procs[step.p], s.db.refresh, chains);
      assert Continues(s.db.refresh, chains, g.parent.value, row);
    }
    WriteChains(s.db.refresh, chains, g.parent, key, row);
    WriteKeys(chains, g.parent, key, row);
  }

  lemma WriteCallers(s: Sys, step: Step, chains: Chains)
    requires Inv(s, chains) && Enabled(s, step) && step.WriteRefresh?
    requires s.procs[step.p].g.parent.Some? ==> s.procs[step.p].g.parent.value.0 in chains
    ensures CallersInv(Apply(s, step), Extended(chains, s.procs[step.p].g.parent, s.db.nextId, GrantOwner(s.procs[step.p].g)))
  {
    FamiliesAreDrawn(s.db.refresh, chains, s.db.nextId);
    SnapshotsStep(s, step);
    DatesStep(s, step);
    WriteFlight(s, step, chains);
    WriteOwners(s, step, chains);
  }

  lemma WriteStep(s: Sys, step: Step, chains: Chains) returns (after: Chains)
    requires Inv(s, chains) && Enabled(s, step) && step.WriteRefresh?
    ensures Inv(Apply(s, step), after) && chains.Keys <= after.Keys
  {
    WriteRows(s, step, chains);
    WriteCallers(s, step, chains);
    after := Extended(chains, s.procs[step.p].g.parent, s.db.nextId, GrantOwner(s.procs[step.p].g));
  }

  /** The chains have their owners, the one of that family this one. */
  ghost predicate Owned(chains: Chains, after: Chains, family: nat, owner: (nat, nat)) {
    && (forall f | f in chains :: f in after && after[f].owner == chains[f].owner)
    && (forall f | f in after && f !in chains :: f == family)
    && family in after && after[family].owner == owner
  }

  lemma ExtendedIsOwned(chains: Chains, parent: Option<(nat, nat)>, key: nat, owner: (nat, nat))
    requires parent.Some? ==> parent.value.0 in chains && chains[parent.value.0].owner == owner
    requires key + 1 !in chains
    ensures Owned(chains, Extended(chains, parent, key, owner), if parent.Some? then parent.value.0 else key + 1, owner)
  {
  }

  /** Everybody who rotates did so before, within these chains. */
  ghost predicate RotatedBefore(s: Sys, r: Sys, chains: Chains) {
    forall p | Rotates(r.procs, p) :: Rotates(s.procs, p) && s.procs[p] == r.procs[p] && Rotating(s.procs[p]).value.0 in chains
  }

  lemma OwnersOnWrite(s: Sys, r: Sys, chains: Chains, after: Chains, key: nat, row: RefreshRow)
    requires OwnersInv(s, chains) && r.db.refresh == s.db.refresh[key := row] && s.db.nextId <= r.db.nextId
    requires RotatedBefore(s, r, chains) && Owned(chains, after, row.familyId, Owner(row))
    requires forall k | k in s.db.refresh :: s.db.refresh[k].familyId in chains
    requires row.identityId < r.db.nextId && row.clientId < r.db.nextId
    ensures OwnersInv(r, after)
  {
  }

  lemma WriteOwners(s: Sys, step: Step, chains: Chains)
    requires Inv(s, chains) && Enabled(s, step) && step.WriteRefresh?
    requires s.procs[step.p].g.parent.Some? ==> s.procs[step.p].g.parent.value.0 in chains
    ensures OwnersInv(Apply(s, step), Extended(chains, s.procs[step.p].g.parent, s.db.nextId, GrantOwner(s.procs[step.p].g)))
  {
    var r, g := Apply(s, step), s.procs[step.p].g;
    WriteAddsOneRow(s, step);
    WriterOwns(s, step, chains);
    WriterLeavesAll(s, step, chains);
    ExtendedIsOwned(chains, g.parent, s.db.nextId, GrantOwner(g));
    OwnersOnWrite(s, r, chains, Extended(chains, g.parent, s.db.nextId, GrantOwner(g)), s.db.nextId, NewRefreshRow(s.db, g, s.procs[step.p].at));
  }

  lemma WriterLeavesAll(s: Sys, step: Step, chains: Chains)
    requires Inv(s, chains) && Enabled(s, step) && step.WriteRefresh?
    ensures RotatedBefore(s, Apply(s, step), chains)
  {
    forall p | Rotates(Apply(s, step).procs, p)
      ensures Rotates(s.procs, p) && s.procs[p] == Apply(s, step).procs[p] && Rotating(s.procs[p]).value.0 in chains
    {
      WriterLeaves(s, step, chains, p);
    }
  }

  lemma WriterOwns(s: Sys, step: Step, chains: Chains)
    requires Fresh(s.db) && OwnersInv(s, chains) && Enabled(s, step) && step.WriteRefresh?
    ensures var g := s.procs[step.p].g;
      && g.identityId < s.db.nextId && g.clientId < s.db.nextId
      && (g.parent.Some? && g.parent.value.0 in chains ==> chains[g.parent.value.0].owner == GrantOwner(g))
  {
    var g := s.procs[step.p].g;
    assert g.parent.Some? ==> Rotates(s.procs, step.p) && Rotating(s.procs[step.p]) == g.parent;
  }

  lemma EndsStayOnWrite(phase: Phase, m: Rows, key: nat, row: RefreshRow, chains: Chains, after: Chains)
    requires Rotating(phase).Some? && HoldsEnd(phase, m, chains)
    requires var r := Rotating(phase).value; row.familyId != r.0 && key != r.1 && r.0 in after && after[r.0] == chains[r.0]
    ensures HoldsEnd(phase, m[key := row], after)
  {
  }

  lemma WriterLeaves(s: Sys, step: Step, chains: Chains, p: nat)
    requires Inv(s, chains) && Enabled(s, step) && step.WriteRefresh? && Rotates(Apply(s, step).procs, p)
    ensures Rotates(s.procs, p) && Apply(s, step).procs[p] == s.procs[p] && HoldsEnd(s.procs[p], s.db.refresh, chains)
    ensures var r, parent := Rotating(s.procs[p]).value, s.procs[step.p].g.parent;
      r.1 < s.db.nextId && r.0 < s.db.nextId && (parent.Some? ==> r.0 != parent.value.0)
  {
    RotatorsStay(s, step, p);
    var r, parent := Rotating(s.procs[p]).value, s.procs[step.p].g.parent;
    assert HoldsEnd(s.procs[p], s.db.refresh, chains);
    KeysBelow(chains, s.db.nextId, r.0);
    assert parent.Some? ==> Rotates(s.procs, step.p) && Rotating(s.procs[step.p]) == parent;
  }

  lemma WriteFlight(s: Sys, step: Step, chains: Chains)
    requires Inv(s, chains) && Enabled(s, step) && step.WriteRefresh?
    requires s.procs[step.p].g.parent.Some? ==> s.procs[step.p].g.parent.value.0 in chains
    ensures FlightInv(Apply(s, step).procs, Apply(s, step).db.refresh, Extended(chains, s.procs[step.p].g.parent, s.db.nextId, GrantOwner(s.procs[step.p].g)))
  {
    var r, g, key := Apply(s, step), s.procs[step.p].g, s.db.nextId;
    var row, after := NewRefreshRow(s.db, g, s.procs[step.p].at), Extended(chains, g.parent, key, GrantOwner(g));
    WriteAddsOneRow(s, step);
    WriterLeavesAll(s, step, chains);
    forall p | Rotates(r.procs, p) ensures Bypassed(s.procs[p], key, row.familyId, chains, after) {
      BypassedOnWrite(s, step, chains, p);
    }
    FlightOnWrite(s, r, chains, after, key, row);
  }

  /** A rotation of another family, whose chain is as it was. */
  ghost predicate Bypassed(phase: Phase, key: nat, family: nat, chains: Chains, after: Chains) {
    Rotating(phase).Some? ==>
      var r := Rotating(phase).value;
      family != r.0 && key != r.1 && r.0 in chains && r.0 in after && after[r.0] == chains[r.0]
  }

  lemma BypassedOnWrite(s: Sys, step: Step, chains: Chains, p: nat)
    requires Inv(s, chains) && Enabled(s, step) && step.WriteRefresh? && Rotates(Apply(s, step).procs, p)
    requires s.procs[step.p].g.parent.Some? ==> s.procs[step.p].g.parent.value.0 in chains
    ensures var g := s.procs[step.p].g;
      p in s.procs && Bypassed(s.procs[p], s.db.nextId, NewRefreshRow(s.db, g, s.procs[step.p].at).familyId, chains,
                               Extended(chains, g.parent, s.db.nextId, GrantOwner(g)))
  {
    WriterLeaves(s, step, chains, p);
  }

  lemma FlightOnWrite(s: Sys, r: Sys, chains: Chains, after: Chains, key: nat, row: RefreshRow)
    requires FlightInv(s.procs, s.db.refresh, chains) && RotatedBefore(s, r, chains) && r.db.refresh == s.db.refresh[key := row]
    requires forall p | Rotates(r.procs, p) :: Bypassed(s.procs[p], key, row.familyId, chains, after)
    ensures FlightInv(r.procs, r.db.refresh, after)
  {
    forall p | Rotates(r.procs, p) ensures HoldsEnd(r.procs[p], r.db.refresh, after) {
      EndsStayOnWrite(s.procs[p], s.db.refresh, key, row, chains, after);
    }
  }

  // ---------------------------------------------------------------------------------------------
  // Every run
  // ---------------------------------------------------------------------------------------------

  lemma StepInv(s: Sys, step: Step, chains: Chains) returns (after: Chains)
    requires Inv(s, chains) && Enabled(s, step)
    ensures Inv(Apply(s, step), after) && chains.Keys <= after.Keys
  {
    after := chains;
    if step.WriteRefresh? {
      after := WriteStep(s, step, chains);
    } else if step.Purge? {
      after := PurgeStep(s, chains);
    } else if step.RemoveIdentity? || step.RemoveClient? {
      after := RemovalStep(s, step, chains);
    } else {
      RevokingStep(s, step, chains);
    }
  }

  lemma {:induction false} RunInv(s: Sys, steps: seq<Step>, chains: Chains) returns (after: Chains)
    requires Inv(s, chains) && Run(s, steps).Some?
    ensures Inv(Run(s, steps).value, after) && chains.Keys <= after.Keys
  {
    if steps == [] {
      after := chains;
    } else {
      after := RunInv(s, steps[..|steps| - 1], chains);
      after := StepInv(Run(s, steps[..|steps| - 1]).value, steps[|steps| - 1], after);
    }
  }

  lemma InitInv(s: Sys)
    requires Init(s)
    ensures Inv(s, map[])
  {
  }

  /** Each family is one linear chain of which cleanup has taken a front part: what survives is in issue order,
      each row naming the one before it, all but the last revoked. */
  lemma FamiliesAreLinear(s: Sys, steps: seq<Step>, key: nat) returns (chain: Chain)
    requires Init(s) && Run(s, steps).Some? && key in Run(s, steps).value.db.refresh
    ensures var m := Run(s, steps).value.db.refresh; IsChain(m, m[key].familyId, chain)
  {
    InitInv(s);
    var chains := RunInv(s, steps, map[]);
    chain := chains[Run(s, steps).value.db.refresh[key].familyId];
  }

  /** A token's parent is older, and either it survives, revoked and in the same family, or the token is the
      oldest of its family that survives. */
  ghost predicate ParentIsSpent(m: Rows, a: nat)
    requires a in m
  {
    m[a].parentJti.Some? ==>
      var p := m[a].parentJti.value;
      && p < a
      && if p in m then m[p].revoked && m[p].familyId == m[a].familyId
         else forall k | k in m && m[k].familyId == m[a].familyId :: a <= k
  }

  lemma ChainParents(m: Rows, family: nat, c: Chain, a: nat)
    requires IsChain(m, family, c) && a in m && m[a].familyId == family
    requires forall i | 0 <= i < |c.keys| :: c.keys[i] in m ==> m[c.keys[i]].familyId == family
    ensures ParentIsSpent(m, a)
  {
    var i := PlaceOf(m, family, c, a);
    if i > c.gone {
      assert Link(m, family, c.keys, i - 1);
    } else if i > 0 {
      forall k | k in m && m[k].familyId == family ensures a <= k && k != c.keys[i - 1] {
        var j := PlaceOf(m, family, c, k);
      }
    }
  }

  /** A token stands at one place of one chain. */
  lemma OnePlace(chains: Chains, nextId: nat, f: nat, i: nat, g: nat, j: nat)
    requires KeysInv(chains, nextId) && f in chains && g in chains && Ascends(chains[f].keys)
    requires i < |chains[f].keys| && j < |chains[g].keys| && chains[f].keys[i] == chains[g].keys[j]
    ensures f == g && i == j
  {
    var k := chains[f].keys[i];
    assert k in KeySet(chains[f]) && k in KeySet(chains[g]);
  }

  ghost predicate Ascends(keys: seq<nat>) { forall i, j | 0 <= i < j < |keys| :: keys[i] < keys[j] }

  /** Places with the same key before them, or both first in one chain, are the same. */
  lemma SamePlace(chains: Chains, nextId: nat, f: nat, i: nat, g: nat, j: nat)
    requires KeysInv(chains, nextId) && f in chains && g in chains && Ascends(chains[f].keys)
    requires i < |chains[f].keys| && j < |chains[g].keys| && ParentIn(chains[f].keys, i) == ParentIn(chains[g].keys, j)
    requires i == 0 ==> f == g
    ensures f == g && i == j
  {
    if i > 0 { OnePlace(chains, nextId, f, i - 1, g, j - 1); }
  }

  lemma SiblingsAreOne(m: Rows, chains: Chains, nextId: nat, a: nat, b: nat)
    requires ChainsInv(m, chains, nextId) && KeysInv(chains, nextId) && a in m && b in m
    requires m[a].parentJti == m[b].parentJti && (m[a].parentJti.Some? || m[a].familyId == m[b].familyId)
    ensures a == b
  {
    var f, g := m[a].familyId, m[b].familyId;
    var i := Place(m, chains, nextId, a);
    var j := Place(m, chains, nextId, b);
    ChainAscends(m, chains, nextId, f);
    SamePlace(chains, nextId, f, i, g, j);
  }

  lemma ChainAscends(m: Rows, chains: Chains, nextId: nat, f: nat)
    requires ChainsInv(m, chains, nextId) && f in chains
    ensures Ascends(chains[f].keys)
  {
  }

  lemma Place(m: Rows, chains: Chains, nextId: nat, a: nat) returns (i: nat)
    requires ChainsInv(m, chains, nextId) && a in m
    ensures m[a].familyId in chains && i < |chains[m[a].familyId].keys| && chains[m[a].familyId].keys[i] == a
    ensures m[a].parentJti == ParentIn(chains[m[a].familyId].keys, i)
  {
    i := PlaceOf(m, m[a].familyId, chains[m[a].familyId], a);
  }

  lemma KeysOfOneFamily(m: Rows, chains: Chains, nextId: nat, f: nat)
    requires ChainsInv(m, chains, nextId) && KeysInv(chains, nextId) && f in chains
    ensures forall i | 0 <= i < |chains[f].keys| :: chains[f].keys[i] in m ==> m[chains[f].keys[i]].familyId == f
  {
    forall i | 0 <= i < |chains[f].keys| && chains[f].keys[i] in m ensures m[chains[f].keys[i]].familyId == f {
      var k := chains[f].keys[i];
      var g := m[k].familyId;
      var j := PlaceOf(m, g, chains[g], k);
      assert k in KeySet(chains[f]) && k in KeySet(chains[g]);
    }
  }

  /** What linearity means for any two surviving rows, without naming the chain: parents are spent, a token has
      one child at most, and a family has one root at most. */
  lemma ParentsAreSpentAndUnique(s: Sys, steps: seq<Step>, a: nat, b: nat)
    requires Init(s) && Run(s, steps).Some?
    requires a in Run(s, steps).value.db.refresh && b in Run(s, steps).value.db.refresh
    ensures var m := Run(s, steps).value.db.refresh;
      && ParentIsSpent(m, a)
      && (m[a].parentJti.Some? && m[a].parentJti == m[b].parentJti ==> a == b)
      && (m[a].parentJti == m[b].parentJti == None && m[a].familyId == m[b].familyId ==> a == b)
  {
    InitInv(s);
    var chains := RunInv(s, steps, map[]);
    var r := Run(s, steps).value;
    var m := r.db.refresh;
    KeysOfOneFamily(m, chains, r.db.nextId, m[a].familyId);
    ChainParents(m, m[a].familyId, chains[m[a].familyId], a);
    if m[a].parentJti == m[b].parentJti && (m[a].parentJti.Some? || m[a].familyId == m[b].familyId) {
      SiblingsAreOne(m, chains, r.db.nextId, a, b);
    }
  }

  lemma AtMostOne(a: set<nat>)
    requires forall x, y | x in a && y in a :: x == y
    ensures |a| <= 1
  {
    if x :| x in a {
      assert a == {x};
    }
  }

  /** In every interleaving a family has at most one token-or-rotation in hand. */
  lemma OneHolderPerFamily(s: Sys, steps: seq<Step>, family: nat)
    requires Init(s) && Run(s, steps).Some?
    ensures |LiveTokens(Run(s, steps).value.db, family)| + |InFlight(Run(s, steps).value, family)| <= 1
  {
    InitInv(s);
    var chains := RunInv(s, steps, map[]);
    var r := Run(s, steps).value;
    forall k | k in LiveTokens(r.db, family)
      ensures family in chains && chains[family].keys != [] && k == Last(chains[family]) && InFlight(r, family) == {}
    {
      LiveIsLast(r, k, chains);
    }
    AtMostOne(LiveTokens(r.db, family));
    AtMostOne(InFlight(r, family));
  }

  /** Long enough issued or expired for cleanup to take the row. */
  predicate IsAged(r: RefreshRow, now: int) {
    r.issuedAt < now - CleanupJob.RETAIN_MS || r.expiresAt < now - CleanupJob.RETAIN_MS
  }

  /** Its identity or its client has been deleted. */
  predicate IsOrphaned(r: RefreshRow, db: Db) { !CanIssue(db, r.identityId, r.clientId) }

  lemma OnlyRemovalLoses(s: Sys, step: Step, k: nat)
    requires Enabled(s, step) && Fresh(s.db) && k in s.db.refresh && k !in Apply(s, step).db.refresh
    ensures Removes(step)
  {
    if step.WriteRefresh? { WriteAddsOneRow(s, step); } else { StepEvolves(s, step); }
  }

  lemma AccountsLose(db: Db, step: Step, k: nat)
    requires IsAccountStep(step) && k in db.refresh && k !in ApplyAccounts(db, step).refresh
    ensures IsOrphaned(db.refresh[k], ApplyAccounts(db, step))
  {
  }

  /** If the row is lost it was aged, or its identity or client is deleted now. */
  ghost predicate LosesFairly(s: Sys, step: Step, k: nat)
    requires Enabled(s, step) && k in s.db.refresh
  {
    var r := Apply(s, step);
    k !in r.db.refresh ==> IsAged(s.db.refresh[k], s.now) || IsOrphaned(s.db.refresh[k], r.db)
  }

  lemma RemovalLosesFairly(s: Sys, step: Step, k: nat)
    requires Enabled(s, step) && k in s.db.refresh && Removes(step)
    ensures LosesFairly(s, step, k)
  {
    if k !in Apply(s, step).db.refresh {
      if step.Purge? { PurgeLoses(s.db, s.now, k); } else { AccountsLose(s.db, step, k); }
    }
  }

  lemma LostStep(s: Sys, step: Step, k: nat)
    requires Enabled(s, step) && Fresh(s.db) && k in s.db.refresh
    ensures LosesFairly(s, step, k)
  {
    if Removes(step) {
      RemovalLosesFairly(s, step, k);
    } else if k !in Apply(s, step).db.refresh {
      OnlyRemovalLoses(s, step, k);
    }
  }

  lemma PurgeLoses(db: Db, now: int, k: nat)
    requires k in db.refresh && k !in CleanupJob.Cleaned(db, now).refresh
    ensures IsAged(db.refresh[k], now)
  {
  }

  /** Ids of deleted identities and clients are not drawn again. */
  lemma OrphansStay(a: Db, b: Db, r: RefreshRow)
    requires Evolves(a, b) && IsOrphaned(r, a) && r.identityId < a.nextId && r.clientId < a.nextId
    ensures IsOrphaned(r, b)
  {
  }

  /** `revoked` never goes back to false, no row changes its place in its family, and a row is lost only to
      cleanup, a week after its issue at the earliest, or together with its identity or client. */
  lemma {:induction false} RevokedIsForever(s: Sys, steps: seq<Step>, k: nat)
    requires Fresh(s.db) && Run(s, steps).Some? && k in s.db.refresh
    ensures var m, r := s.db.refresh, Run(s, steps).value;
      if k in r.db.refresh then SameToken(m[k], r.db.refresh[k]) else IsAged(m[k], r.now) || IsOrphaned(m[k], r.db)
  {
    if steps != [] {
      var front, step := steps[..|steps| - 1], steps[|steps| - 1];
      var q := Run(s, front).value;
      RevokedIsForever(s, front, k);
      RunEvolves(s, front);
      RowsStay(q, step);
      StepEvolves(q, step);
      if k !in q.db.refresh {
        if IsOrphaned(s.db.refresh[k], q.db) { OrphansStay(q.db, Apply(q, step).db, s.db.refresh[k]); }
      } else if k !in Apply(q, step).db.refresh {
        LostStep(q, step, k);
      }
    }
  }

  // ---------------------------------------------------------------------------------------------
  // The kill-chain among other callers
  // ---------------------------------------------------------------------------------------------

  /** The rotations of a family whose identity and client still exist, so that they can write the child. */
  function Finishers(s: Sys, family: nat): set<nat> {
    set p | p in InFlight(s, family) && CanIssue(s.db, OwnerOf(s.procs[p]).0, OwnerOf(s.procs[p]).1)
  }

  /** A family without a live token and without a rotation in flight that could write one. */
  ghost predicate Dead(s: Sys, family: nat) {
    family < s.db.nextId && LiveTokens(s.db, family) == {} && Finishers(s, family) == {}
  }

  lemma DeadFlightStep(s: Sys, step: Step, family: nat, chains: Chains)
    requires Enabled(s, step) && Inv(s, chains) && LiveTokens(s.db, family) == {}
    ensures Finishers(Apply(s, step), family) <= Finishers(s, family)
  {
    var r := Apply(s, step);
    StepEvolves(s, step);
    if WinsSwap(s, step) {
      assert Tells(s.db, s.procs[step.p].t);
      assert s.procs[step.p].t.key !in LiveTokens(s.db, family);
    }
    forall p | p in Finishers(r, family) ensures p in Finishers(s, family) {
      if WinsSwap(s, step) {
        RotatorsAfterSwap(s, step, p);
      } else {
        RotatorsStay(s, step, p);
      }
      FinisherWas(s, r.db, p, chains);
    }
  }

  lemma FinisherWas(s: Sys, later: Db, p: nat, chains: Chains)
    requires Inv(s, chains) && Evolves(s.db, later) && Rotates(s.procs, p)
    requires CanIssue(later, OwnerOf(s.procs[p]).0, OwnerOf(s.procs[p]).1)
    ensures CanIssue(s.db, OwnerOf(s.procs[p]).0, OwnerOf(s.procs[p]).1)
  {
    assert HoldsEnd(s.procs[p], s.db.refresh, chains);
  }

  lemma DeadRowsStep(s: Sys, step: Step, family: nat)
    requires Enabled(s, step) && Dead(s, family) && Fresh(s.db)
    ensures LiveTokens(Apply(s, step).db, family) <= LiveTokens(s.db, family) && family < Apply(s, step).db.nextId
  {
    StepEvolves(s, step);
    RowsStay(s, step);
    if step.WriteRefresh? {
      WriteAddsOneRow(s, step);
      var g := s.procs[step.p].g;
      assert g.parent.Some? ==> Rotates(s.procs, step.p) && step.p !in Finishers(s, family);
    }
  }

  lemma DeadStep(s: Sys, step: Step, family: nat, chains: Chains)
    requires Enabled(s, step) && Dead(s, family) && Inv(s, chains)
    ensures Dead(Apply(s, step), family)
  {
    DeadRowsStep(s, step, family);
    DeadFlightStep(s, step, family, chains);
  }

  /** A dead family stays dead in every later state. */
  lemma {:induction false} DeadStaysDead(s: Sys, steps: seq<Step>, family: nat, chains: Chains)
    requires Inv(s, chains) && Dead(s, family) && Run(s, steps).Some?
    ensures Dead(Run(s, steps).value, family)
  {
    if steps != [] {
      var front := steps[..|steps| - 1];
      DeadStaysDead(s, front, family, chains);
      var after := RunInv(s, front, chains);
      DeadStep(Run(s, front).value, steps[|steps| - 1], family, after);
    }
  }

  ghost predicate StaysWithoutToken(s: Sys, family: nat) {
    forall steps | Run(s, steps).Some? :: LiveTokens(Run(s, steps).value.db, family) == {}
  }

  lemma RunAppend(s: Sys, steps: seq<Step>, step: Step)
    requires Run(s, steps).Some? && Enabled(Run(s, steps).value, step)
    ensures Run(s, steps + [step]) == Some(Apply(Run(s, steps).value, step))
  {
  }

  /** A rotation that won its swap can still write its child while its identity and client exist, whatever has
      happened to the family since. */
  lemma InFlightRevives(s: Sys, family: nat, p: nat) returns (steps: seq<Step>)
    requires p in Finishers(s, family)
    ensures Run(s, steps).Some? && LiveTokens(Run(s, steps).value.db, family) != {}
  {
    steps := [];
    if s.procs[p].ReadingLevel? {
      RunAppend(s, steps, ReadLevel(p, {}));
      steps := steps + [ReadLevel(p, {})];
    }
    var q := Run(s, steps).value;
    assert q.procs[p].Issuing? && q.procs[p].refresh && q.procs[p].g.parent.value.0 == family && MayWrite(q.db, q.procs[p].g);
    RunAppend(s, steps, WriteRefresh(p));
    WriteAddsOneRow(q, WriteRefresh(p));
    steps := steps + [WriteRefresh(p)];
    assert q.db.nextId in LiveTokens(Run(s, steps).value.db, family);
  }

  lemma FamilyUpdateKills(s: Sys, p: nat)
    requires Enabled(s, KillFamily(p))
    ensures LiveTokens(Apply(s, KillFamily(p)).db, s.procs[p].t.row.familyId) == {}
    ensures forall f :: Finishers(Apply(s, KillFamily(p)), f) == Finishers(s, f)
    ensures Apply(s, KillFamily(p)).db.nextId == s.db.nextId
  {
    forall f ensures Finishers(Apply(s, KillFamily(p)), f) == Finishers(s, f) {
      assert forall q | q != p && q in s.procs :: Apply(s, KillFamily(p)).procs[q] == s.procs[q];
    }
  }

  lemma KillIsFinalFrom(s: Sys, p: nat, chains: Chains)
    requires Inv(s, chains) && Enabled(s, KillFamily(p))
    ensures var f, r := s.procs[p].t.row.familyId, Apply(s, KillFamily(p));
      && LiveTokens(r.db, f) == {}
      && (StaysWithoutToken(r, f) <==> Finishers(s, f) == {})
  {
    var f, r := s.procs[p].t.row.familyId, Apply(s, KillFamily(p));
    RevokingStep(s, KillFamily(p), chains);
    FamilyUpdateKills(s, p);
    assert Tells(s.db, s.procs[p].t);
    if Finishers(s, f) == {} {
      forall steps | Run(r, steps).Some? ensures LiveTokens(Run(r, steps).value.db, f) == {} {
        DeadStaysDead(r, steps, f, chains);
      }
    } else {
      var q :| q in Finishers(r, f);
      var steps := InFlightRevives(r, f, q);
    }
  }

  /** In every run, killing a family is final exactly when no rotation of it is in flight at the family update
      that could still write its child. */
  lemma KillIsFinalIffNoneInFlight(s: Sys, steps: seq<Step>, p: nat)
    requires Init(s) && Run(s, steps).Some? && Enabled(Run(s, steps).value, KillFamily(p))
    ensures var q := Run(s, steps).value;
      var family, r := q.procs[p].t.row.familyId, Apply(q, KillFamily(p));
      && LiveTokens(r.db, family) == {}
      && (StaysWithoutToken(r, family) <==> Finishers(q, family) == {})
  {
    InitInv(s);
    var chains := RunInv(s, steps, map[]);
    KillIsFinalFrom(Run(s, steps).value, p, chains);
  }

  /** What the sweep reaches: every access token of the pair created before its read. */
  ghost predicate Reached(db: Db, t: Snapshot, readAt: nat, now: int, spared: set<nat>) {
    forall j | j in LiveAccess(db, t.row.identityId, t.row.clientId, now) && j < readAt :: j in spared
  }

  ghost predicate SweepInv(s: Sys) {
    && Fresh(s.db)
    && forall p | p in s.procs :: Reaches(s, s.procs[p])
  }

  ghost predicate Reaches(s: Sys, phase: Phase) {
    match phase
    case Marking(t, live, readAt) => readAt <= s.db.nextId && Reached(s.db, t, readAt, s.now, live.Keys)
    case Thrown(t, readAt) => readAt <= s.db.nextId && Reached(s.db, t, readAt, s.now, {})
    case _ => true
  }

  lemma ReachedLater(a: Db, b: Db, t: Snapshot, readAt: nat, now: int, later: int, spared: set<nat>)
    requires Evolves(a, b) && now <= later && readAt <= a.nextId && Reached(a, t, readAt, now, spared)
    ensures Reached(b, t, readAt, later, spared)
  {
  }

  ghost predicate SweeperStays(s: Sys, step: Step, p: nat)
    requires Enabled(s, step)
  {
    var r := Apply(s, step);
    p in r.procs && (r.procs[p].Marking? || r.procs[p].Thrown?) && step != Sweep(p) && step != Mark(p) ==>
      p in s.procs && s.procs[p] == r.procs[p]
  }

  lemma SweepersInRefresh(s: Sys, step: Step, p: nat)
    requires Enabled(s, step) && IsRefreshStep(step)
    ensures SweeperStays(s, step, p)
  {
  }

  lemma SweepersInSignIn(s: Sys, step: Step, p: nat)
    requires Enabled(s, step) && IsSignInStep(step)
    ensures SweeperStays(s, step, p)
  {
  }

  lemma SweepersElsewhere(s: Sys, step: Step, p: nat)
    requires Enabled(s, step) && !IsRefreshStep(step) && !IsSignInStep(step)
    ensures SweeperStays(s, step, p)
  {
  }

  lemma SweepersStay(s: Sys, step: Step, p: nat)
    requires Enabled(s, step)
    ensures SweeperStays(s, step, p)
  {
    if IsRefreshStep(step) {
      SweepersInRefresh(s, step, p);
    } else if IsSignInStep(step) {
      SweepersInSignIn(s, step, p);
    } else {
      SweepersElsewhere(s, step, p);
    }
  }

  lemma SweepStep(s: Sys, step: Step)
    requires SweepInv(s) && Enabled(s, step)
    ensures SweepInv(Apply(s, step))
  {
    var r := Apply(s, step);
    StepEvolves(s, step);
    forall p | p in r.procs ensures Reaches(r, r.procs[p]) {
      SweeperStep(s, step, p);
    }
  }

  lemma SweeperStep(s: Sys, step: Step, p: nat)
    requires SweepInv(s) && Enabled(s, step) && p in Apply(s, step).procs
    ensures Reaches(Apply(s, step), Apply(s, step).procs[p])
  {
    var r := Apply(s, step);
    SweepersStay(s, step, p);
    if step == Sweep(p) {
      SweepReaches(s, p);
    } else if step == Mark(p) {
      assert Reaches(s, s.procs[p]);
      MarkReaches(s, p);
    } else if r.procs[p].Marking? || r.procs[p].Thrown? {
      assert Reaches(s, s.procs[p]);
      StepEvolves(s, step);
      ReachesLater(s, r, s.procs[p]);
    }
  }

  lemma ReachesLater(s: Sys, r: Sys, phase: Phase)
    requires Evolves(s.db, r.db) && s.now <= r.now && Reaches(s, phase)
    ensures Reaches(r, phase)
  {
    match phase
    case Marking(t, live, readAt) => ReachedLater(s.db, r.db, t, readAt, s.now, r.now, live.Keys);
    case Thrown(t, readAt) => ReachedLater(s.db, r.db, t, readAt, s.now, r.now, {});
    case _ =>
  }

  lemma SweepReaches(s: Sys, p: nat)
    requires Enabled(s, Sweep(p))
    ensures var r := Apply(s, Sweep(p)); p in r.procs && Reaches(r, r.procs[p])
  {
  }

  lemma MarkReaches(s: Sys, p: nat)
    requires Enabled(s, Mark(p)) && Reaches(s, s.procs[p])
    ensures var r := Apply(s, Mark(p)); p in r.procs && Reaches(r, r.procs[p])
  {
  }

  /** In every interleaving, when the kill-chain throws, each access token of that identity and client
      created before its sweep read is revoked or expired. Tokens issued since are the ones it misses. */
  lemma {:induction false} SweepReachesEarlierTokens(s: Sys, steps: seq<Step>)
    requires Init(s) && Run(s, steps).Some?
    ensures SweepInv(Run(s, steps).value)
  {
    if steps != [] {
      SweepReachesEarlierTokens(s, steps[..|steps| - 1]);
      SweepStep(Run(s, steps[..|steps| - 1]).value, steps[|steps| - 1]);
    }
  }
}
