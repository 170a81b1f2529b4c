/** WebAuthn challenges, src/lib/challenge-store.ts: one key per identity and ceremony, kept in Redis or, when
    Redis is disabled or its client cannot be loaded, in process memory. */
module Challenges {
  import opened Options

  datatype Ceremony = Registration | Authentication

  /** Milliseconds a challenge may be redeemed for. */
  function Ttl(c: Ceremony): int { (if c.Registration? then 120 else 90) * 1000 }

  /** Two minutes to register, a minute and a half to sign in. */
  lemma TtlSeconds()
    ensures Ttl(Registration) == 120_000 && Ttl(Authentication) == 90_000
  {
  }

  // ---------------------------------------------------------------------------------------------
  // Keys
  // ---------------------------------------------------------------------------------------------

  function CeremonyName(c: Ceremony): string {
    if c.Registration? then "registration" else "authentication"
  }

  const KEY_PREFIX := "passkey:" + "challenge:"

  function ChallengeKey(identity: string, c: Ceremony): string {
    KEY_PREFIX + CeremonyName(c) + ":" + identity
  }

  /** Distinct pairs never share a key, whatever characters the identity string has in it. */
  lemma KeyInjective(i: string, c: Ceremony, j: string, d: Ceremony)
    requires ChallengeKey(i, c) == ChallengeKey(j, d)
    ensures i == j && c == d
  {
    var k := ChallengeKey(i, c);
    var n := |KEY_PREFIX|;
    assert k[n] == CeremonyName(c)[0] && k[n] == CeremonyName(d)[0];
    assert c == d;
    assert i == k[n + |CeremonyName(c)| + 1..] && j == k[n + |CeremonyName(d)| + 1..];
  }

  // ---------------------------------------------------------------------------------------------
  // The store
  // ---------------------------------------------------------------------------------------------

  datatype Entry = Entry(id: nat, challenge: string, expiresAt: int)

  /** What Redis holds: the value and the millisecond until which it is there. */
  datatype Timed = Timed(entry: Entry, deadline: int)

  /** How a Redis command goes: it may fail before or after it took effect. */
  datatype Call = Works | FailsBefore | FailsAfter

  datatype Backend = Backend(memStore: map<string, Entry>, redis: map<string, Timed>, linked: bool)

  /** getRedis keeps its client once it has one. */
  function AfterGetRedis(b: Backend, enabled: bool, initOk: bool): Backend {
    b.(linked := b.linked || (enabled && initOk))
  }

  function Put(b: Backend, enabled: bool, initOk: bool, call: Call, k: string, e: Entry, deadline: int): Backend {
    var b1 := AfterGetRedis(b, enabled, initOk);
    if !(enabled && b1.linked) then b1.(memStore := b1.memStore[k := e])
    else if call.FailsBefore? then b1
    else b1.(redis := b1.redis[k := Timed(e, deadline)])
  }

  /** What the backend in use has under a key. */
  function Current(b: Backend, enabled: bool, k: string): Option<Entry> {
    if enabled && b.linked then (if k in b.redis then Some(b.redis[k].entry) else None)
    else if k in b.memStore then Some(b.memStore[k])
    else None
  }

  predicate Lapsed(b: Backend, enabled: bool, k: string, now: int)
    requires Current(b, enabled, k).Some?
  {
    if enabled && b.linked then b.redis[k].deadline < now else b.memStore[k].expiresAt < now
  }

  function Taken(b: Backend, enabled: bool, initOk: bool, call: Call, k: string): Backend {
    var b1 := AfterGetRedis(b, enabled, initOk);
    if !(enabled && b1.linked) then b1.(memStore := b1.memStore - {k})
    else if call.FailsBefore? then b1
    else b1.(redis := b1.redis - {k})
  }

  /** What consuming returns; `parses` says whether the stored value comes back as the JSON that was put in. */
  function Redeemed(b: Backend, enabled: bool, initOk: bool, call: Call, parses: bool, k: string, now: int): Option<Entry> {
    var b1 := AfterGetRedis(b, enabled, initOk);
    if Current(b1, enabled, k).None? || Lapsed(b1, enabled, k, now) then None
    else if enabled && b1.linked && !(call.Works? && parses) then None
    else Current(b1, enabled, k)
  }

  /** Redis is in use once its client was obtained, which takes that it is enabled and can be loaded. */
  predicate UsesRedis(b: Backend, enabled: bool, initOk: bool) { enabled && (b.linked || initOk) }

  lemma LinkRows(b: Backend, enabled: bool, initOk: bool)
    ensures AfterGetRedis(b, enabled, initOk) == Backend(b.memStore, b.redis, b.linked || (enabled && initOk))
  {
  }

  /** Storing writes the one store in use, unless Redis fails before the command takes effect. */
  lemma StoredRows(b: Backend, enabled: bool, initOk: bool, call: Call, k: string, e: Entry, deadline: int)
    ensures var after := Put(b, enabled, initOk, call, k, e, deadline);
      && after.memStore == (if UsesRedis(b, enabled, initOk) then b.memStore else b.memStore[k := e])
      && after.redis == (if UsesRedis(b, enabled, initOk) && call != FailsBefore then b.redis[k := Timed(e, deadline)] else b.redis)
  {
  }

  /** Consuming removes the entry from the store in use and yields it if it is there, its time has not run out and,
      with Redis, the command worked and the value parsed. */
  lemma ConsumedRows(b: Backend, enabled: bool, initOk: bool, call: Call, parses: bool, k: string, now: int)
    ensures var after, r := Taken(b, enabled, initOk, call, k), Redeemed(b, enabled, initOk, call, parses, k, now);
      if UsesRedis(b, enabled, initOk) then
        && after.memStore == b.memStore && after.redis == (if call == FailsBefore then b.redis else b.redis - {k})
        && r == (if k in b.redis && now <= b.redis[k].deadline && call == Works && parses then Some(b.redis[k].entry) else None)
      else
        && after.memStore == b.memStore - {k} && after.redis == b.redis
        && r == if k in b.memStore && now <= b.memStore[k].expiresAt then Some(b.memStore[k]) else None
  {
  }

  class ChallengeStore {
    const enabled: bool
    var memStore: map<string, Entry>
    var redis: map<string, Timed>
    var linked: bool

    constructor (enabled: bool)
      ensures View() == Backend(map[], map[], false) && this.enabled == enabled
    {
      this.enabled := enabled;
      memStore, redis, linked := map[], map[], false;
    }

    function View(): Backend
      reads this
    {
      Backend(memStore, redis, linked)
    }

    /** The client, if there is one; `initOk` says whether loading it works. */
    method GetRedis(initOk: bool) returns (client: bool)
      modifies this`linked
      ensures View() == AfterGetRedis(old(View()), enabled, initOk) && client == (enabled && linked)
    {
      if !enabled { return false; }
      if linked { return true; }
      if !initOk { return false; }
      linked := true;
      return true;
    }

    /** `challengeId` is the freshly drawn UUID; None stands for a thrown Redis error. */
    method StoreChallenge(identity: string, ceremony: Ceremony, challenge: string, challengeId: nat, now: int,
                          initOk: bool, call: Call) returns (r: Option<(nat, string)>)
      modifies this
      ensures View() == Put(old(View()), enabled, initOk, call, ChallengeKey(identity, ceremony),
                            Entry(challengeId, challenge, now + Ttl(ceremony)), now + Ttl(ceremony))
      ensures r == if enabled && linked && !call.Works? then None else Some((challengeId, challenge))
    {
      var ttl := if ceremony.Registration? then 120 else 90;
      var k := ChallengeKey(identity, ceremony);
      var entry := Entry(challengeId, challenge, now + ttl * 1000);
      var client := GetRedis(initOk);
      if client {
        if !call.FailsBefore? {
          redis := redis[k := Timed(entry, now + ttl * 1000)];
        }
        if !call.Works? { return None; }
      } else {
        memStore := memStore[k := entry];
      }
      return Some((challengeId, challenge));
    }

    method ConsumeChallenge(identity: string, ceremony: Ceremony, now: int, initOk: bool, call: Call, parses: bool)
      returns (r: Option<(nat, string)>)
      modifies this
      ensures View() == Taken(old(View()), enabled, initOk, call, ChallengeKey(identity, ceremony))
      ensures var e := Redeemed(old(View()), enabled, initOk, call, parses, ChallengeKey(identity, ceremony), now);
        r == if e.Some? then Some((e.value.id, e.value.challenge)) else None
    {
      var k := ChallengeKey(identity, ceremony);
      var client := GetRedis(initOk);
      if client {
        if call.FailsBefore? { return None; }
        var found := k in redis && !(redis[k].deadline < now);
        var entry := if found then redis[k].entry else Entry(0, "", 0);
        redis := redis - {k};
        if !found || call.FailsAfter? || !parses { return None; }
        return Some((entry.id, entry.challenge));
      }
      if k !in memStore { return None; }
      var entry := memStore[k];
      memStore := memStore - {k};
      if entry.expiresAt < now { return None; }
      return Some((entry.id, entry.challenge));
    }
  }

  // ---------------------------------------------------------------------------------------------
  // Runs
  // ---------------------------------------------------------------------------------------------

  datatype Event =
    | StoredAs(id: nat, identity: string, ceremony: Ceremony, at: int)
    | RedeemedAs(id: nat, identity: string, ceremony: Ceremony, at: int)

  datatype Sys = Sys(b: Backend, enabled: bool, now: int, nextId: nat, log: seq<Event>)

  datatype Step =
    | Tick(ms: nat)
    | Store(identity: string, ceremony: Ceremony, challenge: string, initOk: bool, call: Call)
    | Consume(identity: string, ceremony: Ceremony, initOk: bool, call: Call, parses: bool)
    | LoseRedis(keys: set<string>)

  function Answer(s: Sys, step: Step): Option<Entry>
    requires step.Consume?
  {
    Redeemed(s.b, s.enabled, step.initOk, step.call, step.parses, ChallengeKey(step.identity, step.ceremony), s.now)
  }

  /** Whether a store takes effect. */
  predicate Lands(s: Sys, step: Step)
    requires step.Store?
  {
    !(s.enabled && AfterGetRedis(s.b, s.enabled, step.initOk).linked && step.call.FailsBefore?)
  }

  function Apply(s: Sys, step: Step): Sys {
    match step
    case Tick(ms) => s.(now := s.now + ms)
    case Store(identity, ceremony, challenge, initOk, call) =>
      var until := s.now + Ttl(ceremony);
      s.(b := Put(s.b, s.enabled, initOk, call, ChallengeKey(identity, ceremony), Entry(s.nextId, challenge, until), until),
         nextId := s.nextId + 1,
         log := if Lands(s, step) then s.log + [StoredAs(s.nextId, identity, ceremony, s.now)] else s.log)
    case Consume(identity, ceremony, initOk, call, parses) =>
      s.(b := Taken(s.b, s.enabled, initOk, call, ChallengeKey(identity, ceremony)),
         log := if Answer(s, step).Some? then s.log + [RedeemedAs(Answer(s, step).value.id, identity, ceremony, s.now)] else s.log)
    case LoseRedis(keys) => s.(b := s.b.(redis := s.b.redis - keys))
  }

  function Run(s: Sys, steps: seq<Step>): Sys {
    if steps == [] then s else Apply(Run(s, steps[..|steps| - 1]), steps[|steps| - 1])
  }

  predicate Init(s: Sys) {
    s.b == Backend(map[], map[], false) && s.log == []
  }

  // ---------------------------------------------------------------------------------------------
  // Invariants
  // ---------------------------------------------------------------------------------------------

  predicate IsStoreFor(e: Event, i: string, c: Ceremony) {
    e.StoredAs? && e.identity == i && e.ceremony == c
  }

  predicate IsRedemptionOf(e: Event, id: nat) {
    e.RedeemedAs? && e.id == id
  }

  /** Event m of the log stored this entry; since then nothing was stored for the pair and the entry was not
      redeemed. */
  ghost predicate Backs(log: seq<Event>, m: nat, e: Entry, i: string, c: Ceremony) {
    && m < |log| && log[m] == StoredAs(e.id, i, c, e.expiresAt - Ttl(c))
    && forall x | m < x < |log| :: !IsStoreFor(log[x], i, c) && !IsRedemptionOf(log[x], e.id)
  }

  /** Event n redeems what event m stored: for the same pair, as the latest, in time, and not before. */
  ghost predicate Redeems(log: seq<Event>, m: nat, n: nat)
    requires n < |log| && log[n].RedeemedAs?
  {
    var r := log[n];
    && m < n && log[m].StoredAs? && log[m].id == r.id && log[m].identity == r.identity && log[m].ceremony == r.ceremony
    && log[m].at <= r.at <= log[m].at + Ttl(r.ceremony)
    && forall x | m < x < n :: !IsStoreFor(log[x], r.identity, r.ceremony) && !IsRedemptionOf(log[x], r.id)
  }

  ghost predicate LogInv(log: seq<Event>, nextId: nat, now: int) {
    && (forall n | 0 <= n < |log| :: log[n].at <= now && log[n].id < nextId)
    && (forall m, n | 0 <= m < n < |log| && log[m].StoredAs? && log[n].StoredAs? :: log[m].id < log[n].id)
    && (forall n | 0 <= n < |log| && log[n].RedeemedAs? :: exists m :: Redeems(log, m, n))
  }

  ghost predicate EntryInv(s: Sys, i: string, c: Ceremony) {
    var e := Current(s.b, s.enabled, ChallengeKey(i, c));
    e.Some? ==> exists m :: Backs(s.log, m, e.value, i, c)
  }

  ghost predicate Inv(s: Sys) {
    && LogInv(s.log, s.nextId, s.now)
    && (!s.b.linked ==> s.b.redis == map[])
    && (forall k | k in s.b.redis :: s.b.redis[k].deadline == s.b.redis[k].entry.expiresAt)
    && (forall i, c :: EntryInv(s, i, c))
  }

  lemma LogGrows(log: seq<Event>, e: Event, nextId: nat, now: int)
    requires LogInv(log, nextId, now) && e.at == now
    requires if e.StoredAs? then e.id == nextId else e.id < nextId && exists m :: Redeems(log + [e], m, |log|)
    ensures LogInv(log + [e], if e.StoredAs? then nextId + 1 else nextId, now)
  {
    var after := log + [e];
    forall n | 0 <= n < |after| && after[n].RedeemedAs? ensures exists m :: Redeems(after, m, n) {
      if n < |log| {
        var m :| Redeems(log, m, n);
        assert Redeems(after, m, n);
      }
    }
  }

  lemma LinkingKeepsInv(s: Sys, initOk: bool)
    requires Inv(s)
    ensures Inv(s.(b := AfterGetRedis(s.b, s.enabled, initOk)))
  {
  }

  lemma BacksAfterStore(log: seq<Event>, m: nat, e: Entry, i: string, c: Ceremony, stored: Event)
    requires Backs(log, m, e, i, c) && stored.StoredAs? && !IsStoreFor(stored, i, c)
    ensures Backs(log + [stored], m, e, i, c)
  {
  }

  lemma StoreLeavesOthers(s: Sys, step: Step, i: string, c: Ceremony)
    requires Inv(s) && step.Store? && ((i, c) != (step.identity, step.ceremony) || !Lands(s, step))
    ensures EntryInv(Apply(s, step), i, c)
  {
    var s1 := s.(b := AfterGetRedis(s.b, s.enabled, step.initOk));
    LinkingKeepsInv(s, step.initOk);
    if ChallengeKey(i, c) == ChallengeKey(step.identity, step.ceremony) { KeyInjective(i, c, step.identity, step.ceremony); }
    assert EntryInv(s1, i, c);
    var e := Current(s1.b, s.enabled, ChallengeKey(i, c));
    assert Current(Apply(s, step).b, s.enabled, ChallengeKey(i, c)) == e;
    if e.Some? && Lands(s, step) {
      var m :| Backs(s.log, m, e.value, i, c);
      BacksAfterStore(s.log, m, e.value, i, c, StoredAs(s.nextId, step.identity, step.ceremony, s.now));
    }
  }

  lemma StoreBacksItsOwn(s: Sys, step: Step)
    requires Inv(s) && step.Store? && Lands(s, step)
    ensures EntryInv(Apply(s, step), step.identity, step.ceremony)
  {
    assert Backs(Apply(s, step).log, |s.log|, Entry(s.nextId, step.challenge, s.now + Ttl(step.ceremony)), step.identity, step.ceremony);
  }

  lemma StoreKeepsInv(s: Sys, step: Step)
    requires Inv(s) && step.Store?
    ensures Inv(Apply(s, step))
  {
    if Lands(s, step) {
      LogGrows(s.log, StoredAs(s.nextId, step.identity, step.ceremony, s.now), s.nextId, s.now);
    }
    forall i, c ensures EntryInv(Apply(s, step), i, c) {
      if (i, c) == (step.identity, step.ceremony) && Lands(s, step) {
        StoreBacksItsOwn(s, step);
      } else {
        StoreLeavesOthers(s, step, i, c);
      }
    }
  }

  /** Entries under different keys carry different ids. */
  lemma DifferentPairsDifferentIds(s: Sys, i: string, c: Ceremony, j: string, d: Ceremony)
    requires Inv(s) && (i, c) != (j, d)
    requires Current(s.b, s.enabled, ChallengeKey(i, c)).Some? && Current(s.b, s.enabled, ChallengeKey(j, d)).Some?
    ensures Current(s.b, s.enabled, ChallengeKey(i, c)).value.id != Current(s.b, s.enabled, ChallengeKey(j, d)).value.id
  {
    assert EntryInv(s, i, c) && EntryInv(s, j, d);
    var e, f := Current(s.b, s.enabled, ChallengeKey(i, c)).value, Current(s.b, s.enabled, ChallengeKey(j, d)).value;
    var m :| Backs(s.log, m, e, i, c);
    var n :| Backs(s.log, n, f, j, d);
    assert m != n;
  }

  lemma ConsumeKeepsLog(s: Sys, step: Step)
    requires Inv(s) && step.Consume?
    ensures LogInv(Apply(s, step).log, s.nextId, s.now)
  {
    var s1, a := s.(b := AfterGetRedis(s.b, s.enabled, step.initOk)), Answer(s, step);
    LinkingKeepsInv(s, step.initOk);
    if a.Some? {
      assert EntryInv(s1, step.identity, step.ceremony);
      var m :| Backs(s.log, m, a.value, step.identity, step.ceremony);
      var e := RedeemedAs(a.value.id, step.identity, step.ceremony, s.now);
      assert Redeems(s.log + [e], m, |s.log|);
      LogGrows(s.log, e, s.nextId, s.now);
    }
  }

  lemma ConsumeLeavesOthers(s: Sys, step: Step, i: string, c: Ceremony)
    requires Inv(s) && step.Consume? && (i, c) != (step.identity, step.ceremony)
    ensures EntryInv(Apply(s, step), i, c)
  {
    var s1, r := s.(b := AfterGetRedis(s.b, s.enabled, step.initOk)), Apply(s, step);
    LinkingKeepsInv(s, step.initOk);
    if ChallengeKey(i, c) == ChallengeKey(step.identity, step.ceremony) { KeyInjective(i, c, step.identity, step.ceremony); }
    assert EntryInv(s1, i, c);
    var e := Current(s1.b, s.enabled, ChallengeKey(i, c));
    assert Current(r.b, s.enabled, ChallengeKey(i, c)) == e;
    if e.Some? {
      if Answer(s, step).Some? { DifferentPairsDifferentIds(s1, i, c, step.identity, step.ceremony); }
      var m :| Backs(s.log, m, e.value, i, c);
      assert Backs(r.log, m, e.value, i, c);
    }
  }

  lemma ConsumeKeepsInv(s: Sys, step: Step)
    requires Inv(s) && step.Consume?
    ensures Inv(Apply(s, step))
  {
    LinkingKeepsInv(s, step.initOk);
    ConsumeKeepsLog(s, step);
    forall i, c ensures EntryInv(Apply(s, step), i, c) {
      if (i, c) != (step.identity, step.ceremony) {
        ConsumeLeavesOthers(s, step, i, c);
      } else {
        assert EntryInv(s.(b := AfterGetRedis(s.b, s.enabled, step.initOk)), i, c);
      }
    }
  }

  lemma StepInv(s: Sys, step: Step)
    requires Inv(s)
    ensures Inv(Apply(s, step))
  {
    match step
    case Store(_, _, _, _, _) => StoreKeepsInv(s, step);
    case Consume(_, _, _, _, _) => ConsumeKeepsInv(s, step);
    case _ =>
      forall i, c ensures EntryInv(Apply(s, step), i, c) { assert EntryInv(s, i, c); }
  }

  lemma InitInv(s: Sys)
    requires Init(s)
    ensures Inv(s)
  {
  }

  lemma {:induction false} RunInv(s: Sys, steps: seq<Step>)
    requires Inv(s)
    ensures Inv(Run(s, steps))
  {
    if steps != [] {
      RunInv(s, steps[..|steps| - 1]);
      StepInv(Run(s, steps[..|steps| - 1]), steps[|steps| - 1]);
    }
  }

  // ---------------------------------------------------------------------------------------------
  // What a redemption means
  // ---------------------------------------------------------------------------------------------

  /** In every run, over all identities and both ceremonies, a challenge is redeemed at most once, and only
      while it is the latest stored for its identity and ceremony and its time has not run out. */
  lemma RedeemedOnceAsLatestInTime(s: Sys, steps: seq<Step>, n: nat)
    requires Init(s) && n < |Run(s, steps).log| && Run(s, steps).log[n].RedeemedAs?
    ensures exists m :: Redeems(Run(s, steps).log, m, n)
    ensures forall k | 0 <= k < |Run(s, steps).log| && k != n :: !IsRedemptionOf(Run(s, steps).log[k], Run(s, steps).log[n].id)
  {
    InitInv(s);
    RunInv(s, steps);
    var log := Run(s, steps).log;
    forall k | 0 <= k < |log| && k != n ensures !IsRedemptionOf(log[k], log[n].id) {
      if IsRedemptionOf(log[k], log[n].id) {
        SecondRedemption(log, Run(s, steps).nextId, Run(s, steps).now, if k < n then k else n, if k < n then n else k);
      }
    }
  }

  lemma SecondRedemption(log: seq<Event>, nextId: nat, now: int, a: nat, b: nat)
    requires LogInv(log, nextId, now) && a < b < |log| && log[a].RedeemedAs? && log[b].RedeemedAs?
    ensures log[a].id != log[b].id
  {
  }

  // ---------------------------------------------------------------------------------------------
  // A challenge left alone can be redeemed
  // ---------------------------------------------------------------------------------------------

  /** Steps that leave one pair's challenge where it is: none on its key, no loss of it, and no change from
      memory to Redis; `mayLink` says whether that change is still possible. */
  predicate LeavesAlone(step: Step, identity: string, c: Ceremony, mayLink: bool) {
    match step
    case Tick(_) => true
    case Store(i, d, _, initOk, _) => (i, d) != (identity, c) && (mayLink ==> !initOk)
    case Consume(i, d, initOk, _, _) => (i, d) != (identity, c) && (mayLink ==> !initOk)
    case LoseRedis(keys) => ChallengeKey(identity, c) !in keys
  }

  lemma AloneStep(s: Sys, step: Step, identity: string, c: Ceremony, mayLink: bool)
    requires LeavesAlone(step, identity, c, mayLink) && mayLink == (s.enabled && !s.b.linked)
    ensures Current(Apply(s, step).b, s.enabled, ChallengeKey(identity, c)) == Current(s.b, s.enabled, ChallengeKey(identity, c))
    ensures mayLink == (s.enabled && !Apply(s, step).b.linked) && Apply(s, step).enabled == s.enabled
  {
    if (step.Store? || step.Consume?) && ChallengeKey(step.identity, step.ceremony) == ChallengeKey(identity, c) {
      KeyInjective(step.identity, step.ceremony, identity, c);
    }
  }

  lemma {:induction false} AloneRun(s: Sys, steps: seq<Step>, identity: string, c: Ceremony, mayLink: bool)
    requires forall x | 0 <= x < |steps| :: LeavesAlone(steps[x], identity, c, mayLink)
    requires mayLink == (s.enabled && !s.b.linked)
    ensures Current(Run(s, steps).b, s.enabled, ChallengeKey(identity, c)) == Current(s.b, s.enabled, ChallengeKey(identity, c))
    ensures mayLink == (s.enabled && !Run(s, steps).b.linked) && Run(s, steps).enabled == s.enabled
  {
    if steps != [] {
      var front := steps[..|steps| - 1];
      assert forall x | 0 <= x < |front| :: front[x] == steps[x];
      AloneRun(s, front, identity, c, mayLink);
      AloneStep(Run(s, front), steps[|steps| - 1], identity, c, mayLink);
    }
  }

  lemma StoredIsCurrent(s: Sys, store: Step)
    requires store.Store? && store.call.Works?
    ensures Current(Apply(s, store).b, s.enabled, ChallengeKey(store.identity, store.ceremony))
         == Some(Entry(s.nextId, store.challenge, s.now + Ttl(store.ceremony)))
  {
  }

  lemma CurrentIsAnswered(s: Sys, consume: Step, e: Entry)
    requires forall k | k in s.b.redis :: s.b.redis[k].deadline == s.b.redis[k].entry.expiresAt
    requires consume.Consume? && Current(s.b, s.enabled, ChallengeKey(consume.identity, consume.ceremony)) == Some(e)
    requires s.enabled && s.b.linked ==> consume.call.Works? && consume.parses
    requires s.enabled && !s.b.linked ==> !consume.initOk
    ensures Answer(s, consume) == if s.now <= e.expiresAt then Some(e) else None
  {
  }

  /** A stored challenge that is left alone is what the next consume for its pair returns, if and only if no
      more than its ceremony's time has passed since it was stored. */
  lemma LeftAloneIsRedeemable(start: Sys, before: seq<Step>, s: Sys, store: Step, steps: seq<Step>, consume: Step, mayLink: bool)
    requires Init(start) && Run(start, before) == s
    requires store.Store? && store.call.Works? && mayLink == (s.enabled && !Apply(s, store).b.linked)
    requires forall x | 0 <= x < |steps| :: LeavesAlone(steps[x], store.identity, store.ceremony, mayLink)
    requires consume.Consume? && consume.identity == store.identity && consume.ceremony == store.ceremony
    requires s.enabled ==> if mayLink then !consume.initOk else consume.call.Works? && consume.parses
    ensures var r := Run(Apply(s, store), steps);
      Answer(r, consume) == if r.now <= s.now + Ttl(store.ceremony)
                            then Some(Entry(s.nextId, store.challenge, s.now + Ttl(store.ceremony))) else None
  {
    var s1 := Apply(s, store);
    InitInv(start);
    RunInv(start, before);
    StepInv(s, store);
    RunInv(s1, steps);
    StoredIsCurrent(s, store);
    AloneRun(s1, steps, store.identity, store.ceremony, mayLink);
    CurrentIsAnswered(Run(s1, steps), consume, Entry(s.nextId, store.challenge, s.now + Ttl(store.ceremony)));
  }
}
