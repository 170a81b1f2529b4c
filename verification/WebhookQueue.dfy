/** Models src/jobs/webhook-worker.ts: delivery workers that share one table of events through leases,
    beside the manual retry of src/modules/webhooks/routes/webhook-config.route.ts:398-480.

    Any number of workers claim batches, deliver and release in any interleaving, and may die at any
    moment. The safety of the unconditional `releaseLease` rests on one assumption about time, stated
    as `LeasesHeld`: a delivery has ended, or its worker has died, by the time its lease runs out. */
module WebhookQueue {
  import opened Options
  import opened Powers

  const BATCH: nat := 20
  const LEASE_TTL_MS: int := 90_000

  datatype Event = Event(
    attempts: nat, maxAttempts: nat, delivered: bool, nextRetryAt: Option<int>,
    processingBy: Option<nat>, processingAt: Option<int>, createdAt: int)

  /** One event in one claimed batch. */
  datatype Handle = Handle(claim: nat, event: nat)

  /** Claimed but not fetched yet, or fetched with the row's counters as they were at that moment. */
  datatype Delivery =
    | Claimed(worker: nat, claimedAt: int)
    | Delivering(worker: nat, claimedAt: int, attempts: nat, maxAttempts: nat)

  /** `retries`: the manual retries that have checked their event and not written it yet. */
  datatype Sys = Sys(events: map<nat, Event>, inFlight: map<Handle, Delivery>, retries: map<nat, nat>, nextId: nat, now: int)

  datatype Step =
    | Tick(ms: nat)
    | Enqueue(maxAttempts: nat)
    | Claim(worker: nat, picks: set<nat>, at: int, leaseNow: int, locked: set<nat>)
    | Fetch(h: Handle)
    | Succeed(h: Handle)
    | Fail(h: Handle, random: real)
    | Drop(h: Handle)
    | ReadRetry(p: nat, event: nat)
    | LandRetry(p: nat, event: nat)
    | DropRetry(p: nat)

  // ---------------------------------------------------------------------------------------------
  // The table operations
  // ---------------------------------------------------------------------------------------------

  /** The WHERE clause of claimBatch; a null nextRetryAt or processingAt makes its comparison false. */
  predicate Claimable(e: Event, at: int, leaseNow: int) {
    && !e.delivered && e.attempts < e.maxAttempts
    && e.nextRetryAt.Some? && e.nextRetryAt.value <= at
    && (e.processingBy.None? || (e.processingAt.Some? && e.processingAt.value < leaseNow - LEASE_TTL_MS))
  }

  /** ORDER BY createdAt LIMIT 20 FOR UPDATE SKIP LOCKED over the claimable rows. */
  ghost predicate IsBatch(events: map<nat, Event>, picks: set<nat>, at: int, leaseNow: int, locked: set<nat>) {
    && |picks| <= BATCH
    && (forall id | id in picks :: id in events && id !in locked && Claimable(events[id], at, leaseNow))
    && (forall id | id in events && id !in locked && id !in picks && Claimable(events[id], at, leaseNow) ::
          |picks| == BATCH && forall p | p in picks :: events[p].createdAt <= events[id].createdAt)
  }

  function Lease(e: Event, worker: nat, at: int): Event {
    e.(processingBy := Some(worker), processingAt := Some(at))
  }

  function LeaseAll(events: map<nat, Event>, picks: set<nat>, worker: nat, at: int): map<nat, Event> {
    map id | id in events :: if id in picks then Lease(events[id], worker, at) else events[id]
  }

  function Released(e: Event): Event {
    e.(processingBy := None, processingAt := None)
  }

  function Delivered(e: Event): Event { Released(e).(delivered := true) }

  /** Math.pow(4, nextAttempt) * 30_000. The comment beside it (30s, 2min, 8min, ...) is one power behind. */
  function Backoff(attempt: nat): nat { Pow(4, attempt) * 30_000 }

  /** withJitter with pct = 0.2: Math.round(base * (1 + (random * 2 - 1) * 0.2)). */
  function WithJitter(base: int, random: real): int {
    (Jittered(base, random) + 0.5).Floor
  }

  function Jittered(base: int, random: real): real {
    base as real * (1.0 + (random * 2.0 - 1.0) * 0.2)
  }

  function Failed(e: Event, attempts: nat, maxAttempts: nat, now: int, random: real): Event {
    var next := attempts + 1;
    Released(e).(attempts := next,
                 nextRetryAt := if next >= maxAttempts then None else Some(now + WithJitter(Backoff(next), random)))
  }

  lemma JitterRange(n: nat, random: real)
    requires 0.0 <= random < 1.0
    ensures 24_000 * Pow(4, n) <= WithJitter(Backoff(n), random) <= 36_000 * Pow(4, n)
  {
    JitterBounds(Backoff(n), random);
    RoundStaysBetween(24_000 * Pow(4, n), Jittered(Backoff(n), random), 36_000 * Pow(4, n));
  }

  lemma JitterBounds(base: int, random: real)
    requires base >= 0 && 0.0 <= random < 1.0
    ensures base as real * 0.8 <= Jittered(base, random) <= base as real * 1.2
  {
    var f := 1.0 + (random * 2.0 - 1.0) * 0.2;
    assert 0.8 <= f <= 1.2;
    MulMonotoneReal(base as real, 0.8, f);
    MulMonotoneReal(base as real, f, 1.2);
  }

  lemma MulMonotoneReal(c: real, a: real, b: real)
    requires 0.0 <= c && a <= b
    ensures c * a <= c * b
  {
  }

  lemma RoundStaysBetween(low: int, x: real, high: int)
    requires low as real <= x <= high as real
    ensures low <= (x + 0.5).Floor <= high
  {
  }

  // ---------------------------------------------------------------------------------------------
  // The interleaved system
  // ---------------------------------------------------------------------------------------------

  ghost predicate Enabled(s: Sys, step: Step) {
    match step
    case Tick(_) => true
    case Enqueue(_) => true
    case Claim(_, picks, at, leaseNow, locked) =>
      at <= leaseNow <= s.now && IsBatch(s.events, picks, at, leaseNow, locked)
    case Fetch(h) => h in s.inFlight && s.inFlight[h].Claimed? && h.event in s.events
    case Succeed(h) => h in s.inFlight && s.inFlight[h].Delivering? && h.event in s.events
    case Fail(h, random) => h in s.inFlight && s.inFlight[h].Delivering? && h.event in s.events && 0.0 <= random < 1.0
    case Drop(h) => h in s.inFlight
    case ReadRetry(p, event) => p !in s.retries && event in s.events && IsExhausted(s.events[event])
    case LandRetry(p, event) => p in s.retries && s.retries[p] == event && event in s.events
    case DropRetry(p) => p in s.retries
  }

  /** What the manual retry asks of an event: neither delivered nor to be retried on its own. */
  predicate IsExhausted(e: Event) { !e.delivered && e.nextRetryAt.None? }

  /** The unconditional write of the manual retry. */
  function Requeued(e: Event, now: int): Event { e.(attempts := 0, nextRetryAt := Some(now)) }

  function Without(m: map<Handle, Delivery>, h: Handle): map<Handle, Delivery> { m - {h} }

  /** `at` and `leaseNow` are the two clock readings claimBatch takes before its statement runs. */
  ghost function Apply(s: Sys, step: Step): Sys
    requires Enabled(s, step)
  {
    match step
    case Tick(ms) => s.(now := s.now + ms)
    case Enqueue(m) =>
      s.(events := s.events[s.nextId := Event(0, m, false, Some(s.now), None, None, s.now)], nextId := s.nextId + 1)
    case Claim(w, picks, at, _, _) =>
      s.(events := LeaseAll(s.events, picks, w, at),
         inFlight := s.inFlight + (map id | id in picks :: Handle(s.nextId, id) := Claimed(w, at)),
         nextId := s.nextId + 1)
    case Fetch(h) =>
      var d, e := s.inFlight[h], s.events[h.event];
      if e.processingBy == Some(d.worker)
      then s.(inFlight := s.inFlight[h := Delivering(d.worker, d.claimedAt, e.attempts, e.maxAttempts)])
      else s.(inFlight := Without(s.inFlight, h))
    case Succeed(h) =>
      s.(events := s.events[h.event := Delivered(s.events[h.event])], inFlight := Without(s.inFlight, h))
    case Fail(h, random) =>
      var d := s.inFlight[h];
      s.(events := s.events[h.event := Failed(s.events[h.event], d.attempts, d.maxAttempts, s.now, random)],
         inFlight := Without(s.inFlight, h))
    case Drop(h) => s.(inFlight := Without(s.inFlight, h))
    case ReadRetry(p, event) => s.(retries := s.retries[p := event])
    case LandRetry(p, event) =>
      s.(events := s.events[event := Requeued(s.events[event], s.now)], retries := s.retries - {p})
    case DropRetry(p) => s.(retries := s.retries - {p})
  }

  /** No delivery in flight has outlived its lease. */
  ghost predicate LeasesHeld(s: Sys) {
    forall h | h in s.inFlight :: s.now <= s.inFlight[h].claimedAt + LEASE_TTL_MS
  }

  ghost predicate Init(s: Sys) {
    && s.inFlight == map[] && s.retries == map[]
    && forall id | id in s.events :: id < s.nextId && s.events[id] == Event(0, s.events[id].maxAttempts, false, Some(s.events[id].createdAt), None, None, s.events[id].createdAt)
  }

  /** Run under the lease assumption; None when a step is not enabled or a delivery outlives its lease. */
  ghost function Run(s: Sys, steps: seq<Step>): Option<Sys> {
    if steps == [] then (if LeasesHeld(s) then Some(s) else None)
    else match Run(s, steps[..|steps| - 1])
      case None => None
      case Some(r) =>
        if Enabled(r, steps[|steps| - 1]) && LeasesHeld(Apply(r, steps[|steps| - 1]))
        then Some(Apply(r, steps[|steps| - 1])) else None
  }

  // ---------------------------------------------------------------------------------------------
  // The invariant
  // ---------------------------------------------------------------------------------------------

  /** The delivery `h` owns the lease on its row, whatever a manual retry may have written to it since. */
  ghost predicate Owns(s: Sys, h: Handle)
    requires h in s.inFlight
  {
    && h.event in s.events
    && var e, d := s.events[h.event], s.inFlight[h];
       && e.processingBy == Some(d.worker) && e.processingAt == Some(d.claimedAt)
       && !e.delivered && e.attempts < e.maxAttempts
       && e.nextRetryAt.Some? && e.nextRetryAt.value <= s.now && d.claimedAt <= s.now
       && (d.Delivering? ==> d.attempts < d.maxAttempts == e.maxAttempts && (e.attempts == d.attempts || e.attempts == 0))
  }

  ghost predicate Exclusive(s: Sys) {
    forall g, h | g in s.inFlight && h in s.inFlight && g.event == h.event :: g == h
  }

  ghost predicate RowsInv(s: Sys) {
    && (forall id | id in s.events :: id < s.nextId && s.events[id].attempts <= s.events[id].maxAttempts)
    && (forall h | h in s.inFlight :: h.claim < s.nextId)
  }

  ghost predicate Inv(s: Sys) {
    && Exclusive(s) && RowsInv(s)
    && forall h | h in s.inFlight :: Owns(s, h)
  }

  lemma ClaimSkipsInFlight(s: Sys, step: Step)
    requires Inv(s) && LeasesHeld(s) && step.Claim? && Enabled(s, step)
    ensures forall h | h in s.inFlight :: h.event !in step.picks
  {
    forall h | h in s.inFlight ensures h.event !in step.picks {
      assert Owns(s, h);
    }
  }

  lemma ClaimOwns(s: Sys, step: Step, h: Handle)
    requires Inv(s) && LeasesHeld(s) && step.Claim? && Enabled(s, step) && h in Apply(s, step).inFlight
    ensures Owns(Apply(s, step), h) && (h !in s.inFlight ==> h.event in step.picks && h.claim == s.nextId)
  {
    ClaimSkipsInFlight(s, step);
    if h in s.inFlight { assert Owns(s, h); }
  }

  lemma ClaimInv(s: Sys, step: Step)
    requires Inv(s) && LeasesHeld(s) && step.Claim? && Enabled(s, step)
    ensures Inv(Apply(s, step))
    ensures forall h | h in s.inFlight :: h.event !in step.picks
  {
    var r := Apply(s, step);
    ClaimSkipsInFlight(s, step);
    forall h | h in r.inFlight ensures Owns(r, h) && (h !in s.inFlight ==> h.event in step.picks && h.claim == s.nextId) {
      ClaimOwns(s, step, h);
    }
  }

  lemma OutcomeInv(s: Sys, step: Step)
    requires Inv(s) && (step.Succeed? || step.Fail?) && Enabled(s, step)
    ensures Inv(Apply(s, step))
  {
  }

  lemma StepInv(s: Sys, step: Step)
    requires Inv(s) && LeasesHeld(s) && Enabled(s, step)
    ensures Inv(Apply(s, step))
  {
    match step
    case Claim(_, _, _, _, _) => ClaimInv(s, step);
    case Succeed(_) => OutcomeInv(s, step);
    case Fail(_, _) => OutcomeInv(s, step);
    case _ =>
      var r := Apply(s, step);
      forall h | h in r.inFlight ensures Owns(r, h) { assert Owns(s, h); }
  }

  lemma {:induction false} RunInv(s: Sys, steps: seq<Step>)
    requires Init(s) && Run(s, steps).Some?
    ensures Inv(Run(s, steps).value) && LeasesHeld(Run(s, steps).value)
  {
    if steps != [] {
      RunInv(s, steps[..|steps| - 1]);
      StepInv(Run(s, steps[..|steps| - 1]).value, steps[|steps| - 1]);
    }
  }

  // ---------------------------------------------------------------------------------------------
  // Mutual exclusion
  // ---------------------------------------------------------------------------------------------

  /** In every run that keeps its leases, no event is in two deliveries at once, and a delivery that is
      about to release a lease releases its own. */
  lemma NoDoubleDelivery(s: Sys, steps: seq<Step>)
    requires Init(s) && Run(s, steps).Some?
    ensures var r := Run(s, steps).value;
      && (forall g, h | g in r.inFlight && h in r.inFlight && g.event == h.event :: g == h)
      && (forall h | h in r.inFlight :: h.event in r.events
            && r.events[h.event].processingBy == Some(r.inFlight[h].worker)
            && r.events[h.event].processingAt == Some(r.inFlight[h].claimedAt))
  {
    RunInv(s, steps);
    var r := Run(s, steps).value;
    forall h | h in r.inFlight ensures Owns(r, h) {}
  }

  /** The assumption is exact: an event in flight can be claimed a second time at this moment, by a caller
      whose clock readings are not behind the event's retry time, just when the delivery that holds it has
      outlived its lease. */
  lemma SecondClaimIffLeaseOutlived(s: Sys, h: Handle, at: int, leaseNow: int)
    requires Inv(s) && h in s.inFlight && at <= leaseNow <= s.now
    requires h.event in s.events && s.events[h.event].nextRetryAt.GetOr(at) <= at
    ensures Claimable(s.events[h.event], at, leaseNow) <==> leaseNow > s.inFlight[h].claimedAt + LEASE_TTL_MS
  {
  }

  ghost predicate IsTrace(trace: seq<Sys>, steps: seq<Step>) {
    && |trace| == |steps| + 1
    && forall i | 0 <= i < |steps| :: Enabled(trace[i], steps[i]) && trace[i + 1] == Apply(trace[i], steps[i])
  }

  /** Claiming the only event of a table, and fetching it. */
  lemma ClaimOnly(s: Sys, worker: nat) returns (claimed: Sys, fetched: Sys)
    requires s.events.Keys == {0} && Claimable(s.events[0], s.now, s.now)
    ensures var claim := Claim(worker, {0}, s.now, s.now, {});
      Enabled(s, claim) && claimed == Apply(s, claim)
    ensures Enabled(claimed, Fetch(Handle(s.nextId, 0))) && fetched == Apply(claimed, Fetch(Handle(s.nextId, 0)))
    ensures fetched.events == map[0 := Lease(s.events[0], worker, s.now)]
    ensures fetched.inFlight == s.inFlight[Handle(s.nextId, 0) :=
      Delivering(worker, s.now, s.events[0].attempts, s.events[0].maxAttempts)]
    ensures fetched.nextId == s.nextId + 1 && fetched.now == s.now && fetched.retries == s.retries
  {
    var picks: set<nat> := {0};
    assert |picks| == 1;
    assert IsBatch(s.events, picks, s.now, s.now, {});
    claimed := Apply(s, Claim(worker, picks, s.now, s.now, {}));
    var h := Handle(s.nextId, 0);
    assert 0 in picks && h in claimed.inFlight;
    assert claimed.inFlight == s.inFlight[h := Claimed(worker, s.now)];
    fetched := Apply(claimed, Fetch(h));
  }

  lemma TraceAppend(trace: seq<Sys>, steps: seq<Step>, step: Step) returns (longer: seq<Sys>)
    requires IsTrace(trace, steps) && Enabled(trace[|trace| - 1], step)
    ensures longer == trace + [Apply(trace[|trace| - 1], step)] && IsTrace(longer, steps + [step])
  {
    longer := trace + [Apply(trace[|trace| - 1], step)];
  }

  lemma BusyWorker() returns (trace: seq<Sys>, steps: seq<Step>)
    ensures |steps| == 2 && IsTrace(trace, steps) && Init(trace[0]) && NoFail(steps)
    ensures trace[2] == Sys(map[0 := Event(0, 5, false, Some(0), Some(1), Some(0), 0)],
                            map[Handle(1, 0) := Delivering(1, 0, 0, 5)], map[], 2, 0)
  {
    var s0 := Sys(map[0 := Event(0, 5, false, Some(0), None, None, 0)], map[], map[], 1, 0);
    var s1, s2 := ClaimOnly(s0, 1);
    trace := TraceAppend([s0], [], Claim(1, {0}, 0, 0, {}));
    trace := TraceAppend(trace, [Claim(1, {0}, 0, 0, {})], Fetch(Handle(1, 0)));
    steps := [Claim(1, {0}, 0, 0, {})] + [Fetch(Handle(1, 0))];
    assert trace == [s0, s1, s2];
  }

  /** A worker claims and fetches an event and is then silent for longer than its lease. */
  lemma SilentWorker() returns (trace: seq<Sys>, steps: seq<Step>)
    ensures |steps| == 3 && IsTrace(trace, steps) && Init(trace[0]) && NoFail(steps)
    ensures trace[3] == Sys(map[0 := Event(0, 5, false, Some(0), Some(1), Some(0), 0)],
                            map[Handle(1, 0) := Delivering(1, 0, 0, 5)], map[], 2, 90_001)
  {
    trace, steps := BusyWorker();
    trace := TraceAppend(trace, steps, Tick(90_001));
    steps := steps + [Tick(90_001)];
  }

  /** Another worker then claims and fetches the same event. */
  lemma SecondWorker() returns (trace: seq<Sys>, steps: seq<Step>)
    ensures |steps| == 5 && IsTrace(trace, steps) && Init(trace[0]) && !LeasesHeld(trace[3]) && NoFail(steps)
    ensures trace[5] == Sys(map[0 := Event(0, 5, false, Some(0), Some(2), Some(90_001), 0)],
      map[Handle(1, 0) := Delivering(1, 0, 0, 5), Handle(2, 0) := Delivering(2, 90_001, 0, 5)], map[], 3, 90_001)
  {
    trace, steps := SilentWorker();
    var s3 := trace[3];
    assert Handle(1, 0) in s3.inFlight;
    var s4, s5 := ClaimOnly(s3, 2);
    var claim := Claim(2, {0}, 90_001, 90_001, {});
    trace := TraceAppend(trace, steps, claim);
    trace := TraceAppend(trace, steps + [claim], Fetch(Handle(2, 0)));
    steps := steps + [claim] + [Fetch(Handle(2, 0))];
  }

  /** ... and then every claim above is lost: two workers deliver the event at once (state 5), the first
      release frees the second's lease (state 6), and two failures are counted as one (state 7). */
  lemma OutlivedLeaseBreaksExclusion() returns (trace: seq<Sys>, steps: seq<Step>, a: Handle, b: Handle)
    ensures IsTrace(trace, steps) && |steps| == 7 && Init(trace[0]) && !LeasesHeld(trace[3])
    ensures a in trace[5].inFlight && b in trace[5].inFlight && a.event == b.event == 0
    ensures trace[5].inFlight[a].worker != trace[5].inFlight[b].worker
    ensures b in trace[6].inFlight && 0 in trace[6].events && trace[6].events[0].processingBy == None
    ensures Failures(steps, 0) == 2 && 0 in trace[7].events && trace[7].events[0].attempts == 1
  {
    a, b := Handle(1, 0), Handle(2, 0);
    trace, steps := SecondWorker();
    NoFailures(steps, 0);
    FailuresAppend(steps, Fail(a, 0.5), 0);
    FailuresAppend(steps + [Fail(a, 0.5)], Fail(b, 0.5), 0);
    var s6, s7 := FailTwice(trace[5], a, b);
    trace := TraceAppend(trace, steps, Fail(a, 0.5));
    trace := TraceAppend(trace, steps + [Fail(a, 0.5)], Fail(b, 0.5));
    steps := steps + [Fail(a, 0.5)] + [Fail(b, 0.5)];
  }

  lemma FailTwice(s: Sys, a: Handle, b: Handle) returns (s6: Sys, s7: Sys)
    requires a != b && a.event == b.event == 0 && 0 in s.events
    requires a in s.inFlight && s.inFlight[a].Delivering? && s.inFlight[a].attempts == 0
    requires b in s.inFlight && s.inFlight[b].Delivering? && s.inFlight[b].attempts == 0
    ensures Enabled(s, Fail(a, 0.5)) && s6 == Apply(s, Fail(a, 0.5))
    ensures b in s6.inFlight && 0 in s6.events && s6.events[0].processingBy == None
    ensures Enabled(s6, Fail(b, 0.5)) && s7 == Apply(s6, Fail(b, 0.5))
    ensures 0 in s7.events && s7.events[0].attempts == 1
  {
    s6 := Apply(s, Fail(a, 0.5));
    s7 := Apply(s6, Fail(b, 0.5));
  }

  lemma FailuresAppend(steps: seq<Step>, step: Step, event: nat)
    ensures Failures(steps + [step], event) == Failures(steps, event) + if step.Fail? && step.h.event == event then 1 else 0
  {
  }

  lemma {:induction false} NoFailures(steps: seq<Step>, event: nat)
    requires NoFail(steps)
    ensures Failures(steps, event) == 0
  {
    if steps != [] { NoFailures(steps[..|steps| - 1], event); }
  }

  predicate NoFail(steps: seq<Step>) {
    forall i | 0 <= i < |steps| :: !steps[i].Fail?
  }

  // ---------------------------------------------------------------------------------------------
  // Attempts, outcomes and retries
  // ---------------------------------------------------------------------------------------------

  function Failures(steps: seq<Step>, event: nat): nat {
    if steps == [] then 0 else
      var step := steps[|steps| - 1];
      Failures(steps[..|steps| - 1], event) + if step.Fail? && step.h.event == event then 1 else 0
  }

  function Successes(steps: seq<Step>, event: nat): nat {
    if steps == [] then 0 else
      var step := steps[|steps| - 1];
      Successes(steps[..|steps| - 1], event) + if step.Succeed? && step.h.event == event then 1 else 0
  }

  function Requeues(steps: seq<Step>, event: nat): nat {
    if steps == [] then 0 else
      Requeues(steps[..|steps| - 1], event) + if Requeue(steps[|steps| - 1], event) then 1 else 0
  }

  predicate Requeue(step: Step, event: nat) { step.LandRetry? && step.event == event }

  function FailuresSinceRequeue(steps: seq<Step>, event: nat): nat {
    if steps == [] then 0 else
      var front, step := FailuresSinceRequeue(steps[..|steps| - 1], event), steps[|steps| - 1];
      if Requeue(step, event) then 0 else if step.Fail? && step.h.event == event then front + 1 else front
  }

  /** The failures that an event's budget and its manual retries allow. */
  function Budget(maxAttempts: nat, requeues: nat): nat {
    if requeues == 0 then 0 else Budget(maxAttempts, requeues - 1) + maxAttempts
  }

  lemma {:induction false} BudgetIs(maxAttempts: nat, requeues: nat)
    ensures Budget(maxAttempts, requeues) == maxAttempts * requeues
  {
    if requeues > 0 { BudgetIs(maxAttempts, requeues - 1); }
  }

  lemma BudgetGrows(maxAttempts: nat, requeues: nat)
    ensures Budget(maxAttempts, requeues + 1) == Budget(maxAttempts, requeues) + maxAttempts
  {
  }

  predicate Counted(s: Sys, event: nat, failures: nat, successes: nat, requeues: nat) {
    if event !in s.events then failures == successes == requeues == 0
    else
      var e := s.events[event];
      && e.attempts <= e.maxAttempts && successes == (if e.delivered then 1 else 0)
      && failures <= Budget(e.maxAttempts, requeues) + e.attempts
      && failures + successes <= Budget(e.maxAttempts, requeues + 1)
      && forall h | h in s.inFlight && h.event == event && s.inFlight[h].Delivering? ::
           failures <= Budget(e.maxAttempts, requeues) + s.inFlight[h].attempts
  }

  ghost predicate CountedAfter(s: Sys, step: Step, event: nat, failures: nat, successes: nat, requeues: nat)
    requires Enabled(s, step)
  {
    Counted(Apply(s, step), event, failures + One(step.Fail? && step.h.event == event),
            successes + One(step.Succeed? && step.h.event == event), requeues + One(Requeue(step, event)))
  }

  function One(b: bool): nat { if b then 1 else 0 }

  lemma CountedOutcome(s: Sys, step: Step, event: nat, failures: nat, successes: nat, requeues: nat)
    requires Inv(s) && Enabled(s, step) && Counted(s, event, failures, successes, requeues) && (step.Succeed? || step.Fail?)
    ensures CountedAfter(s, step, event, failures, successes, requeues)
  {
    if event in s.events { BudgetGrows(s.events[event].maxAttempts, requeues); }
    assert Owns(s, step.h);
  }

  lemma CountedRetry(s: Sys, step: Step, event: nat, failures: nat, successes: nat, requeues: nat)
    requires Inv(s) && Enabled(s, step) && Counted(s, event, failures, successes, requeues) && step.LandRetry?
    ensures CountedAfter(s, step, event, failures, successes, requeues)
  {
    if event in s.events {
      BudgetGrows(s.events[event].maxAttempts, requeues);
      BudgetGrows(s.events[event].maxAttempts, requeues + 1);
    }
  }

  lemma CountedNew(s: Sys, step: Step, event: nat, failures: nat, successes: nat, requeues: nat)
    requires Inv(s) && Enabled(s, step) && Counted(s, event, failures, successes, requeues) && step.Enqueue?
    ensures CountedAfter(s, step, event, failures, successes, requeues)
  {
    if event == s.nextId { BudgetGrows(step.maxAttempts, 0); }
  }

  lemma CountedClaim(s: Sys, step: Step, event: nat, failures: nat, successes: nat, requeues: nat)
    requires Inv(s) && Enabled(s, step) && Counted(s, event, failures, successes, requeues) && step.Claim?
    ensures CountedAfter(s, step, event, failures, successes, requeues)
  {
    ClaimKeepsOutcomes(s, step, event);
    CountedSame(s, Apply(s, step), event, failures, successes, requeues);
  }

  /** Nothing that is counted differs. */
  ghost predicate SameOutcomes(s: Sys, r: Sys, event: nat) {
    && (event in r.events <==> event in s.events)
    && (event in s.events ==>
          var e, f := s.events[event], r.events[event];
          e.attempts == f.attempts && e.maxAttempts == f.maxAttempts && e.delivered == f.delivered)
    && (forall h | h in r.inFlight && r.inFlight[h].Delivering? :: h in s.inFlight && s.inFlight[h] == r.inFlight[h])
  }

  lemma ClaimKeepsOutcomes(s: Sys, step: Step, event: nat)
    requires Enabled(s, step) && step.Claim?
    ensures SameOutcomes(s, Apply(s, step), event)
  {
  }

  lemma CountedSame(s: Sys, r: Sys, event: nat, failures: nat, successes: nat, requeues: nat)
    requires Counted(s, event, failures, successes, requeues) && SameOutcomes(s, r, event)
    ensures Counted(r, event, failures, successes, requeues)
  {
  }

  lemma CountedFetch(s: Sys, step: Step, event: nat, failures: nat, successes: nat, requeues: nat)
    requires Inv(s) && Enabled(s, step) && Counted(s, event, failures, successes, requeues) && step.Fetch?
    ensures CountedAfter(s, step, event, failures, successes, requeues)
  {
  }

  lemma CountedOther(s: Sys, step: Step, event: nat, failures: nat, successes: nat, requeues: nat)
    requires Inv(s) && Enabled(s, step) && Counted(s, event, failures, successes, requeues)
    requires !step.Succeed? && !step.Fail? && !step.LandRetry? && !step.Enqueue? && !step.Claim? && !step.Fetch?
    ensures CountedAfter(s, step, event, failures, successes, requeues)
  {
  }

  lemma CountedStep(s: Sys, step: Step, event: nat, failures: nat, successes: nat, requeues: nat)
    requires Inv(s) && Enabled(s, step) && Counted(s, event, failures, successes, requeues)
    ensures CountedAfter(s, step, event, failures, successes, requeues)
  {
    if step.Succeed? || step.Fail? {
      CountedOutcome(s, step, event, failures, successes, requeues);
    } else if step.LandRetry? {
      CountedRetry(s, step, event, failures, successes, requeues);
    } else if step.Claim? {
      CountedClaim(s, step, event, failures, successes, requeues);
    } else if step.Fetch? {
      CountedFetch(s, step, event, failures, successes, requeues);
    } else if step.Enqueue? {
      CountedNew(s, step, event, failures, successes, requeues);
    } else {
      CountedOther(s, step, event, failures, successes, requeues);
    }
  }

  lemma CountedInit(s: Sys, event: nat)
    requires Init(s)
    ensures Counted(s, event, 0, 0, 0)
  {
    if event in s.events { BudgetGrows(s.events[event].maxAttempts, 0); }
  }

  ghost predicate CountedBy(s: Sys, steps: seq<Step>, event: nat) {
    Counted(s, event, Failures(steps, event), Successes(steps, event), Requeues(steps, event))
  }

  lemma Tallies(front: seq<Step>, step: Step, event: nat)
    ensures Failures(front + [step], event) == Failures(front, event) + One(step.Fail? && step.h.event == event)
    ensures Successes(front + [step], event) == Successes(front, event) + One(step.Succeed? && step.h.event == event)
    ensures Requeues(front + [step], event) == Requeues(front, event) + One(Requeue(step, event))
  {
    assert (front + [step])[..|front|] == front;
  }

  lemma {:induction false} CountedRun(s: Sys, steps: seq<Step>, event: nat)
    requires Init(s) && Run(s, steps).Some?
    ensures CountedBy(Run(s, steps).value, steps, event)
  {
    if steps == [] {
      CountedInit(s, event);
    } else {
      var front, step := steps[..|steps| - 1], steps[|steps| - 1];
      CountedRun(s, front, event);
      RunInv(s, front);
      CountedStep(Run(s, front).value, step, event, Failures(front, event), Successes(front, event), Requeues(front, event));
      Tallies(front, step, event);
      assert steps == front + [step];
    }
  }

  /** In every run an event is recorded as delivered at most once, and its recorded outcomes total at most
      maxAttempts for each time it was queued: once, and once more for every manual retry. A worker that dies after
      the request and before its write records nothing, and the event is sent again. */
  lemma OutcomesAreBounded(s: Sys, steps: seq<Step>, event: nat)
    requires Init(s) && Run(s, steps).Some?
    ensures var r := Run(s, steps).value;
      if event in r.events then
        && r.events[event].attempts <= r.events[event].maxAttempts
        && Successes(steps, event) == (if r.events[event].delivered then 1 else 0)
        && Failures(steps, event) + Successes(steps, event) <= r.events[event].maxAttempts * (1 + Requeues(steps, event))
      else Failures(steps, event) == Successes(steps, event) == 0
  {
    CountedRun(s, steps, event);
    if event in Run(s, steps).value.events {
      BudgetIs(Run(s, steps).value.events[event].maxAttempts, Requeues(steps, event) + 1);
    }
  }

  /** No delivery of this event that fetched it after a failure is under way. */
  ghost predicate Idle(s: Sys, event: nat) {
    forall h | h in s.inFlight && h.event == event && s.inFlight[h].Delivering? :: s.inFlight[h].attempts == 0
  }

  /** Every manual retry of the event is written while no such delivery is under way. */
  ghost predicate RetriesLandIdle(s: Sys, steps: seq<Step>, event: nat) {
    forall i | 0 <= i < |steps| && Requeue(steps[i], event) :: Run(s, steps[..i]).Some? && Idle(Run(s, steps[..i]).value, event)
  }

  lemma IdleFront(s: Sys, steps: seq<Step>, event: nat)
    requires steps != [] && RetriesLandIdle(s, steps, event)
    ensures RetriesLandIdle(s, steps[..|steps| - 1], event)
    ensures Requeue(steps[|steps| - 1], event) ==> Run(s, steps[..|steps| - 1]).Some? && Idle(Run(s, steps[..|steps| - 1]).value, event)
  {
    var front := steps[..|steps| - 1];
    forall i | 0 <= i < |front| && Requeue(front[i], event) ensures Run(s, front[..i]).Some? && Idle(Run(s, front[..i]).value, event) {
      assert front[..i] == steps[..i] && front[i] == steps[i];
    }
  }

  ghost predicate AttemptsAre(s: Sys, event: nat, n: nat) {
    && (event in s.events ==> s.events[event].attempts == n)
    && (forall h | h in s.inFlight && h.event == event && s.inFlight[h].Delivering? :: s.inFlight[h].attempts == n)
  }

  lemma AttemptsStep(s: Sys, step: Step, event: nat, n: nat)
    requires Inv(s) && Enabled(s, step) && AttemptsAre(s, event, n) && (event !in s.events ==> n == 0)
    requires Requeue(step, event) ==> Idle(s, event)
    ensures AttemptsAre(Apply(s, step), event,
      if Requeue(step, event) then 0 else if step.Fail? && step.h.event == event then n + 1 else n)
  {
    if step.Succeed? || step.Fail? { assert Owns(s, step.h); }
  }

  /** When manual retries are written between deliveries, attempts counts the failures since the last one. */
  lemma {:induction false} AttemptsCountFailures(s: Sys, steps: seq<Step>, event: nat)
    requires Init(s) && Run(s, steps).Some? && RetriesLandIdle(s, steps, event)
    ensures AttemptsAre(Run(s, steps).value, event, FailuresSinceRequeue(steps, event))
    ensures event !in Run(s, steps).value.events ==> FailuresSinceRequeue(steps, event) == 0
  {
    if steps != [] {
      var front, step := steps[..|steps| - 1], steps[|steps| - 1];
      IdleFront(s, steps, event);
      AttemptsCountFailures(s, front, event);
      RunInv(s, front);
      AttemptsStep(Run(s, front).value, step, event, FailuresSinceRequeue(front, event));
    }
  }

  /** A manual retry written while a delivery is under way is overwritten when that delivery fails: the count
      goes on from what the delivery fetched, which is right exactly when it had fetched no failure. */
  lemma RetryMidDelivery(s: Sys, p: nat, h: Handle, random: real)
    requires Enabled(s, LandRetry(p, h.event)) && h in s.inFlight && s.inFlight[h].Delivering? && 0.0 <= random < 1.0
    ensures var r := Apply(s, LandRetry(p, h.event));
      Enabled(r, Fail(h, random)) && r.events[h.event].attempts == 0
      && (Apply(r, Fail(h, random)).events[h.event].attempts == 1 <==> s.inFlight[h].attempts == 0)
  {
  }

  /** An event that will not be delivered again unless somebody retries it by hand. */
  predicate Spent(e: Event) { !e.delivered && e.attempts >= e.maxAttempts }

  /** One step keeps maxAttempts and deliveredAt, lowers attempts only as a manual retry, and claims neither a
      delivered nor an exhausted event. */
  lemma StepIsMonotone(s: Sys, step: Step, event: nat)
    requires Inv(s) && Enabled(s, step) && event in s.events
    ensures event in Apply(s, step).events
    ensures var e, f := s.events[event], Apply(s, step).events[event];
      && e.maxAttempts == f.maxAttempts && (e.delivered ==> f.delivered)
      && (e.attempts <= f.attempts || Requeue(step, event))
      && (step.Claim? && event in step.picks ==> !e.delivered && !Spent(e))
  {
    if step.Succeed? || step.Fail? { assert Owns(s, step.h); }
  }

  /** A delivered event is never claimed again, whatever else happens, manual retries included. */
  lemma {:induction false} DeliveredStaysDelivered(s: Sys, steps: seq<Step>, event: nat)
    requires Inv(s) && Run(s, steps).Some? && event in s.events && s.events[event].delivered
    ensures Inv(Run(s, steps).value) && event in Run(s, steps).value.events && Run(s, steps).value.events[event].delivered
    ensures forall i | 0 <= i < |steps| && steps[i].Claim? :: event !in steps[i].picks
    decreases |steps|
  {
    if steps != [] {
      var front, step := steps[..|steps| - 1], steps[|steps| - 1];
      DeliveredStaysDelivered(s, front, event);
      var q := Run(s, front).value;
      RunHolds(s, front);
      StepInv(q, step);
      if step.Succeed? || step.Fail? { assert Owns(q, step.h); }
      forall i | 0 <= i < |steps| && steps[i].Claim? ensures event !in steps[i].picks {
        if i < |front| { assert front[i] == steps[i]; }
      }
    }
  }

  /** An exhausted event stays exhausted, and unclaimed, until a manual retry of it is written. */
  lemma {:induction false} SpentUntilRequeued(s: Sys, steps: seq<Step>, event: nat)
    requires Inv(s) && Run(s, steps).Some? && event in s.events && Spent(s.events[event])
    requires forall i | 0 <= i < |steps| :: !Requeue(steps[i], event)
    ensures Inv(Run(s, steps).value) && event in Run(s, steps).value.events && Spent(Run(s, steps).value.events[event])
    ensures forall i | 0 <= i < |steps| && steps[i].Claim? :: event !in steps[i].picks
    decreases |steps|
  {
    if steps != [] {
      var front, step := steps[..|steps| - 1], steps[|steps| - 1];
      assert forall i | 0 <= i < |front| :: front[i] == steps[i];
      SpentUntilRequeued(s, front, event);
      var q := Run(s, front).value;
      RunHolds(s, front);
      StepInv(q, step);
      SpentStep(q, step, event);
    }
  }

  lemma SpentStep(s: Sys, step: Step, event: nat)
    requires Inv(s) && Enabled(s, step) && event in s.events && Spent(s.events[event]) && !Requeue(step, event)
    ensures event in Apply(s, step).events && Spent(Apply(s, step).events[event])
    ensures step.Claim? ==> event !in step.picks
  {
    StepIsMonotone(s, step, event);
  }

  ghost predicate RequeuedBefore(steps: seq<Step>, i: nat, event: nat)
    requires i <= |steps|
  {
    exists j :: 0 <= j < i && Requeue(steps[j], event)
  }

  /** ... so it is claimed again only after one. */
  lemma {:induction false} SpentIsClaimedOnlyAfterRequeue(s: Sys, steps: seq<Step>, event: nat, i: nat)
    requires Inv(s) && Run(s, steps).Some? && event in s.events && Spent(s.events[event])
    requires i < |steps| && steps[i].Claim? && event in steps[i].picks
    ensures RequeuedBefore(steps, i, event)
    decreases |steps|
  {
    var front, step := steps[..|steps| - 1], steps[|steps| - 1];
    if i < |front| {
      SpentIsClaimedOnlyAfterRequeue(s, front, event, i);
      var j :| 0 <= j < i && Requeue(front[j], event);
      assert Requeue(steps[j], event);
    } else if !RequeuedBefore(steps, i, event) {
      assert forall j | 0 <= j < |front| :: front[j] == steps[j];
      SpentUntilRequeued(s, front, event);
      StepIsMonotone(Run(s, front).value, step, event);
    }
  }

  lemma RunHolds(s: Sys, steps: seq<Step>)
    requires Run(s, steps).Some?
    ensures LeasesHeld(Run(s, steps).value)
  {
  }

  /** After the n-th failure the event is left alone for at least 0.8 * 4^n * 30 seconds unless it is retried
      by hand: every claim up to and including the next one of this event reads the clock no earlier. */
  lemma {:induction false} RetryWaitsForBackoff(s: Sys, h: Handle, random: real, steps: seq<Step>, claim: Step)
    requires Inv(s) && LeasesHeld(s) && Enabled(s, Fail(h, random))
    requires Run(Apply(s, Fail(h, random)), steps).Some?
    requires forall i | 0 <= i < |steps| :: !Requeue(steps[i], h.event) && (steps[i].Claim? ==> h.event !in steps[i].picks)
    requires claim.Claim? && h.event in claim.picks && Enabled(Run(Apply(s, Fail(h, random)), steps).value, claim)
    ensures claim.at >= s.now + 24_000 * Pow(4, s.inFlight[h].attempts + 1)
  {
    assert Owns(s, h);
    var r := Apply(s, Fail(h, random));
    OutcomeInv(s, Fail(h, random));
    assert forall g | g in r.inFlight :: g.event != h.event;
    UntouchedUntilClaimed(r, steps, h.event);
    JitterRange(s.inFlight[h].attempts + 1, random);
  }

  lemma {:induction false} UntouchedUntilClaimed(s: Sys, steps: seq<Step>, event: nat)
    requires Inv(s) && Run(s, steps).Some? && event in s.events
    requires forall g | g in s.inFlight :: g.event != event
    requires forall i | 0 <= i < |steps| :: !Requeue(steps[i], event) && (steps[i].Claim? ==> event !in steps[i].picks)
    ensures Inv(Run(s, steps).value)
    ensures event in Run(s, steps).value.events && Run(s, steps).value.events[event] == s.events[event]
    ensures forall g | g in Run(s, steps).value.inFlight :: g.event != event
    decreases |steps|
  {
    if steps != [] {
      var front, step := steps[..|steps| - 1], steps[|steps| - 1];
      assert forall i | 0 <= i < |front| :: front[i] == steps[i];
      UntouchedUntilClaimed(s, front, event);
      RunHolds(s, front);
      StepInv(Run(s, front).value, step);
    }
  }

  /** The windows of successive retries never overlap, whatever the jitter. */
  lemma BackoffGrows(n: nat, r1: real, r2: real)
    requires 0.0 <= r1 < 1.0 && 0.0 <= r2 < 1.0
    ensures WithJitter(Backoff(n), r1) < WithJitter(Backoff(n + 1), r2)
  {
    JitterRange(n, r1);
    JitterRange(n + 1, r2);
    PowMonotone(4, 0, n);
  }

  // ---------------------------------------------------------------------------------------------
  // What manual retries make possible
  // ---------------------------------------------------------------------------------------------

  ghost predicate Leads(a: Sys, steps: seq<Step>, b: Sys) { Run(a, steps) == Some(b) }

  lemma Then(a: Sys, steps: seq<Step>, b: Sys, step: Step)
    requires Leads(a, steps, b) && Enabled(b, step) && LeasesHeld(Apply(b, step))
    ensures Leads(a, steps + [step], Apply(b, step))
  {
    assert (steps + [step])[..|steps|] == steps;
  }

  lemma HalfJitter(n: nat)
    ensures WithJitter(Backoff(n), 0.5) == Backoff(n)
  {
  }

  /** A table with one event, nobody at work on it. */
  function Only(e: Event, retries: map<nat, nat>, nextId: nat, now: int): Sys {
    Sys(map[0 := e], map[], retries, nextId, now)
  }

  function AfterFailure(e: Event, now: int): Event {
    var next := e.attempts + 1;
    e.(attempts := next, processingBy := None, processingAt := None,
       nextRetryAt := if next >= e.maxAttempts then None else Some(now + Backoff(next)))
  }

  function Round(claim: nat, now: int): seq<Step> {
    [Claim(1, {0}, now, now, {}), Fetch(Handle(claim, 0)), Fail(Handle(claim, 0), 0.5)]
  }

  lemma ThenClaim(a: Sys, steps: seq<Step>, e: Event, retries: map<nat, nat>, nextId: nat, now: int)
    requires Leads(a, steps, Only(e, retries, nextId, now)) && Claimable(e, now, now)
    ensures Leads(a, steps + [Claim(1, {0}, now, now, {})],
      Sys(map[0 := Lease(e, 1, now)], map[Handle(nextId, 0) := Claimed(1, now)], retries, nextId + 1, now))
  {
    var s, r := Only(e, retries, nextId, now),
      Sys(map[0 := Lease(e, 1, now)], map[Handle(nextId, 0) := Claimed(1, now)], retries, nextId + 1, now);
    var s1, s2 := ClaimOnly(s, 1);
    assert s1.inFlight == r.inFlight;
    assert LeasesHeld(r) && s1 == r;
    Then(a, steps, s, Claim(1, {0}, now, now, {}));
  }

  lemma ThenClaimAndFetch(a: Sys, steps: seq<Step>, e: Event, retries: map<nat, nat>, nextId: nat, now: int)
    requires Leads(a, steps, Only(e, retries, nextId, now)) && Claimable(e, now, now)
    ensures Leads(a, steps + [Claim(1, {0}, now, now, {})] + [Fetch(Handle(nextId, 0))],
      Sys(map[0 := Lease(e, 1, now)], map[Handle(nextId, 0) := Delivering(1, now, e.attempts, e.maxAttempts)], retries, nextId + 1, now))
  {
    ThenClaim(a, steps, e, retries, nextId, now);
    var s := Sys(map[0 := Lease(e, 1, now)], map[Handle(nextId, 0) := Claimed(1, now)], retries, nextId + 1, now);
    var r := Sys(map[0 := Lease(e, 1, now)], map[Handle(nextId, 0) := Delivering(1, now, e.attempts, e.maxAttempts)], retries, nextId + 1, now);
    assert Apply(s, Fetch(Handle(nextId, 0))) == r && LeasesHeld(r);
    Then(a, steps + [Claim(1, {0}, now, now, {})], s, Fetch(Handle(nextId, 0)));
  }

  /** Claimed, fetched and failed. */
  lemma ThenRound(a: Sys, steps: seq<Step>, e: Event, retries: map<nat, nat>, nextId: nat, now: int)
    requires Leads(a, steps, Only(e, retries, nextId, now)) && Claimable(e, now, now)
    ensures Leads(a, steps + Round(nextId, now), Only(AfterFailure(e, now), retries, nextId + 1, now))
  {
    ThenClaimAndFetch(a, steps, e, retries, nextId, now);
    var h := Handle(nextId, 0);
    var fetched := Sys(map[0 := Lease(e, 1, now)], map[h := Delivering(1, now, e.attempts, e.maxAttempts)], retries, nextId + 1, now);
    HalfJitter(e.attempts + 1);
    assert Apply(fetched, Fail(h, 0.5)) == Only(AfterFailure(e, now), retries, nextId + 1, now);
    Then(a, steps + [Claim(1, {0}, now, now, {})] + [Fetch(h)], fetched, Fail(h, 0.5));
    assert steps + Round(nextId, now) == steps + [Claim(1, {0}, now, now, {})] + [Fetch(h)] + [Fail(h, 0.5)];
  }

  lemma ThenTick(a: Sys, steps: seq<Step>, e: Event, retries: map<nat, nat>, nextId: nat, now: int, ms: nat)
    requires Leads(a, steps, Only(e, retries, nextId, now))
    ensures Leads(a, steps + [Tick(ms)], Only(e, retries, nextId, now + ms))
  {
    Then(a, steps, Only(e, retries, nextId, now), Tick(ms));
  }

  lemma ThenRead(a: Sys, steps: seq<Step>, e: Event, retries: map<nat, nat>, nextId: nat, now: int, p: nat)
    requires Leads(a, steps, Only(e, retries, nextId, now)) && p !in retries && IsExhausted(e)
    ensures Leads(a, steps + [ReadRetry(p, 0)], Only(e, retries[p := 0], nextId, now))
  {
    Then(a, steps, Only(e, retries, nextId, now), ReadRetry(p, 0));
  }

  lemma ThenLand(a: Sys, steps: seq<Step>, e: Event, retries: map<nat, nat>, nextId: nat, now: int, p: nat)
    requires Leads(a, steps, Only(e, retries, nextId, now)) && p in retries && retries[p] == 0
    ensures Leads(a, steps + [LandRetry(p, 0)], Only(Requeued(e, now), retries - {p}, nextId, now))
  {
    assert Apply(Only(e, retries, nextId, now), LandRetry(p, 0)) == Only(Requeued(e, now), retries - {p}, nextId, now);
    Then(a, steps, Only(e, retries, nextId, now), LandRetry(p, 0));
  }

  function FreshEvent(maxAttempts: nat): Event { Event(0, maxAttempts, false, Some(0), None, None, 0) }

  function FreshSys(maxAttempts: nat): Sys { Only(FreshEvent(maxAttempts), map[], 1, 0) }

  lemma StartsFresh(maxAttempts: nat)
    ensures Init(FreshSys(maxAttempts)) && Leads(FreshSys(maxAttempts), [], FreshSys(maxAttempts))
  {
  }

  /** An event with a budget of one attempt fails (`spent`), is retried by hand (`queued`), is claimed again
      and fails again. */
  lemma ExhaustedIsClaimedAgain() returns (s: Sys, steps: seq<Step>, spent: Sys, queued: Sys)
    ensures Init(s) && Run(s, steps).Some? && |steps| == 8 && steps[5].Claim? && 0 in steps[5].picks
    ensures Run(s, steps[..3]) == Some(spent) && 0 in spent.events && Spent(spent.events[0])
    ensures Run(s, steps[..5]) == Some(queued) && 0 in queued.events && queued.events[0].attempts < spent.events[0].attempts
    ensures Failures(steps, 0) == 2 && spent.events[0].maxAttempts == 1
  {
    s := FreshSys(1);
    StartsFresh(1);
    var first := AfterFailure(FreshEvent(1), 0);
    ThenRound(s, [], FreshEvent(1), map[], 1, 0);
    ThenRead(s, [] + Round(1, 0), first, map[], 2, 0, 0);
    ThenLand(s, [] + Round(1, 0) + [ReadRetry(0, 0)], first, map[0 := 0], 2, 0, 0);
    var again := Requeued(first, 0);
    assert map[0 := 0] - {0} == map[];
    ThenRound(s, [] + Round(1, 0) + [ReadRetry(0, 0)] + [LandRetry(0, 0)], again, map[], 2, 0);
    steps := [] + Round(1, 0) + [ReadRetry(0, 0)] + [LandRetry(0, 0)] + Round(2, 0);
    spent, queued := Only(first, map[], 2, 0), Only(again, map[], 2, 0);
    assert steps[..3] == [] + Round(1, 0);
    assert steps[..5] == [] + Round(1, 0) + [ReadRetry(0, 0)] + [LandRetry(0, 0)];
    FailuresOfRound([], 1, 0);
    FailuresAppend([] + Round(1, 0), ReadRetry(0, 0), 0);
    FailuresAppend([] + Round(1, 0) + [ReadRetry(0, 0)], LandRetry(0, 0), 0);
    FailuresOfRound([] + Round(1, 0) + [ReadRetry(0, 0)] + [LandRetry(0, 0)], 2, 0);
  }

  lemma {:induction false} FailuresOfRound(steps: seq<Step>, claim: nat, now: int)
    ensures Failures(steps + Round(claim, now), 0) == Failures(steps, 0) + 1
  {
    var c, f, x := Claim(1, {0}, now, now, {}), Fetch(Handle(claim, 0)), Fail(Handle(claim, 0), 0.5);
    assert steps + Round(claim, now) == steps + [c] + [f] + [x];
    ThreeMore(steps, c, f, x);
  }

  lemma {:induction false} ThreeMore(steps: seq<Step>, a: Step, b: Step, c: Step)
    requires !a.Fail? && !b.Fail? && c.Fail? && c.h.event == 0
    ensures Failures(steps + [a] + [b] + [c], 0) == Failures(steps, 0) + 1
  {
    FailuresAppend(steps, a, 0);
    FailuresAppend(steps + [a], b, 0);
    FailuresAppend(steps + [a] + [b], c, 0);
  }

  /** An event with a budget of two, exhausted. */
  lemma ExhaustedOnce() returns (steps: seq<Step>)
    ensures Leads(FreshSys(2), steps, Only(FailedTwice(), map[], 3, 120_000))
  {
    var s, e := FreshSys(2), FreshEvent(2);
    StartsFresh(2);
    assert Backoff(1) == 120_000;
    var once := AfterFailure(e, 0);
    ThenRound(s, [], e, map[], 1, 0);
    steps := [] + Round(1, 0);
    ThenTick(s, steps, once, map[], 2, 0, 120_000);
    steps := steps + [Tick(120_000)];
    ThenRound(s, steps, once, map[], 2, 120_000);
    steps := steps + Round(2, 120_000);
  }

  function FailedTwice(): Event { AfterFailure(AfterFailure(FreshEvent(2), 0), 120_000) }

  /** The same, read by two people and put back by the first of them. */
  lemma ReadTwice() returns (steps: seq<Step>)
    ensures Leads(FreshSys(2), steps, Only(Event(0, 2, false, Some(120_000), None, None, 0), map[1 := 0], 3, 120_000))
  {
    var s, twice := FreshSys(2), FailedTwice();
    steps := ExhaustedOnce();
    ThenRead(s, steps, twice, map[], 3, 120_000, 0);
    steps := steps + [ReadRetry(0, 0)];
    ThenRead(s, steps, twice, map[0 := 0], 3, 120_000, 1);
    steps := steps + [ReadRetry(1, 0)];
    ThenLand(s, steps, twice, map[0 := 0][1 := 0], 3, 120_000, 0);
    steps := steps + [LandRetry(0, 0)];
    assert map[0 := 0][1 := 0] - {0} == map[1 := 0];
  }

  /** ... it then fails once more, and is being delivered again when the second write lands. */
  lemma RetriedMidDelivery() returns (steps: seq<Step>, s: Sys)
    ensures Leads(FreshSys(2), steps, s) && Handle(4, 0) in s.inFlight && s.inFlight[Handle(4, 0)].Delivering?
    ensures s.inFlight[Handle(4, 0)].attempts == 1 && Enabled(s, LandRetry(1, 0)) && LeasesHeld(Apply(s, LandRetry(1, 0)))
  {
    var a, e := FreshSys(2), Event(0, 2, false, Some(120_000), None, None, 0);
    steps := ReadTwice();
    assert Backoff(1) == 120_000;
    ThenRound(a, steps, e, map[1 := 0], 3, 120_000);
    steps := steps + Round(3, 120_000);
    var e1 := AfterFailure(e, 120_000);
    ThenTick(a, steps, e1, map[1 := 0], 4, 120_000, 120_000);
    steps := steps + [Tick(120_000)];
    ThenClaimAndFetch(a, steps, e1, map[1 := 0], 4, 240_000);
    steps := steps + [Claim(1, {0}, 240_000, 240_000, {})] + [Fetch(Handle(4, 0))];
    s := Sys(map[0 := Lease(e1, 1, 240_000)], map[Handle(4, 0) := Delivering(1, 240_000, 1, 2)], map[1 := 0], 5, 240_000);
  }

  /** Two people retry one exhausted event; the second write lands while the event is being delivered again,
      and when that delivery fails attempts stands at two, though one failure has been recorded since. */
  lemma RetryMidDeliveryMiscounts() returns (s: Sys, steps: seq<Step>, r: Sys)
    ensures Init(s) && Run(s, steps) == Some(r) && 0 in r.events
    ensures r.events[0].attempts == 2 && FailuresSinceRequeue(steps, 0) == 1
  {
    s := FreshSys(2);
    StartsFresh(2);
    var q;
    steps, q := RetriedMidDelivery();
    RetryMidDelivery(q, 1, Handle(4, 0), 0.5);
    var landed := Apply(q, LandRetry(1, 0));
    Then(s, steps, q, LandRetry(1, 0));
    Then(s, steps + [LandRetry(1, 0)], landed, Fail(Handle(4, 0), 0.5));
    SinceRequeue(steps, 1, Handle(4, 0));
    r := Apply(landed, Fail(Handle(4, 0), 0.5));
    steps := steps + [LandRetry(1, 0)] + [Fail(Handle(4, 0), 0.5)];
  }

  lemma SinceRequeue(steps: seq<Step>, p: nat, h: Handle)
    ensures FailuresSinceRequeue(steps + [LandRetry(p, h.event)] + [Fail(h, 0.5)], h.event) == 1
  {
    var more := steps + [LandRetry(p, h.event)];
    assert more[..|steps|] == steps && (more + [Fail(h, 0.5)])[..|more|] == more;
    assert FailuresSinceRequeue(more, h.event) == 0;
  }

  // ---------------------------------------------------------------------------------------------
  // The worker over its table
  // ---------------------------------------------------------------------------------------------

  datatype Response = Accepted | Refused(random: real)

  /** What one delivery attempt leaves of a row it held the lease of. */
  function Outcome(e: Event, response: Response, now: int): Event {
    match response
    case Accepted => Delivered(e)
    case Refused(random) => Failed(e, e.attempts, e.maxAttempts, now, random)
  }

  /** A row during a batch: untouched, leased, or done. */
  function Progress(e: Event, picked: bool, todo: bool, worker: nat, at: int, response: Response, now: int): Event {
    if !picked then e else if todo then Lease(e, worker, at) else Outcome(e, response, now)
  }

  /** Who can be claimed, and how many at once. */
  lemma ClaimRules(e: Event, at: int, leaseNow: int, events: map<nat, Event>, picks: set<nat>, locked: set<nat>)
    ensures Claimable(e, at, leaseNow) <==>
      && !e.delivered && e.attempts < e.maxAttempts && e.nextRetryAt.Some? && e.nextRetryAt.value <= at
      && (e.processingBy.None? || (e.processingAt.Some? && e.processingAt.value + 90_000 < leaseNow))
    ensures IsBatch(events, picks, at, leaseNow, locked) ==>
      && |picks| <= 20
      && (forall id | id in picks :: id in events && id !in locked && Claimable(events[id], at, leaseNow))
      && (forall id | id in events && id !in locked && id !in picks && Claimable(events[id], at, leaseNow) ::
            |picks| == 20 && forall p | p in picks :: events[p].createdAt <= events[id].createdAt)
  {
  }

  /** A manual retry is for events neither delivered nor scheduled; it takes the count back to zero and makes the
      event due at once. */
  lemma RetryRules(e: Event, now: int)
    ensures IsExhausted(e) <==> !e.delivered && e.nextRetryAt == None
    ensures Requeued(e, now) == e.(attempts := 0, nextRetryAt := Some(now))
  {
  }

  /** After an accepted delivery the row is delivered, its lease cleared, and it is never claimable again; its
      counters are as they were. */
  lemma AcceptedIsDone(e: Event, now: int, at: int, leaseNow: int)
    ensures var f := Outcome(e, Accepted, now);
      && f.delivered && f.processingBy == None && f.processingAt == None && !Claimable(f, at, leaseNow)
      && f.attempts == e.attempts && f.maxAttempts == e.maxAttempts && f.nextRetryAt == e.nextRetryAt && f.createdAt == e.createdAt
  {
  }

  /** After a refused one it has one failure more and no lease. At the limit it has no retry time and is not
      claimable again; below it the retry time is 30 seconds times 4 to the number of failures away, within a fifth,
      and it is claimable from then on. */
  lemma RefusedWaits(e: Event, random: real, now: int, at: int, leaseNow: int)
    requires 0.0 <= random < 1.0
    ensures var f, n := Outcome(e, Refused(random), now), e.attempts + 1;
      && f.attempts == n && f.delivered == e.delivered && f.processingBy == None && f.processingAt == None
      && f.maxAttempts == e.maxAttempts && f.createdAt == e.createdAt
      && (n >= e.maxAttempts ==> f.nextRetryAt == None && !Claimable(f, at, leaseNow))
      && (n < e.maxAttempts ==>
            && f.nextRetryAt.Some?
            && now + 24_000 * Pow(4, n) <= f.nextRetryAt.value <= now + 36_000 * Pow(4, n)
            && (random == 0.5 ==> f.nextRetryAt.value == now + 30_000 * Pow(4, n))
            && (Claimable(f, at, leaseNow) <==> !e.delivered && f.nextRetryAt.value <= at))
  {
    JitterRange(e.attempts + 1, random);
    if random == 0.5 { HalfJitter(e.attempts + 1); }
  }

  lemma LeaseChangesNoOutcome(e: Event, worker: nat, at: int, response: Response, now: int)
    ensures Outcome(Lease(e, worker, at), response, now) == Outcome(e, response, now)
  {
  }

  // ---------------------------------------------------------------------------------------------
  // A batch left alone is a run of the interleaved system
  // ---------------------------------------------------------------------------------------------

  datatype Batch = Batch(worker: nat, at: int, picks: set<nat>, response: nat -> Response, doneAt: nat -> int)

  /** While these deliveries of the batch are still to come. */
  function Midway(s: Sys, b: Batch, todo: set<nat>, now: int): Sys {
    Sys(map id | id in s.events :: Progress(s.events[id], id in b.picks, id in todo, b.worker, b.at, b.response(id), b.doneAt(id)),
        map id | id in todo :: Handle(s.nextId, id) := Claimed(b.worker, b.at), s.retries, s.nextId + 1, now)
  }

  /** Deliveries end in the course of the lease, failures with a random number as Math.random gives it. */
  ghost predicate EndInTime(b: Batch, todo: set<nat>, now: int) {
    forall id | id in todo ::
      && now <= b.doneAt(id) <= b.at + LEASE_TTL_MS
      && (b.response(id).Refused? ==> 0.0 <= b.response(id).random < 1.0)
  }

  lemma ClaimStarts(s: Sys, b: Batch, leaseNow: int, locked: set<nat>)
    requires s.inFlight == map[] && b.at <= leaseNow <= s.now && IsBatch(s.events, b.picks, b.at, leaseNow, locked)
    requires EndInTime(b, b.picks, s.now)
    ensures var claim := Claim(b.worker, b.picks, b.at, leaseNow, locked);
      Enabled(s, claim) && Apply(s, claim) == Midway(s, b, b.picks, s.now) && LeasesHeld(Apply(s, claim))
  {
    var r, m := Apply(s, Claim(b.worker, b.picks, b.at, leaseNow, locked)), Midway(s, b, b.picks, s.now);
    assert r.events == m.events;
    assert r.inFlight == m.inFlight;
    forall h | h in r.inFlight ensures s.now <= r.inFlight[h].claimedAt + LEASE_TTL_MS {
      assert h.event in b.picks;
    }
  }

  lemma HeldMidway(s: Sys, b: Batch, todo: set<nat>, now: int)
    requires EndInTime(b, todo, now)
    ensures LeasesHeld(Midway(s, b, todo, now))
  {
    forall h | h in Midway(s, b, todo, now).inFlight ensures now <= Midway(s, b, todo, now).inFlight[h].claimedAt + LEASE_TTL_MS {
      assert h.event in todo;
    }
  }

  function Fetched(s: Sys, b: Batch, todo: set<nat>, id: nat): Sys
    requires id in s.events
  {
    var m := Midway(s, b, todo, b.doneAt(id));
    m.(inFlight := m.inFlight[Handle(s.nextId, id) := Delivering(b.worker, b.at, s.events[id].attempts, s.events[id].maxAttempts)])
  }

  lemma FetchOne(s: Sys, b: Batch, todo: set<nat>, id: nat)
    requires id in todo && todo <= b.picks && id in s.events && EndInTime(b, todo, b.doneAt(id))
    ensures var m, h := Midway(s, b, todo, b.doneAt(id)), Handle(s.nextId, id);
      Enabled(m, Fetch(h)) && Apply(m, Fetch(h)) == Fetched(s, b, todo, id) && LeasesHeld(Fetched(s, b, todo, id))
  {
    HeldMidway(s, b, todo, b.doneAt(id));
  }

  function Ending(s: Sys, b: Batch, id: nat): Step {
    match b.response(id)
    case Accepted => Succeed(Handle(s.nextId, id))
    case Refused(random) => Fail(Handle(s.nextId, id), random)
  }

  lemma EndOne(s: Sys, b: Batch, todo: set<nat>, id: nat)
    requires id in todo && todo <= b.picks && id in s.events && EndInTime(b, todo, b.doneAt(id))
    ensures var f := Fetched(s, b, todo, id);
      Enabled(f, Ending(s, b, id)) && Apply(f, Ending(s, b, id)) == Midway(s, b, todo - {id}, b.doneAt(id))
  {
    var r, m := Apply(Fetched(s, b, todo, id), Ending(s, b, id)), Midway(s, b, todo - {id}, b.doneAt(id));
    LeaseChangesNoOutcome(s.events[id], b.worker, b.at, b.response(id), b.doneAt(id));
    assert r.events == m.events;
    assert r.inFlight == m.inFlight;
  }

  lemma FirstToEnd(b: Batch, todo: set<nat>) returns (id: nat)
    requires todo != {}
    ensures id in todo && forall x | x in todo :: b.doneAt(id) <= b.doneAt(x)
  {
    id :| id in todo;
    var rest := todo - {id};
    assert todo == rest + {id};
    if rest != {} {
      var other := FirstToEnd(b, rest);
      if b.doneAt(other) < b.doneAt(id) { id := other; }
    }
  }

  lemma RestIsARun(a: Sys, before: seq<Step>, s: Sys, b: Batch, todo: set<nat>, now: int) returns (steps: seq<Step>, later: int)
    requires Leads(a, before, Midway(s, b, todo, now)) && todo <= b.picks <= s.events.Keys && EndInTime(b, todo, now)
    ensures Leads(a, steps, Midway(s, b, {}, later))
    decreases |todo|
  {
    if todo == {} {
      return before, now;
    }
    var id := FirstToEnd(b, todo);
    var h, m := Handle(s.nextId, id), Midway(s, b, todo, b.doneAt(id));
    var tick, fetched := Tick(b.doneAt(id) - now), Fetched(s, b, todo, id);
    assert Apply(Midway(s, b, todo, now), tick) == m;
    HeldMidway(s, b, todo, b.doneAt(id));
    Then(a, before, Midway(s, b, todo, now), tick);
    FetchOne(s, b, todo, id);
    Then(a, before + [tick], m, Fetch(h));
    EndOne(s, b, todo, id);
    HeldMidway(s, b, todo - {id}, b.doneAt(id));
    Then(a, before + [tick] + [Fetch(h)], fetched, Ending(s, b, id));
    steps, later := RestIsARun(a, before + [tick] + [Fetch(h)] + [Ending(s, b, id)], s, b, todo - {id}, b.doneAt(id));
  }

  /** What DeliverBatch leaves, when nobody else is at work and every delivery ends within the lease, is what a run
      of claim, fetches and outcomes leaves, each outcome at its own moment. */
  lemma BatchIsARun(s: Sys, b: Batch, leaseNow: int, locked: set<nat>) returns (steps: seq<Step>, r: Sys)
    requires s.inFlight == map[] && b.at <= leaseNow <= s.now && IsBatch(s.events, b.picks, b.at, leaseNow, locked)
    requires EndInTime(b, b.picks, s.now)
    ensures Leads(s, steps, r) && r.inFlight == map[] && r.retries == s.retries && r.events.Keys == s.events.Keys
    ensures forall id | id in s.events ::
      && r.events[id] == if id in b.picks then Outcome(s.events[id], b.response(id), b.doneAt(id)) else s.events[id]
  {
    var claim, later := Claim(b.worker, b.picks, b.at, leaseNow, locked), s.now;
    ClaimStarts(s, b, leaseNow, locked);
    assert Leads(s, [], s);
    Then(s, [], s, claim);
    steps, later := RestIsARun(s, [] + [claim], s, b, b.picks, s.now);
    r := Midway(s, b, {}, later);
  }

  class WebhookWorker {
    const workerId: nat
    var events: map<nat, Event>

    constructor (workerId: nat, events: map<nat, Event>)
      ensures this.workerId == workerId && this.events == events
    {
      this.workerId, this.events := workerId, events;
    }

    /** ORDER BY createdAt LIMIT 20. */
    method TakeOldest(candidates: set<nat>) returns (picks: set<nat>)
      requires candidates <= events.Keys
      ensures picks <= candidates && |picks| <= BATCH && (picks != candidates ==> |picks| == BATCH)
      ensures forall p, r | p in picks && r in candidates - picks :: events[p].createdAt <= events[r].createdAt
    {
      picks := {};
      var rest := candidates;
      while rest != {} && |picks| < BATCH
        invariant picks !! rest && picks + rest == candidates && |picks| <= BATCH
        invariant forall p, r | p in picks && r in rest :: events[p].createdAt <= events[r].createdAt
        decreases |rest|
      {
        var oldest := Oldest(rest);
        picks := picks + {oldest};
        rest := rest - {oldest};
      }
      assert candidates - picks == rest;
    }

    /** The sub-select of claimBatch: the oldest claimable rows that nobody has locked. */
    method SelectBatch(at: int, leaseNow: int, locked: set<nat>) returns (picks: set<nat>)
      ensures IsBatch(events, picks, at, leaseNow, locked)
    {
      var candidates := set id | id in events && id !in locked && Claimable(events[id], at, leaseNow);
      picks := TakeOldest(candidates);
    }

    method Oldest(ids: set<nat>) returns (r: nat)
      requires ids != {} && ids <= events.Keys
      ensures r in ids && forall id | id in ids :: events[r].createdAt <= events[id].createdAt
    {
      r :| r in ids;
      var rest := ids - {r};
      while rest != {}
        invariant r in ids && rest <= ids
        invariant forall id | id in ids - rest :: events[r].createdAt <= events[id].createdAt
        decreases |rest|
      {
        var id :| id in rest;
        if events[id].createdAt < events[r].createdAt { r := id; }
        rest := rest - {id};
      }
    }

    /** claimBatch: one statement that selects, locks and leases. */
    method ClaimBatch(at: int, leaseNow: int, locked: set<nat>) returns (picks: set<nat>)
      modifies this`events
      ensures IsBatch(old(events), picks, at, leaseNow, locked)
      ensures events == LeaseAll(old(events), picks, workerId, at)
    {
      picks := SelectBatch(at, leaseNow, locked);
      events := LeaseAll(events, picks, workerId, at);
    }

    /** One delivery and its release. */
    method Finish(id: nat, response: Response, now: int)
      requires id in events
      modifies this`events
      ensures events == old(events)[id := Outcome(old(events)[id], response, now)]
    {
      var event := events[id];
      match response {
        case Accepted => events := events[id := Delivered(event)];
        case Refused(random) =>
          events := events[id := Failed(events[id], event.attempts, event.maxAttempts, now, random)];
      }
    }

    /** deliverBatch when every delivery of the batch ends before another worker acts on its rows. */
    method DeliverBatch(at: int, leaseNow: int, locked: set<nat>, response: nat -> Response, doneAt: nat -> int)
      returns (processed: nat, ghost picks: set<nat>)
      modifies this`events
      ensures IsBatch(old(events), picks, at, leaseNow, locked) && processed == |picks|
      ensures events.Keys == old(events).Keys
      ensures forall id | id in events ::
        events[id] == if id in picks then Outcome(old(events)[id], response(id), doneAt(id)) else old(events)[id]
    {
      ghost var before := events;
      var ids := ClaimBatch(at, leaseNow, locked);
      picks := ids;
      var fetched := set id | id in ids && events[id].processingBy == Some(workerId);
      assert fetched == ids;
      var todo := fetched;
      while todo != {}
        invariant todo <= picks && events.Keys == before.Keys
        invariant forall id | id in events :: events[id] == Progress(before[id], id in picks, id in todo, workerId, at, response(id), doneAt(id))
        decreases |todo|
      {
        var id :| id in todo;
        Finish(id, response(id), doneAt(id));
        LeaseChangesNoOutcome(before[id], workerId, at, response(id), doneAt(id));
        todo := todo - {id};
      }
      processed := |fetched|;
    }
  }
}
