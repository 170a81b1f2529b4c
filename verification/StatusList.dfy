/** Models src/modules/credentials/services/status-list.service.ts with the issuing and revoking flows
    around it: an optimistic allocator of (list, index) slots run by any number of callers at once, and
    the compressed bit string that must agree with the status of every credential.

    zlib is a parameter, assumed only to invert itself. */
module StatusList {
  import opened Options
  import opened BitString

  const DEFAULT_LIST_SIZE: nat := 131_072

  datatype Purpose = Revocation | Suspension

  type Status = v: int | v == 0 || v == 1

  datatype Codec = Codec(deflate: seq<bv8> -> seq<bv8>, inflate: seq<bv8> -> seq<bv8>) {
    ghost predicate Inverse() {
      forall b :: inflate(deflate(b)) == b
    }
  }

  datatype List = List(purpose: Purpose, createdAt: int, encoded: seq<bv8>, maxSize: nat, issuedCount: nat)

  datatype Slot = Slot(list: nat, index: int)

  /** BitstringStatusList, StatusListEntry and the status columns of VerifiableCredential. */
  datatype Tables = Tables(lists: map<nat, List>, entries: map<Slot, Status>, credentials: map<nat, Slot>)

  // ---------------------------------------------------------------------------------------------
  // updateEntry and checkEntry
  // ---------------------------------------------------------------------------------------------

  function Ones(entries: map<Slot, Status>, list: nat): set<int> {
    set s | s in entries && s.list == list && entries[s] == 1 :: s.index
  }

  /** The upsert followed by re-encoding the whole list; an unknown list is refused. */
  function Update(t: Tables, slot: Slot, value: Status, z: Codec): Tables {
    if slot.list !in t.lists then t else
      var entries := t.entries[slot := value];
      var l := t.lists[slot.list];
      t.(entries := entries,
         lists := t.lists[slot.list := l.(encoded := z.deflate(Pack(Ones(entries, slot.list), l.maxSize)))])
  }

  /** None when the list does not exist. */
  function Check(t: Tables, slot: Slot, z: Codec): Option<bv8> {
    if slot.list !in t.lists then None
    else Some(BitAt(z.inflate(t.lists[slot.list].encoded), slot.index))
  }

  /** Every stored bit string is the packing of the entries of its list. */
  ghost predicate BitsAgree(t: Tables, z: Codec) {
    forall l | l in t.lists :: z.inflate(t.lists[l].encoded) == Pack(Ones(t.entries, l), t.lists[l].maxSize)
  }

  predicate InRange(t: Tables, slot: Slot) {
    slot.list in t.lists && Holds(ByteCount(t.lists[slot.list].maxSize), slot.index)
  }

  lemma CheckReadsEntry(t: Tables, slot: Slot, z: Codec)
    requires BitsAgree(t, z) && slot.list in t.lists
    ensures Check(t, slot, z) == Some(if InRange(t, slot) && slot in t.entries && t.entries[slot] == 1 then 1 else 0)
  {
  }

  lemma UpdateKeepsBits(t: Tables, slot: Slot, value: Status, z: Codec)
    requires z.Inverse() && BitsAgree(t, z)
    ensures BitsAgree(Update(t, slot, value, z), z)
  {
    var u := Update(t, slot, value, z);
    forall l | l in u.lists && l != slot.list ensures Ones(u.entries, l) == Ones(t.entries, l) {
      assert forall s: Slot | s.list == l :: s in u.entries <==> s in t.entries;
      assert forall s: Slot | s.list == l && s in t.entries :: u.entries[s] == t.entries[s];
    }
  }

  /** One update sets its own slot and no other, in any list. A slot past the buffer stays 0. */
  lemma UpdateThenCheck(t: Tables, slot: Slot, value: Status, other: Slot, z: Codec)
    requires z.Inverse() && BitsAgree(t, z) && other.list in t.lists
    ensures Check(Update(t, slot, value, z), other, z)
         == if other == slot then Some(if InRange(t, slot) && value == 1 then 1 else 0) else Check(t, other, z)
  {
    UpdateKeepsBits(t, slot, value, z);
    CheckReadsEntry(t, other, z);
    CheckReadsEntry(Update(t, slot, value, z), other, z);
  }

  datatype Write = Write(slot: Slot, value: Status)

  function UpdateAll(t: Tables, writes: seq<Write>, z: Codec): Tables {
    if writes == [] then t
    else Update(UpdateAll(t, writes[..|writes| - 1], z), writes[|writes| - 1].slot, writes[|writes| - 1].value, z)
  }

  function LastWrite(writes: seq<Write>, slot: Slot): Status {
    if writes == [] then 0
    else if writes[|writes| - 1].slot == slot then writes[|writes| - 1].value
    else LastWrite(writes[..|writes| - 1], slot)
  }

  /** After any updates one at a time, checkEntry returns the last value written at an index (0 if none),
      exactly when the index is inside the buffer or that value is 0. */
  lemma {:induction false} CheckReturnsLastWrite(t: Tables, writes: seq<Write>, slot: Slot, z: Codec)
    requires z.Inverse() && BitsAgree(t, z) && t.entries == map[] && slot.list in t.lists
    ensures var u := UpdateAll(t, writes, z);
      && BitsAgree(u, z) && u.lists.Keys == t.lists.Keys && (InRange(u, slot) <==> InRange(t, slot))
      && (Check(u, slot, z) == Some(LastWrite(writes, slot) as bv8)
          <==> InRange(t, slot) || LastWrite(writes, slot) == 0)
  {
    if writes == [] {
      CheckReadsEntry(t, slot, z);
    } else {
      var front, w := writes[..|writes| - 1], writes[|writes| - 1];
      CheckReturnsLastWrite(t, front, slot, z);
      var u := UpdateAll(t, front, z);
      UpdateKeepsBits(u, w.slot, w.value, z);
      UpdateThenCheck(u, w.slot, w.value, slot, z);
    }
  }

  // ---------------------------------------------------------------------------------------------
  // allocateIndex, under any interleaving of its callers
  // ---------------------------------------------------------------------------------------------

  /** Where one call of allocateIndex stands. `readAt` counts the allocations made before its read. A list
      that a call has created is its transaction's own until that commits, with index 0 taken. */
  datatype Phase =
    | Idle
    | Observed(list: nat, count: nat, readAt: nat)
    | Providing(purpose: Purpose)
    | Created(list: nat, purpose: Purpose, createdAt: int)

  datatype Sys = Sys(t: Tables, log: seq<Slot>, calls: map<nat, Phase>, nextId: nat, now: int)

  datatype Step =
    | Tick(ms: nat)
    | Read(call: nat, purpose: Purpose, seen: Option<nat>)
    | Create(call: nat)
    | Commit(call: nat)
    | Swap(call: nat)
    | Abort(call: nat)
    | SetStatus(credential: nat, value: Status)

  function PhaseOf(s: Sys, call: nat): Phase {
    if call in s.calls then s.calls[call] else Idle
  }

  /** A row that `findFirst ... orderBy createdAt asc` may return. */
  predicate IsOldest(lists: map<nat, List>, purpose: Purpose, l: nat) {
    && l in lists && lists[l].purpose == purpose
    && forall m | m in lists && lists[m].purpose == purpose :: lists[l].createdAt <= lists[m].createdAt
  }

  predicate NoListOf(s: Sys, purpose: Purpose) {
    forall l | l in s.t.lists :: s.t.lists[l].purpose != purpose
  }

  predicate HasRoom(l: List) { l.issuedCount < l.maxSize }

  predicate Enabled(s: Sys, step: Step) {
    match step
    case Tick(_) => true
    case Read(c, purpose, seen) =>
      && PhaseOf(s, c).Idle?
      && match seen {
         case None => NoListOf(s, purpose)
         case Some(l) => IsOldest(s.t.lists, purpose, l)
         }
    case Create(c) => PhaseOf(s, c).Providing?
    case Commit(c) => PhaseOf(s, c).Created?
    case Swap(c) => PhaseOf(s, c).Observed? && PhaseOf(s, c).list in s.t.lists
    case Abort(c) => !PhaseOf(s, c).Idle?
    case SetStatus(vc, _) => vc in s.t.credentials
  }

  predicate SwapWins(s: Sys, call: nat)
    requires Enabled(s, Swap(call))
  {
    s.t.lists[PhaseOf(s, call).list].issuedCount == PhaseOf(s, call).count
  }

  function NewList(purpose: Purpose, createdAt: int, z: Codec): List {
    List(purpose, createdAt, z.deflate(seq(ByteCount(DEFAULT_LIST_SIZE), _ => 0)), DEFAULT_LIST_SIZE, 1)
  }

  /** The winning swap commits together with the credential row; a lost one starts over from the read. */
  function Apply(s: Sys, step: Step, z: Codec): Sys
    requires Enabled(s, step)
  {
    match step
    case Tick(ms) => s.(now := s.now + ms)
    case Read(c, purpose, seen) =>
      s.(calls := s.calls[c := if seen.Some? && HasRoom(s.t.lists[seen.value])
                               then Observed(seen.value, s.t.lists[seen.value].issuedCount, |s.log|)
                               else Providing(purpose)])
    case Create(c) =>
      s.(calls := s.calls[c := Created(s.nextId, PhaseOf(s, c).purpose, s.now)], nextId := s.nextId + 1)
    case Commit(c) =>
      var o := PhaseOf(s, c);
      s.(t := s.t.(lists := s.t.lists[o.list := NewList(o.purpose, o.createdAt, z)],
                   credentials := s.t.credentials[s.nextId := Slot(o.list, 0)]),
         log := s.log + [Slot(o.list, 0)], calls := s.calls[c := Idle], nextId := s.nextId + 1)
    case Swap(c) =>
      var o := PhaseOf(s, c);
      if !SwapWins(s, c) then s.(calls := s.calls[c := Idle]) else
        var l := s.t.lists[o.list];
        var slot := Slot(o.list, o.count);
        s.(t := s.t.(lists := s.t.lists[o.list := l.(issuedCount := l.issuedCount + 1)],
                     credentials := s.t.credentials[s.nextId := slot]),
           log := s.log + [slot], calls := s.calls[c := Idle], nextId := s.nextId + 1)
    case Abort(c) => s.(calls := s.calls[c := Idle])
    case SetStatus(vc, value) => s.(t := Update(s.t, s.t.credentials[vc], value, z))
  }

  ghost predicate Init(s: Sys, z: Codec) {
    && s.log == [] && s.calls == map[] && s.t.entries == map[] && s.t.credentials == map[]
    && (forall l | l in s.t.lists :: l < s.nextId && s.t.lists[l].issuedCount == 0
         && s.t.lists[l].encoded == z.deflate(Pack({}, s.t.lists[l].maxSize)))
  }

  ghost predicate SlotsInv(s: Sys) {
    && (forall l | l in s.t.lists :: l < s.nextId && s.t.lists[l].issuedCount <= s.t.lists[l].maxSize)
    && (forall i | 0 <= i < |s.log| :: s.log[i].list in s.t.lists && 0 <= s.log[i].index < s.t.lists[s.log[i].list].issuedCount)
    && (forall l, i | l in s.t.lists && 0 <= i < s.t.lists[l].issuedCount :: Slot(l, i) in s.log)
    && (forall i, j | 0 <= i < j < |s.log| :: s.log[i] != s.log[j])
  }

  ghost predicate CallsInv(s: Sys) {
    forall c | c in s.calls && s.calls[c].Observed? ::
      var o := s.calls[c];
      && o.list in s.t.lists && o.count < s.t.lists[o.list].maxSize && o.count <= s.t.lists[o.list].issuedCount
      && o.readAt <= |s.log|
      && forall k | 0 <= k < o.readAt && s.log[k].list == o.list :: s.log[k].index < o.count
  }

  /** Lists still to be committed are nobody else's. */
  ghost predicate CreatedInv(s: Sys) {
    && (forall c | c in s.calls && s.calls[c].Created? :: s.calls[c].list < s.nextId && s.calls[c].list !in s.t.lists)
    && (forall c, d | c in s.calls && d in s.calls && s.calls[c].Created? && s.calls[d].Created? ::
          s.calls[c].list == s.calls[d].list ==> c == d)
  }

  ghost predicate CredentialsInv(s: Sys) {
    && (forall vc | vc in s.t.credentials :: vc < s.nextId && s.t.credentials[vc] in s.log)
    && (forall a, b | a in s.t.credentials && b in s.t.credentials && s.t.credentials[a] == s.t.credentials[b] :: a == b)
  }

  ghost predicate EntriesInv(s: Sys) {
    forall slot | slot in s.t.entries :: slot in s.log
  }

  ghost predicate Inv(s: Sys, z: Codec) {
    SlotsInv(s) && CallsInv(s) && CreatedInv(s) && CredentialsInv(s) && EntriesInv(s) && BitsAgree(s.t, z)
  }

  lemma NoOnes(entries: map<Slot, Status>, l: nat)
    requires forall slot | slot in entries :: slot.list != l
    ensures Ones(entries, l) == {}
  {
  }

  lemma InitInv(s: Sys, z: Codec)
    requires z.Inverse() && Init(s, z)
    ensures Inv(s, z)
  {
  }

  lemma SwapKeepsSlots(s: Sys, c: nat, z: Codec)
    requires SlotsInv(s) && CallsInv(s) && CreatedInv(s) && Enabled(s, Swap(c))
    ensures SlotsInv(Apply(s, Swap(c), z)) && CallsInv(Apply(s, Swap(c), z)) && CreatedInv(Apply(s, Swap(c), z))
  {
    var r, o := Apply(s, Swap(c), z), PhaseOf(s, c);
    if SwapWins(s, c) {
      forall l, i | l in r.t.lists && 0 <= i < r.t.lists[l].issuedCount ensures Slot(l, i) in r.log {
        if Slot(l, i) != Slot(o.list, o.count) { assert Slot(l, i) in s.log; }
      }
      assert Slot(o.list, o.count) !in s.log;
    }
  }

  lemma SwapKeepsRest(s: Sys, c: nat, z: Codec)
    requires Inv(s, z) && Enabled(s, Swap(c))
    ensures CredentialsInv(Apply(s, Swap(c), z)) && EntriesInv(Apply(s, Swap(c), z)) && BitsAgree(Apply(s, Swap(c), z).t, z)
  {
  }

  lemma CommitKeepsSlots(s: Sys, c: nat, z: Codec)
    requires SlotsInv(s) && CallsInv(s) && CreatedInv(s) && Enabled(s, Commit(c))
    ensures SlotsInv(Apply(s, Commit(c), z)) && CallsInv(Apply(s, Commit(c), z)) && CreatedInv(Apply(s, Commit(c), z))
  {
    var r, o := Apply(s, Commit(c), z), PhaseOf(s, c);
    assert forall i | 0 <= i < |s.log| :: s.log[i].list != o.list;
    forall l, i | l in r.t.lists && 0 <= i < r.t.lists[l].issuedCount ensures Slot(l, i) in r.log {
      if l != o.list { assert Slot(l, i) in s.log; } else { assert r.log[|s.log|] == Slot(l, i); }
    }
  }

  lemma CommitKeepsRest(s: Sys, c: nat, z: Codec)
    requires z.Inverse() && Inv(s, z) && Enabled(s, Commit(c))
    ensures CredentialsInv(Apply(s, Commit(c), z)) && EntriesInv(Apply(s, Commit(c), z)) && BitsAgree(Apply(s, Commit(c), z).t, z)
  {
    var r, o := Apply(s, Commit(c), z), PhaseOf(s, c);
    var empty := seq(ByteCount(DEFAULT_LIST_SIZE), _ => 0);
    NothingSet(empty, DEFAULT_LIST_SIZE);
    PackEncodes({}, DEFAULT_LIST_SIZE);
    EncodingIsUnique(empty, Pack({}, DEFAULT_LIST_SIZE), {}, DEFAULT_LIST_SIZE);
    NoOnes(s.t.entries, o.list);
    assert forall slot | slot in s.log :: slot in r.log && slot.list != o.list;
    assert Slot(o.list, 0) in r.log;
  }

  lemma QuietInv(s: Sys, step: Step, z: Codec)
    requires Inv(s, z) && Enabled(s, step) && (step.Tick? || step.Read? || step.Create? || step.Abort?)
    ensures Inv(Apply(s, step, z), z)
  {
    assert Apply(s, step, z).t == s.t && Apply(s, step, z).log == s.log;
  }

  lemma StepInv(s: Sys, step: Step, z: Codec)
    requires z.Inverse() && Inv(s, z) && Enabled(s, step)
    ensures Inv(Apply(s, step, z), z)
  {
    match step
    case Swap(c) => SwapKeepsSlots(s, c, z); SwapKeepsRest(s, c, z);
    case Commit(c) => CommitKeepsSlots(s, c, z); CommitKeepsRest(s, c, z);
    case SetStatus(vc, value) => UpdateKeepsBits(s.t, s.t.credentials[vc], value, z);
    case _ => QuietInv(s, step, z);
  }

  /** The states a sequence of steps passes through, last one returned; None if a step is not enabled. */
  function Run(s: Sys, steps: seq<Step>, z: Codec): Option<Sys> {
    if steps == [] then Some(s) else
      match Run(s, steps[..|steps| - 1], z)
      case None => None
      case Some(r) => if Enabled(r, steps[|steps| - 1]) then Some(Apply(r, steps[|steps| - 1], z)) else None
  }

  lemma {:induction false} RunInv(s: Sys, steps: seq<Step>, z: Codec)
    requires z.Inverse() && Init(s, z) && Run(s, steps, z).Some?
    ensures Inv(Run(s, steps, z).value, z)
  {
    if steps == [] {
      InitInv(s, z);
    } else {
      RunInv(s, steps[..|steps| - 1], z);
      StepInv(Run(s, steps[..|steps| - 1], z).value, steps[|steps| - 1], z);
    }
  }

  /** Under any interleaving no slot is handed out twice, each lies below its list's maxSize, and the
      indices handed out for a list are exactly 0 .. issuedCount - 1. */
  lemma AllocationIsExact(s: Sys, steps: seq<Step>, z: Codec)
    requires z.Inverse() && Init(s, z) && Run(s, steps, z).Some?
    ensures var r := Run(s, steps, z).value;
      && (forall i, j | 0 <= i < j < |r.log| :: r.log[i] != r.log[j])
      && (forall slot | slot in r.log :: slot.list in r.t.lists && 0 <= slot.index < r.t.lists[slot.list].maxSize)
      && (forall l, i | l in r.t.lists :: Slot(l, i) in r.log <==> 0 <= i < r.t.lists[l].issuedCount)
  {
    RunInv(s, steps, z);
  }

  /** A swap is lost exactly when another call was given a slot of that list since the read. */
  lemma LostSwapMeansProgress(s: Sys, steps: seq<Step>, call: nat, z: Codec)
    requires z.Inverse() && Init(s, z) && Run(s, steps, z).Some? && Enabled(Run(s, steps, z).value, Swap(call))
    ensures var r := Run(s, steps, z).value; var o := PhaseOf(r, call);
      !SwapWins(r, call) <==> exists k :: o.readAt <= k < |r.log| && r.log[k] == Slot(o.list, o.count)
  {
    RunInv(s, steps, z);
    var r := Run(s, steps, z).value;
    var o := PhaseOf(r, call);
    if !SwapWins(r, call) {
      assert Slot(o.list, o.count) in r.log;
      var k :| 0 <= k < |r.log| && r.log[k] == Slot(o.list, o.count);
      assert o.readAt <= k;
    }
  }

  // ---------------------------------------------------------------------------------------------
  // Which list is provisioned when
  // ---------------------------------------------------------------------------------------------

  /** The lists of a purpose created up to t0 exist, are full, and no list dated as early is on its way. */
  ghost predicate SaturatedAt(s: Sys, purpose: Purpose, t0: int) {
    && t0 < s.now
    && (exists l :: l in s.t.lists && s.t.lists[l].purpose == purpose && s.t.lists[l].createdAt <= t0)
    && (forall l | l in s.t.lists && s.t.lists[l].purpose == purpose && s.t.lists[l].createdAt <= t0 :: !HasRoom(s.t.lists[l]))
    && (forall c | c in s.calls && s.calls[c].Created? && s.calls[c].purpose == purpose :: t0 < s.calls[c].createdAt)
  }

  /** Since state `a`: new lists of the purpose hold one credential and nobody is about to swap on them; a call
      about to swap on a list of the purpose was about to do so in `a` already; full lists of `a` are full. */
  ghost predicate OneEach(a: Sys, s: Sys, purpose: Purpose) {
    && (forall l | l in a.t.lists :: l in s.t.lists && s.t.lists[l].purpose == a.t.lists[l].purpose
          && (!HasRoom(a.t.lists[l]) ==> !HasRoom(s.t.lists[l])))
    && (forall l | l in s.t.lists && l !in a.t.lists && s.t.lists[l].purpose == purpose ::
          s.t.lists[l].issuedCount == 1 && s.t.lists[l].maxSize == DEFAULT_LIST_SIZE)
    && (forall c | c in s.calls && s.calls[c].Observed? && s.calls[c].list in s.t.lists && s.t.lists[s.calls[c].list].purpose == purpose ::
          c in a.calls && a.calls[c] == s.calls[c] && s.calls[c].list in a.t.lists)
  }

  lemma ReadFindsNoRoom(s: Sys, step: Step, t0: int, z: Codec)
    requires step.Read? && Enabled(s, step) && SaturatedAt(s, step.purpose, t0)
    ensures Apply(s, step, z).calls[step.call].Providing?
  {
    var l :| l in s.t.lists && s.t.lists[l].purpose == step.purpose && s.t.lists[l].createdAt <= t0;
  }

  /** What a step makes of the table of lists. */
  lemma ListsAfter(s: Sys, step: Step, z: Codec)
    requires CreatedInv(s) && Enabled(s, step)
    ensures var m, n := s.t.lists, Apply(s, step, z).t.lists;
      && (forall l | l in m :: l in n && n[l].purpose == m[l].purpose && n[l].createdAt == m[l].createdAt
            && n[l].maxSize == m[l].maxSize && m[l].issuedCount <= n[l].issuedCount)
      && (forall l | l in n && l !in m :: step.Commit? && l == PhaseOf(s, step.call).list
            && n[l] == NewList(PhaseOf(s, step.call).purpose, PhaseOf(s, step.call).createdAt, z))
      && (forall l | l in m && n[l].issuedCount != m[l].issuedCount :: step.Swap? && PhaseOf(s, step.call).Observed? && l == PhaseOf(s, step.call).list)
  {
  }

  /** What a step makes of the callers. */
  lemma CallsAfter(s: Sys, step: Step, c: nat, z: Codec)
    requires Enabled(s, step) && c in Apply(s, step, z).calls
    ensures var f := Apply(s, step, z).calls[c];
      || (c in s.calls && f == s.calls[c])
      || f.Idle? || f.Providing?
      || (step.Create? && f.Created? && f.createdAt == s.now)
      || (step.Read? && step.call == c && f.Observed? && f.list in s.t.lists && s.t.lists[f.list].purpose == step.purpose)
  {
  }

  lemma SaturationStep(s: Sys, step: Step, purpose: Purpose, t0: int, z: Codec)
    requires CreatedInv(s) && Enabled(s, step) && SaturatedAt(s, purpose, t0)
    ensures SaturatedAt(Apply(s, step, z), purpose, t0)
  {
    var r := Apply(s, step, z);
    ListsAfter(s, step, z);
    var l :| l in s.t.lists && s.t.lists[l].purpose == purpose && s.t.lists[l].createdAt <= t0;
    assert l in r.t.lists;
    forall c | c in r.calls && r.calls[c].Created? && r.calls[c].purpose == purpose ensures t0 < r.calls[c].createdAt {
      CallsAfter(s, step, c, z);
    }
  }

  lemma OneEachStep(a: Sys, s: Sys, step: Step, purpose: Purpose, t0: int, z: Codec)
    requires CreatedInv(s) && CallsInv(s) && Enabled(s, step) && SaturatedAt(s, purpose, t0) && OneEach(a, s, purpose)
    ensures OneEach(a, Apply(s, step, z), purpose)
  {
    var r := Apply(s, step, z);
    ListsAfter(s, step, z);
    forall c | c in r.calls && r.calls[c].Observed? && r.calls[c].list in r.t.lists && r.t.lists[r.calls[c].list].purpose == purpose
      ensures c in a.calls && a.calls[c] == r.calls[c] && r.calls[c].list in a.t.lists
    {
      CallsAfter(s, step, c, z);
      if step.Read? && step.call == c && step.purpose == purpose { ReadFindsNoRoom(s, step, t0, z); }
    }
  }

  /** Once the lists of a purpose dated up to t0 are full, no later state lets an allocation join an existing
      list, however much room later lists have: each call that begins afterwards makes a list of its own and
      takes index 0 of it, and every list made since holds exactly one credential. */
  lemma {:induction false} OneCredentialPerList(s: Sys, steps: seq<Step>, purpose: Purpose, t0: int, z: Codec)
    requires z.Inverse() && Inv(s, z) && SaturatedAt(s, purpose, t0) && Run(s, steps, z).Some?
    ensures var r := Run(s, steps, z).value; Inv(r, z) && SaturatedAt(r, purpose, t0) && OneEach(s, r, purpose)
  {
    if steps != [] {
      var front, step := steps[..|steps| - 1], steps[|steps| - 1];
      OneCredentialPerList(s, front, purpose, t0, z);
      var q := Run(s, front, z).value;
      StepInv(q, step, z);
      SaturationStep(q, step, purpose, t0, z);
      OneEachStep(s, q, step, purpose, t0, z);
    }
  }

  ghost predicate SomeRoom(s: Sys, purpose: Purpose) {
    exists l :: l in s.t.lists && s.t.lists[l].purpose == purpose && HasRoom(s.t.lists[l])
  }

  /** When a provisioning breaks the promise of a new list only when all are full: from a moment at which all
      are, exactly from the second one on. */
  lemma RoomIffOneWasMade(s: Sys, steps: seq<Step>, purpose: Purpose, t0: int, z: Codec)
    requires z.Inverse() && Inv(s, z) && SaturatedAt(s, purpose, t0) && !SomeRoom(s, purpose) && Run(s, steps, z).Some?
    ensures var r := Run(s, steps, z).value;
      SomeRoom(r, purpose) <==> exists l :: l in r.t.lists && r.t.lists[l].purpose == purpose && l !in s.t.lists
  {
    OneCredentialPerList(s, steps, purpose, t0, z);
    var r := Run(s, steps, z).value;
    if l :| l in r.t.lists && r.t.lists[l].purpose == purpose && l !in s.t.lists {
      assert HasRoom(r.t.lists[l]);
    }
  }

  // ---------------------------------------------------------------------------------------------
  // Such states are reached
  // ---------------------------------------------------------------------------------------------

  ghost predicate Leads(a: Sys, steps: seq<Step>, b: Sys, z: Codec) { Run(a, steps, z) == Some(b) }

  lemma Then(a: Sys, steps: seq<Step>, b: Sys, step: Step, z: Codec)
    requires Leads(a, steps, b, z) && Enabled(b, step)
    ensures Leads(a, steps + [step], Apply(b, step, z), z)
  {
    assert (steps + [step])[..|steps|] == steps;
  }

  function Nothing(): Sys { Sys(Tables(map[], map[], map[]), [], map[], 0, 0) }

  /** Two calls that find no list both make one. */
  lemma ColdStartMakesTwo(z: Codec) returns (steps: seq<Step>, s: Sys)
    ensures Init(Nothing(), z) && Leads(Nothing(), steps, s, z) && Enabled(s, Create(1)) && PhaseOf(s, 1) == Providing(Revocation)
    ensures SomeRoom(s, Revocation)
  {
    var a := Nothing();
    var s1 := Apply(a, Read(0, Revocation, None), z);
    var s2 := Apply(s1, Read(1, Revocation, None), z);
    var s3 := Apply(s2, Create(0), z);
    s := Apply(s3, Commit(0), z);
    Then(a, [], a, Read(0, Revocation, None), z);
    Then(a, [] + [Read(0, Revocation, None)], s1, Read(1, Revocation, None), z);
    Then(a, [] + [Read(0, Revocation, None)] + [Read(1, Revocation, None)], s2, Create(0), z);
    steps := [] + [Read(0, Revocation, None)] + [Read(1, Revocation, None)] + [Create(0)];
    Then(a, steps, s3, Commit(0), z);
    steps := steps + [Commit(0)];
    assert 0 in s.t.lists && HasRoom(s.t.lists[0]);
  }

  /** One list, dated 0, with n indices taken, and nobody at work. */
  ghost predicate Filled(s: Sys, n: nat) {
    && s.t.lists.Keys == {0} && s.t.lists[0].purpose == Revocation && s.t.lists[0].createdAt == 0
    && s.t.lists[0].maxSize == DEFAULT_LIST_SIZE && s.t.lists[0].issuedCount == n
    && s.calls == map[0 := Idle] && s.now == 0 && s.nextId > 0
  }

  lemma FillOne(a: Sys, steps: seq<Step>, s: Sys, n: nat, z: Codec) returns (more: seq<Step>, r: Sys)
    requires Leads(a, steps, s, z) && Filled(s, n) && n < DEFAULT_LIST_SIZE
    ensures Leads(a, more, r, z) && Filled(r, n + 1)
  {
    var read := Read(0, Revocation, Some(0));
    Then(a, steps, s, read, z);
    var s1 := Apply(s, read, z);
    Then(a, steps + [read], s1, Swap(0), z);
    more, r := steps + [read] + [Swap(0)], Apply(s1, Swap(0), z);
  }

  lemma FirstList(z: Codec) returns (steps: seq<Step>, s: Sys)
    ensures Leads(Nothing(), steps, s, z) && Filled(s, 1)
  {
    var a := Nothing();
    var s1 := Apply(a, Read(0, Revocation, None), z);
    var s2 := Apply(s1, Create(0), z);
    s := Apply(s2, Commit(0), z);
    Then(a, [], a, Read(0, Revocation, None), z);
    Then(a, [] + [Read(0, Revocation, None)], s1, Create(0), z);
    steps := [] + [Read(0, Revocation, None)] + [Create(0)];
    Then(a, steps, s2, Commit(0), z);
    steps := steps + [Commit(0)];
  }

  lemma {:induction false} FillUp(n: nat, z: Codec) returns (steps: seq<Step>, s: Sys)
    requires 1 <= n <= DEFAULT_LIST_SIZE
    ensures Leads(Nothing(), steps, s, z) && Filled(s, n)
  {
    if n == 1 {
      steps, s := FirstList(z);
    } else {
      steps, s := FillUp(n - 1, z);
      steps, s := FillOne(Nothing(), steps, s, n - 1, z);
    }
  }

  /** From an empty database, after enough allocations, the first list is full and every later allocation gets
      a list of its own. */
  lemma SaturationIsReached(z: Codec) returns (steps: seq<Step>, s: Sys)
    ensures Init(Nothing(), z) && Leads(Nothing(), steps, s, z) && SaturatedAt(s, Revocation, 0) && !SomeRoom(s, Revocation)
    ensures s.calls == map[0 := Idle] && s.t.lists.Keys == {0} && s.t.lists[0].createdAt == 0 && s.now == 1 && s.nextId > 0
    ensures s.t.lists[0].maxSize == 131_072 && s.t.lists[0].issuedCount == 131_072
  {
    var full;
    steps, full := FillUp(DEFAULT_LIST_SIZE, z);
    Then(Nothing(), steps, full, Tick(1), z);
    steps, s := steps + [Tick(1)], Apply(full, Tick(1), z);
    assert 0 in s.t.lists;
  }

  lemma MakeAnother(a: Sys, steps: seq<Step>, s: Sys, z: Codec) returns (more: seq<Step>, r: Sys)
    requires Leads(a, steps, s, z) && SaturatedAt(s, Revocation, 0)
    requires s.calls == map[0 := Idle] && s.t.lists.Keys == {0} && s.t.lists[0].createdAt == 0 && s.nextId > 0
    ensures Leads(a, more, r, z) && r.calls == map[0 := Idle]
    ensures 0 in r.t.lists && r.t.lists[0] == s.t.lists[0] && s.nextId in r.t.lists
    ensures r.t.lists[s.nextId].purpose == Revocation && HasRoom(r.t.lists[s.nextId])
    ensures r.t.lists.Keys == {0, s.nextId} && r.t.lists[s.nextId].createdAt == s.now == r.now
  {
    var read := Read(0, Revocation, Some(0));
    assert IsOldest(s.t.lists, Revocation, 0);
    var s1 := Apply(s, read, z);
    var s2 := Apply(s1, Create(0), z);
    r := Apply(s2, Commit(0), z);
    Then(a, steps, s, read, z);
    Then(a, steps + [read], s1, Create(0), z);
    Then(a, steps + [read] + [Create(0)], s2, Commit(0), z);
    more := steps + [read] + [Create(0)] + [Commit(0)];
  }

  /** So the class comment "provisions a new list when all existing ones are full" does not hold: a run from
      an empty database ends with a call about to create a list beside one with room. */
  lemma ProvisionsDespiteRoom(z: Codec) returns (steps: seq<Step>, s: Sys)
    ensures Init(Nothing(), z) && Leads(Nothing(), steps, s, z)
    ensures Enabled(s, Create(0)) && PhaseOf(s, 0) == Providing(Revocation) && SomeRoom(s, Revocation)
    ensures SaturatedAt(s, Revocation, 0)
  {
    var s0, s1;
    steps, s0 := SaturationIsReached(z);
    var l := s0.nextId;
    steps, s1 := MakeAnother(Nothing(), steps, s0, z);
    var read := Read(0, Revocation, Some(0));
    Then(Nothing(), steps, s1, read, z);
    steps, s := steps + [read], Apply(s1, read, z);
    assert l in s.t.lists && 0 in s.t.lists;
  }

  // ---------------------------------------------------------------------------------------------
  // Credentials
  // ---------------------------------------------------------------------------------------------

  /** The status last set for a credential in a run; 0 until then. */
  function LastStatus(steps: seq<Step>, credential: nat): Status {
    if steps == [] then 0
    else match steps[|steps| - 1]
      case SetStatus(vc, value) => if vc == credential then value else LastStatus(steps[..|steps| - 1], credential)
      case _ => LastStatus(steps[..|steps| - 1], credential)
  }

  /** Revoking one credential sets its own bit and leaves every other credential's check unchanged. */
  lemma RevokeTouchesOneCredential(s: Sys, vc: nat, value: Status, other: nat, z: Codec)
    requires z.Inverse() && Inv(s, z) && vc in s.t.credentials && other in s.t.credentials
    ensures Check(Apply(s, SetStatus(vc, value), z).t, s.t.credentials[other], z)
         == if other == vc then Some(value as bv8) else Check(s.t, s.t.credentials[other], z)
  {
    UpdateThenCheck(s.t, s.t.credentials[vc], value, s.t.credentials[other], z);
  }

  predicate Issues(s: Sys, step: Step)
    requires Enabled(s, step)
  {
    step.Commit? || (step.Swap? && SwapWins(s, step.call))
  }

  lemma NewCredentialIsClear(s: Sys, step: Step, z: Codec)
    requires z.Inverse() && Inv(s, z) && Enabled(s, step) && Issues(s, step)
    ensures var r := Apply(s, step, z);
      && r.t.credentials.Keys == s.t.credentials.Keys + {s.nextId}
      && Check(r.t, r.t.credentials[s.nextId], z) == Some(0)
  {
    var r := Apply(s, step, z);
    var slot := r.t.credentials[s.nextId];
    assert slot !in s.log;
    StepInv(s, step, z);
    CheckReadsEntry(r.t, slot, z);
  }

  lemma OtherStepsKeepChecks(s: Sys, step: Step, slot: Slot, z: Codec)
    requires SlotsInv(s) && CreatedInv(s) && Enabled(s, step) && !step.SetStatus? && slot.list in s.t.lists
    ensures Check(Apply(s, step, z).t, slot, z) == Check(s.t, slot, z)
  {
  }

  /** What a step does to one credential's check. */
  lemma CheckAfterStep(s: Sys, step: Step, credential: nat, z: Codec)
    requires z.Inverse() && Inv(s, z) && Enabled(s, step)
    ensures var t, r := s.t, Apply(s, step, z).t;
      if credential in r.credentials
      then Check(r, r.credentials[credential], z)
        == if step.SetStatus? && step.credential == credential then Some(step.value as bv8)
           else if credential in t.credentials then Check(t, t.credentials[credential], z) else Some(0)
      else credential !in t.credentials
  {
    if step.SetStatus? {
      if credential in s.t.credentials { RevokeTouchesOneCredential(s, step.credential, step.value, credential, z); }
    } else if credential in s.t.credentials {
      OtherStepsKeepChecks(s, step, s.t.credentials[credential], z);
    } else if Issues(s, step) {
      NewCredentialIsClear(s, step, z);
    }
  }

  lemma {:induction false} LastStatusStep(steps: seq<Step>, credential: nat)
    requires steps != []
    ensures var step := steps[|steps| - 1];
      LastStatus(steps, credential)
        == if step.SetStatus? && step.credential == credential then step.value else LastStatus(steps[..|steps| - 1], credential)
  {
  }

  /** For every run: checkEntry on a credential's stored slot returns the status last set for it. */
  lemma {:induction false} CheckIsLastStatus(s: Sys, steps: seq<Step>, credential: nat, z: Codec)
    requires z.Inverse() && Init(s, z) && Run(s, steps, z).Some?
    ensures var r := Run(s, steps, z).value;
      if credential in r.t.credentials
      then Check(r.t, r.t.credentials[credential], z) == Some(LastStatus(steps, credential) as bv8)
      else LastStatus(steps, credential) == 0
  {
    if steps != [] {
      var front, step := steps[..|steps| - 1], steps[|steps| - 1];
      var q := Run(s, front, z).value;
      CheckIsLastStatus(s, front, credential, z);
      RunInv(s, front, z);
      CheckAfterStep(q, step, credential, z);
      assert Run(s, steps, z) == Some(Apply(q, step, z));
      LastStatusStep(steps, credential);
    }
  }

  // ---------------------------------------------------------------------------------------------
  // The service over its tables
  // ---------------------------------------------------------------------------------------------

  /** `r` has one row for each of these slots of a list, and no other. */
  ghost predicate Rows(entries: map<Slot, Status>, listId: nat, slots: set<Slot>, r: seq<Entry>) {
    && slots <= entries.Keys && (forall s | s in slots :: s.list == listId)
    && (forall i, j | 0 <= i < j < |r| :: r[i].index != r[j].index)
    && (forall i | 0 <= i < |r| :: Slot(listId, r[i].index) in slots && entries[Slot(listId, r[i].index)] == r[i].value)
    && (forall s | s in slots :: Entry(s.index, entries[s]) in r)
  }

  lemma RowsAppend(entries: map<Slot, Status>, listId: nat, slots: set<Slot>, r: seq<Entry>, s: Slot)
    requires Rows(entries, listId, slots, r) && s in entries && s.list == listId && s !in slots
    ensures Rows(entries, listId, slots + {s}, r + [Entry(s.index, entries[s])])
  {
    var more := r + [Entry(s.index, entries[s])];
    assert s == Slot(listId, s.index);
    forall x | x in slots + {s} ensures Entry(x.index, entries[x]) in more {
      if x == s { assert more[|r|] == Entry(s.index, entries[s]); }
    }
  }

  lemma RowsOnes(entries: map<Slot, Status>, listId: nat, slots: set<Slot>, r: seq<Entry>)
    requires Rows(entries, listId, slots, r) && slots == set s | s in entries && s.list == listId
    ensures OnesOf(r) == Ones(entries, listId)
    ensures forall index, value :: Entry(index, value) in r <==>
      Slot(listId, index) in entries && entries[Slot(listId, index)] == value
  {
    forall x ensures x in OnesOf(r) <==> x in Ones(entries, listId) {
      if x in Ones(entries, listId) {
        var s :| s in entries && s.list == listId && entries[s] == 1 && s.index == x;
        assert Entry(x, 1) in r;
      }
    }
    forall index, value ensures Entry(index, value) in r <==> Slot(listId, index) in entries && entries[Slot(listId, index)] == value {
      if Slot(listId, index) in entries { assert Slot(listId, index) in slots; }
    }
  }

  class StatusListService {
    const z: Codec
    var lists: map<nat, List>
    var entries: map<Slot, Status>
    var credentials: map<nat, Slot>

    constructor (z: Codec)
      ensures this.z == z && View() == Tables(map[], map[], map[])
    {
      this.z := z;
      lists, entries, credentials := map[], map[], map[];
    }

    function View(): Tables
      reads this
    {
      Tables(lists, entries, credentials)
    }

    /** statusListEntry.findMany: the entries of a list, in whatever order. */
    method FindEntries(listId: nat) returns (r: seq<Entry>)
      ensures forall i, j | 0 <= i < j < |r| :: r[i].index != r[j].index
      ensures forall index, value :: Entry(index, value) in r <==>
        Slot(listId, index) in entries && entries[Slot(listId, index)] == value
      ensures OnesOf(r) == Ones(entries, listId)
    {
      r := [];
      var todo := set s | s in entries && s.list == listId;
      ghost var all := todo;
      while todo != {}
        invariant todo <= all && all <= entries.Keys && Rows(entries, listId, all - todo, r)
        decreases |todo|
      {
        var s :| s in todo;
        RowsAppend(entries, listId, all - todo, r, s);
        assert all - (todo - {s}) == (all - todo) + {s};
        r := r + [Entry(s.index, entries[s])];
        todo := todo - {s};
      }
      assert all - todo == all;
      RowsOnes(entries, listId, all, r);
    }

    method EncodeList(list: seq<Entry>, maxSize: nat) returns (blob: seq<bv8>)
      ensures blob == z.deflate(Pack(OnesOf(list), maxSize))
    {
      var bits := PackEntries(list, maxSize);
      blob := z.deflate(bits);
    }

    method UpdateEntry(listId: nat, index: int, value: Status) returns (ok: bool)
      modifies this
      ensures ok == (listId in old(lists))
      ensures View() == Update(old(View()), Slot(listId, index), value, z)
    {
      if listId !in lists { return false; }
      entries := entries[Slot(listId, index) := value];
      var allEntries := FindEntries(listId);
      var list := lists[listId];
      var encoded := EncodeList(allEntries, list.maxSize);
      lists := lists[listId := list.(encoded := encoded)];
      ok := true;
    }

    method CheckEntry(listId: nat, index: int) returns (r: Option<bv8>)
      ensures r == Check(View(), Slot(listId, index), z)
    {
      if listId !in lists { return None; }
      var bits := z.inflate(lists[listId].encoded);
      r := Some(BitAt(bits, index));
    }

    /** findFirst where statusPurpose order by createdAt. */
    method FindOldest(purpose: Purpose) returns (r: Option<nat>)
      ensures r.None? <==> forall l | l in lists :: lists[l].purpose != purpose
      ensures r.Some? ==> IsOldest(lists, purpose, r.value)
    {
      r := None;
      var todo := lists.Keys;
      while todo != {}
        invariant todo <= lists.Keys
        invariant r.None? <==> forall l | l in lists.Keys - todo :: lists[l].purpose != purpose
        invariant r.Some? ==> r.value in lists && lists[r.value].purpose == purpose
        invariant r.Some? ==> forall l | l in lists.Keys - todo && lists[l].purpose == purpose ::
          lists[r.value].createdAt <= lists[l].createdAt
        decreases |todo|
      {
        var l :| l in todo;
        if lists[l].purpose == purpose && (r.None? || lists[l].createdAt < lists[r.value].createdAt) {
          r := Some(l);
        }
        todo := todo - {l};
      }
    }

    /** updateMany where id and the observed issuedCount: the atomic conditional increment. */
    method IncrementIfUnchanged(listId: nat, observed: nat) returns (count: nat)
      modifies this`lists
      ensures count == if listId in old(lists) && old(lists)[listId].issuedCount == observed then 1 else 0
      ensures lists == if count == 0 then old(lists)
        else old(lists)[listId := old(lists)[listId].(issuedCount := observed + 1)]
    {
      count := 0;
      if listId in lists && lists[listId].issuedCount == observed {
        lists := lists[listId := lists[listId].(issuedCount := observed + 1)];
        count := 1;
      }
    }

    /** allocateIndex when no other call runs in between, so its swap cannot be lost. */
    method AllocateIndex(purpose: Purpose, freshId: nat, now: int) returns (slot: Slot)
      requires freshId !in lists
      modifies this`lists
      ensures slot.list in old(lists) ==>
        && IsOldest(old(lists), purpose, slot.list) && HasRoom(old(lists)[slot.list])
        && slot.index == old(lists)[slot.list].issuedCount
        && lists == old(lists)[slot.list := old(lists)[slot.list].(issuedCount := slot.index + 1)]
      ensures slot.list !in old(lists) ==>
        && slot == Slot(freshId, 0)
        && lists == old(lists)[freshId := List(purpose, now, z.deflate(Pack({}, DEFAULT_LIST_SIZE)), DEFAULT_LIST_SIZE, 1)]
        && ((forall l | l in old(lists) :: old(lists)[l].purpose != purpose)
            || exists m :: IsOldest(old(lists), purpose, m) && !HasRoom(old(lists)[m]))
    {
      var available := FindOldest(purpose);
      var list, issued := freshId, 0;
      if available.Some? && HasRoom(lists[available.value]) {
        list, issued := available.value, lists[available.value].issuedCount;
      } else {
        var emptyBits := PackEntries([], DEFAULT_LIST_SIZE);
        assert OnesOf([]) == {};
        var encoded := z.deflate(emptyBits);
        lists := lists[freshId := List(purpose, now, encoded, DEFAULT_LIST_SIZE, 0)];
      }
      var count := IncrementIfUnchanged(list, issued);
      assert count == 1;
      slot := Slot(list, issued);
    }
  }
}
